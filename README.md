# TCGPlayerFiller core, modelled in Dafny

TCGPlayerFiller reads a spreadsheet of trading-card inventory rows. For each row it drives
a browser through a storefront's admin product catalog: it searches for the card, picks
the right set in the set-name dropdown, writes a 10% discounted price and the row's
quantity, and saves. It records what happened to each row in five outcome lists. This
project models the decision logic of that program and proves properties of it:

- `CardHandler` (Cardhandler.py): the loader's row filter. It keeps English rows with no
  Foil value, and returns None when the read fails, when the column count is wrong, or
  when no row survives.
- `CardInput` (CardInput.py): `search_for_card`'s three-stage choice of a set-name
  option (exact text, then the first partial match, then the "All Set Names" sentinel)
  and its True/False outcome. Also `process_card`'s "False on any failure, True only
  after Save".
- `Orchestrator` (main.py): the per-row loop of `main`. It classifies each row, runs
  two retry loops bounded by three attempts, appends to five lists held by a class,
  handles exceptions and recovery, and stops early only when logging in again fails.
- `CardLogger` (card_logger.py): the log file's path, header, entry lines and summary
  block, and an append-only file system object.
- `Text`: the Python string operations these rely on (`lower`, `in`, `split()[0]`,
  `strip`, `replace`, integer rendering), restricted to ASCII.
- `Wrappers`: the `Option` type.

Inputs that come from outside the program are parameters:
- the browser: pages per attempt, and booleans for waits and navigation;
- the clock: `DateTime` values;
- the spreadsheet read: a `Sheet` or None;
- whether a file write succeeds: a boolean;
- the floating-point price computation: an opaque function `reprice`.

main.py keeps no status column, does not resume an earlier run, makes no backup copy of
the sheet, has no manual-intervention prompt, and never calls the logger. The model follows
the code as it stands.

## Model

| member | source | states |
|---|---|---|
| `Text.ToLower` | CardInput.py:49-50 | `lower()`: same length, each ASCII capital replaced by its small letter and every other character kept |
| `Text.ToLowerIdempotent` | CardInput.py:49-50 | lowercasing is idempotent and leaves no upper-case ASCII letter |
| `Text.Contains` | CardInput.py:49-50 | Python's `sub in s` as "a prefix of `s` or contained in its tail"; `ContainsIffOccurs` proves it equal to "occurs at some position" |
| `Text.ContainsIffOccurs` | CardInput.py:49-50 | `sub in s` holds exactly when `sub` occurs at some position of `s` |
| `Text.ContainsChar` | CardInput.py:49-50 | a one-character string is contained exactly when the character occurs |
| `Text.LeadingSpaces` | CardInput.py:50 | counts exactly the run of whitespace at the start |
| `Text.WordLength` | CardInput.py:50 | counts exactly the run of non-whitespace at the start |
| `Text.TrailingSpaces` | main.py:58 | counts exactly the run of whitespace at the end |
| `Text.FirstToken` | CardInput.py:50 | `split()[0]`: None (IndexError) exactly for an all-whitespace name; otherwise a non-empty, space-free token preceded only by whitespace and followed by whitespace or the end |
| `Text.Strip` | main.py:58 | `strip()` is empty exactly for all-whitespace text; otherwise it starts and ends with non-whitespace and is a slice of the input with only whitespace around it |
| `Text.RemoveChar` | CardInput.py:84 | `replace('$', '')` removes every `$`, keeps every other character as often as it occurs, and keeps their order |
| `Text.RemoveCharAllSpace` | CardInput.py:84 | what remains after the removal is blank exactly when the text holds only `$` and whitespace |
| `Text.NatToString` | card_logger.py:41-46 | decimal rendering is a non-empty digit string with no leading zero |
| `Text.IntToString` | card_logger.py:41-46 | an f-string's rendering of an int: a minus sign for negatives, then the digits; `IntToStringRoundTrip` proves `ParseInt` reads it back |
| `Text.ParseNatToString` | card_logger.py:41-46 | reading a rendered natural number back gives the number |
| `Text.IntToStringRoundTrip` | card_logger.py:41-46 | a rendered integer parses back to itself and holds no newline |
| `Text.Pad2RoundTrip` | card_logger.py:11 | two-digit padding of a number below 100 is two digits that parse back to it |
| `Text.SubsequenceLength` | Cardhandler.py:12 | a subsequence is no longer than the sequence |
| `CardHandler.Filter` | Cardhandler.py:12 | every returned row is English with no Foil value; each passing row is kept as often as it occurs and the others are dropped; the result keeps the input order |
| `CardHandler.FilterKeepsEveryPassingRow` | Cardhandler.py:12 | every input row meeting the condition is in the result |
| `CardHandler.FilterNoLonger` | Cardhandler.py:12 | the result is no longer than the input |
| `CardHandler.LoadCardData` | Cardhandler.py:3-23 | returns rows exactly when the read succeeded, the sheet has the nine named columns and some row passes; those rows are the filter's non-empty result; otherwise None |
| `CardHandler.LoadedRowsAreEnglishNonFoil` | Cardhandler.py:12-19 | every row the loader returns has Language 'English' and a missing Foil |
| `CardInput.IndexOf` | CardInput.py:34-37 | `select_by_visible_text`: the first option with that text; None (NoSuchElementException) exactly when no option has it |
| `CardInput.PartialTest` | CardInput.py:49-50 | the partial-match condition with its short-circuit `or`: true from the full-name test alone, otherwise the first-word test, None where `split()[0]` raises; `PartialTestMeaning` characterises it |
| `CardInput.PartialTestMeaning` | CardInput.py:49-50 | the partial test is true exactly when the lowered option contains the lowered name or its lowered first token; it raises exactly when the name is blank and not contained |
| `CardInput.ScanFrom` | CardInput.py:43-54 | the `for option in options` scan from position `k`: sentinel skipped, first hit ends it, an IndexError ends it; `ScanFromSpec` characterises each outcome |
| `CardInput.ScanFromSpec` | CardInput.py:43-54 | the scan stops at the first non-sentinel option whose test is true (Hit) or raises (SplitError); every option passed over is the sentinel or tests false; Miss means all do |
| `CardInput.PartialScan` | CardInput.py:42-54 | the `for` loop with `continue` and `break` ends exactly as the scan specification says |
| `CardInput.ResolveSet` | CardInput.py:30-59 | the three stages in order: exact text, then the scan, then the sentinel; the lemmas below prove which option each stage selects and when it raises |
| `CardInput.ExactMatchWins` | CardInput.py:33-40 | when the name equals an option's text, that first such option is chosen as an exact match and the scan does not run |
| `CardInput.PartialMatchIsFirstHit` | CardInput.py:43-54 | a partial match is not the sentinel, is not an exact match, passes the test, and every earlier non-sentinel option fails both tests |
| `CardInput.PartialSelectionByText` | CardInput.py:51 | selecting the hit by its text lands on the hit itself |
| `CardInput.FallbackToAllSets` | CardInput.py:56-59 | the sentinel is chosen exactly when there is no exact match, every non-sentinel option fails the test, and the sentinel exists; the chosen option is the sentinel |
| `CardInput.SplitFailsOnlyOnBlankName` | CardInput.py:49-50 | the scan raises only for a blank name, at a non-sentinel option not containing it, after options that all failed |
| `CardInput.EmptySetNameTakesFirstOption` | CardInput.py:49-50 | with an empty name and no empty option, the first non-sentinel option is the partial match |
| `CardInput.BlankSetNameFails` | CardInput.py:50 | a one-space name against ["Kamigawa", "All Set Names"] raises in the scan |
| `CardInput.NeonDynastyExample` | CardInput.py:40-54 | "Neon Dynasty" selects "Kamigawa: Neon Dynasty" (first hit), not the later "Kamigawa" |
| `CardInput.SearchForCard` | CardInput.py:9-74 | True exactly when the search field is ready, "Magic" is selectable, the set select exists, the three stages choose an option, and the results marker appears; the option left selected is the stages' choice |
| `CardInput.CleanPrice` | CardInput.py:84 | the text passed to `float` holds no `$`, has no surrounding whitespace, is empty exactly when the price text is only `$` and whitespace, and is the `$`-free text with its surrounding whitespace cut off |
| `CardInput.ProcessCard` | CardInput.py:77-113 | True exactly when every element is found and the price parses; True exactly when Save was clicked, and then the discounted price and the row's quantity were typed; a quantity is typed only after a price |
| `CardLogger.FileStamp` | card_logger.py:11 | `strftime("%Y%m%d_%H%M%S")`: year, then two-digit month, day, `_`, hour, minute, second; `FileStampShape` and `FileStampInjective` prove its layout and injectivity |
| `CardLogger.LogStamp` | card_logger.py:24 | `strftime("%Y-%m-%d %H:%M:%S")`; `LogStampOneLine` proves it holds no newline |
| `CardLogger.LogPath` | card_logger.py:7-12 | `os.path.join("logs", f"card_processing_{timestamp}.log")`; `LogPathShape` proves its prefix, suffix and injectivity |
| `CardLogger.LogHeader` | card_logger.py:16 | the header line written when the log is created, followed by a blank line |
| `CardLogger.NatToStringFourDigits` | card_logger.py:11 | a year from 1000 to 9999 renders as four digits |
| `CardLogger.FileStampShape` | card_logger.py:11 | `%Y%m%d_%H%M%S` is 15 characters with `_` at position 8 and each field at its fixed place |
| `CardLogger.FileStampInjective` | card_logger.py:11 | distinct clock readings give distinct file stamps |
| `CardLogger.LogPathShape` | card_logger.py:11-12 | the path is `logs/card_processing_` + stamp + `.log`, and runs started in different seconds get different files |
| `CardLogger.EntryLine` | card_logger.py:26-28 | the entry `[stamp] name (set): status`, with ` - message` when the message is non-empty; `EntryLineMessage` and `EntryIsOneLine` prove its layout |
| `CardLogger.EntryLineMessage` | card_logger.py:26-28 | the entry is `[ts] card (set): status`, with ` - message` appended exactly when the message is non-empty |
| `CardLogger.EntryIsOneLine` | card_logger.py:26-29 | with newline-free fields the appended entry holds exactly one newline, as its last character |
| `CardLogger.SplitLineAt` | card_logger.py:29 | splitting text at its first newline returns the part before and the part after |
| `CardLogger.SummaryBlock` | card_logger.py:40-46 | the summary header and the six labelled count lines in the order written; `SummaryRoundTrip` proves `ParseSummary` reads the counts back |
| `CardLogger.ReadCounts` | card_logger.py:40-46 | reading count lines yields one value per label |
| `CardLogger.ReadCountLines` | card_logger.py:40-46 | count lines written for labels read back as the same values |
| `CardLogger.SummaryRoundTrip` | card_logger.py:39-46 | the summary block is the header followed by the six counts in the order total, successful, failed, skipped, non-English, foil: it parses back to exactly those counts |
| `CardLogger.Append` | card_logger.py:25-29 | appending keeps the old contents as a prefix followed by the text, creates a missing file, and leaves other files alone |
| `CardLogger.FileSystem.constructor` | card_logger.py:5-9 | the file system starts with the given directories and files |
| `CardLogger.FileSystem.CreateLogFile` | card_logger.py:5-18 | creates the `logs` directory, then writes (truncating) the header line and a blank line to `logs/card_processing_<stamp>.log` and returns that path; a failed open changes no file |
| `CardLogger.FileSystem.LogCardStatus` | card_logger.py:21-33 | returns True and appends exactly the entry line and its newline; on a write failure returns False and changes nothing |
| `CardLogger.FileSystem.LogSummary` | card_logger.py:36-50 | returns True and appends exactly the summary block; on a write failure returns False and changes nothing |
| `Orchestrator.Classify` | main.py:52-61 | which branch a row takes: the language test first (anything but the string `English`), then a non-blank foil string, then the lookup; a foil cell that is not a string raises on `strip()` |
| `Orchestrator.NonEnglishEntry` | main.py:54 | the non-English list entry `name (language)`, with an empty cell shown as `nan` |
| `Orchestrator.CallsFrom` | main.py:67-72 | the retry loop makes at most three calls, stops at the first success, and every call before the last one failed |
| `Orchestrator.Calls` | main.py:67 | a retry loop makes between one and three calls |
| `Orchestrator.SearchLoop` | main.py:64-72 | `search_for_card` is called as often as the specification says and never after a True; on exhaustion it was called three times and the loop reports failure |
| `Orchestrator.ProcessLoop` | main.py:76-84 | the same for `process_card`: at most three calls, stopping at the first success |
| `Orchestrator.Recover` | main.py:102-118 | the except branch: the row is appended to the failed list, and the run stops exactly when both the recovery navigation and the re-login fail |
| `Orchestrator.Step` | main.py:48-118 | one pass of the loop body over a row; the row lemmas below prove which list grows and how many calls are made |
| `Orchestrator.NonEnglishRow` | main.py:52-55 | a non-English row adds `name (language)` to the non-English list with no search and no processing, whatever its foil cell holds |
| `Orchestrator.FoilRow` | main.py:58-61 | an English row with a non-blank foil string goes to the foil list with no search and no processing |
| `Orchestrator.RetryBounds` | main.py:64-84 | one to three searches, none after a success, exactly three on exhaustion; processing only after a successful search, at most three times, stopping at its first success |
| `Orchestrator.ExactlyOneAppend` | main.py:86-93 | without an exception exactly one list grows by one: successful after processing, failed after processing is exhausted, skipped after the search is exhausted |
| `Orchestrator.ExceptionAppendsFailed` | main.py:102-118 | an exception puts the row last in the failed list (one or two appends in all); the run stops exactly when recovery navigation and re-login both fail |
| `Orchestrator.SuccessThenFailedNavigation` | main.py:86-104 | the lists are not disjoint: a processed row whose return to the catalog fails is in both the successful and the failed list |
| `Orchestrator.StepStops` | main.py:107-118 | a row stops the run exactly when it raised and both recovery and re-login failed; the lists only grow, by one, or by two after an exception |
| `Orchestrator.RunFrom` | main.py:47-118 | the `for` loop from row `i`: `Step` on each row until one stops the run; `RunVisits` and `RunTotals` prove what it visits and how the lists grow |
| `Orchestrator.RunVisits` | main.py:47-118 | the run visits every row unless one stops it, and it ends right after the first such row |
| `Orchestrator.RunTotals` | main.py:47-118 | the lists only grow; each visited row adds one or two entries; without exceptions all rows are visited and the list lengths sum to the row count |
| `Orchestrator.KeptRowStep` | main.py:52-61 | a row that passes the loader's filter is looked up and adds nothing to the non-English or foil lists |
| `Orchestrator.KeptRowsSkipNothing` | main.py:52-61 | on rows that pass the loader's filter, the non-English and the foil branches never fire |
| `Orchestrator.LoadedRunSkipsNothing` | main.py:18-61 | a run over the loader's rows ends with empty non-English and foil lists |
| `Orchestrator.RunState.constructor` | main.py:40-44 | the five lists start empty |
| `Orchestrator.RunState.ProcessRow` | main.py:48-118 | one iteration changes the five lists and reports calls and stopping exactly as the row specification says |
| `Orchestrator.RunState.ProcessRows` | main.py:47-118 | the `for` loop with its `break` leaves the lists and the visited count the run specification gives |
| `Orchestrator.RunMain` | main.py:16-127 | stops with no cards, a failed login, or an unreachable catalog exactly in those cases; otherwise the summary counts are the number of loaded rows and each list's length after the run |

## Left out

- driver.py (browser setup, the manual `input()` login, random mouse movements) and
  config.py (`.env` loading and the missing-credentials `ValueError`) are not part of this
  model. Login results are booleans.
- Selenium's waits, timeouts, `time.sleep` delays and DOM locators are booleans or page
  fields. The browser restart after a failed recovery is one boolean: "login succeeds".
  An exception from `driver.quit()` or `setup_driver()` during recovery is not modelled.
- `CardInput.IndexOf`: Selenium's `select_by_visible_text` compares whitespace-normalised
  option text and has a fallback for texts with spaces. The model compares the texts exactly.
- `CardInput.SearchForCard`: the card name typed into the search field and the
  product-line selection are not part of the returned state. Only the set-name choice is.
  A set name that is not a string (a NaN cell) is not modelled.
- `Text.ToLower` and `Text.IsSpace`: ASCII only. Unicode case mapping and Unicode
  whitespace, which Python's `lower`, `split` and `strip` also handle, are not modelled.
- `CardInput.ProcessCard`: the price arithmetic (`float`, `* 0.9`, `round(..., 2)`,
  `str`) is the opaque function `reprice`, because it is floating point.
- Console output: every `print`, including the failed/skipped/non-English/foil listings
  after the summary (main.py:129-147). The summary's counts themselves are modelled.
- `driver.quit()` calls, including the double quit when the first login fails.
- `CardLogger.FileSystem.LogSummary`: a write that fails part-way through the six writes
  is modelled as writing nothing.
- `CardLogger.FileSystem.CreateLogFile`: `os.path.exists` succeeding on a plain file named
  `logs`, and a failing `makedirs`, are not modelled. A failed open is `None`, standing for
  the exception that propagates.
- `CardLogger.FileStamp`: years before 1000 render unpadded. That is glibc's `%Y`; other
  platforms pad.
- Rows: only Foil and Language keep the NaN / string / other-value distinction. The other
  fields are strings, and Quantity is the text that `str()` gives.
