/** main.py: the run over the loaded rows. Each row is classified (non-English, foil, or
    looked up), searched for and processed with at most three attempts each, and lands in
    one of five bucket lists; an exception while handling a row puts it in the failed list
    and triggers recovery, and the run ends early only when logging in again fails.

    The browser is an input: for each row, a `RowWorld` says what the k-th search attempt
    and the k-th processing attempt find, and whether the navigations after the row work. */
module Orchestrator {
  import opened Wrappers
  import opened Text
  import opened CardHandler
  import opened CardInput
  import CardLogger

  /** The retry ceiling of both the search and the processing loop. */
  const MaxAttempts := 3
  /** The URL fragment that shows the browser is on the product catalog. */
  const CatalogPath := "admin/product/catalog"

  /** What the collaborators do while one row is handled. */
  datatype RowWorld = RowWorld(
    searchPages: nat -> SearchPage,     // the page the k-th call of search_for_card sees
    productPages: nat -> ProductPage,   // the page the k-th call of process_card sees
    backToCatalog: bool,                // after the row, the catalog and its search field load in time
    recoverNav: bool,                   // during recovery, the same
    relogin: bool)                      // after a browser restart, login succeeds

  /** The five outcome lists, in the order main.py declares them. */
  datatype Buckets = Buckets(
    successful: seq<string>,
    failed: seq<string>,
    skipped: seq<string>,
    nonEnglish: seq<string>,
    foil: seq<string>)

  const NoBuckets := Buckets([], [], [], [], [])

  function Total(b: Buckets): nat {
    |b.successful| + |b.failed| + |b.skipped| + |b.nonEnglish| + |b.foil|
  }

  /** Every list of `b` is a prefix of the same list in `b'`: the lists are only appended to. */
  predicate Extends(b: Buckets, b': Buckets) {
    b.successful <= b'.successful && b.failed <= b'.failed && b.skipped <= b'.skipped
    && b.nonEnglish <= b'.nonEnglish && b.foil <= b'.foil
  }

  /** How a row is handled before any search: the language check comes first; a foil
      cell that is neither empty nor a string makes `.strip()` raise. */
  datatype Kind = NonEnglish | FoilCard | Lookup | FoilCheckRaises

  function Classify(row: Row): Kind {
    if row.language != Str("English") then NonEnglish
    else
      match row.foil
      case NaN => Lookup
      case Str(s) => if Strip(s) != [] then FoilCard else Lookup
      case NonStr(_) => FoilCheckRaises
  }

  /** `str()` of a cell in an f-string. */
  function CellText(c: Cell): string {
    match c
    case NaN => "nan"
    case Str(s) => s
    case NonStr(shown) => shown
  }

  /** The entry of the non-English list: `f"{Product Name} ({Language})"`. */
  function NonEnglishEntry(row: Row): string {
    row.productName + " (" + CellText(row.language) + ")"
  }

  // ---------------------------------------------------------------------------
  // The bounded retry loops, as a specification

  /** The number of calls `while attempt < 3 and not success: success = call(...)` makes
      when `k` calls have already failed: it stops after the first success or the third call. */
  function CallsFrom(succeeds: nat -> bool, k: nat): (n: nat)
    requires k <= MaxAttempts
    ensures k < n <= MaxAttempts || n == k == MaxAttempts
    ensures forall j :: k <= j < n - 1 ==> !succeeds(j)
    ensures n > k ==> succeeds(n - 1) || n == MaxAttempts
    decreases MaxAttempts - k
  {
    if k == MaxAttempts then k
    else if succeeds(k) then k + 1
    else CallsFrom(succeeds, k + 1)
  }

  function Calls(succeeds: nat -> bool): (n: nat)
    ensures 1 <= n <= MaxAttempts
  {
    CallsFrom(succeeds, 0)
  }

  /** What the k-th search attempt for this row returns. */
  function SearchResults(w: RowWorld, setName: string): nat -> bool {
    (k: nat) => SearchSucceeds(w.searchPages(k), setName)
  }

  /** What the k-th processing attempt for this row returns. */
  function ProcessResults(w: RowWorld, reprice: string -> Option<string>): nat -> bool {
    (k: nat) => ProcessSucceeds(w.productPages(k), reprice)
  }

  /** What handling one row does: the new buckets, how often each collaborator was called,
      and whether the run stops after it. */
  datatype RowOutcome = RowOutcome(buckets: Buckets, searchCalls: nat, processCalls: nat, stop: bool)

  /** The exception branch: the row is added to the failed list; the run stops only when
      the catalog cannot be reached again and the restarted browser cannot log in. */
  function Recover(b: Buckets, name: string, w: RowWorld, searchCalls: nat, processCalls: nat): RowOutcome {
    RowOutcome(b.(failed := b.failed + [name]), searchCalls, processCalls, !w.recoverNav && !w.relogin)
  }

  /** Whether handling the row raises an exception in the row's try-block. */
  predicate Raises(row: Row, w: RowWorld) {
    Classify(row) == FoilCheckRaises || (Classify(row) == Lookup && !w.backToCatalog)
  }

  predicate RowStops(row: Row, w: RowWorld) {
    Raises(row, w) && !w.recoverNav && !w.relogin
  }

  function Step(b: Buckets, row: Row, w: RowWorld, reprice: string -> Option<string>): RowOutcome {
    var name := row.productName;
    match Classify(row)
    case NonEnglish => RowOutcome(b.(nonEnglish := b.nonEnglish + [NonEnglishEntry(row)]), 0, 0, false)
    case FoilCard => RowOutcome(b.(foil := b.foil + [name]), 0, 0, false)
    case FoilCheckRaises => Recover(b, name, w, 0, 0)
    case Lookup =>
      var searched := SearchResults(w, row.setName);
      var processed := ProcessResults(w, reprice);
      var sc := Calls(searched);
      var found := searched(sc - 1);
      var pc := if found then Calls(processed) else 0;
      var b' :=
        if !found then b.(skipped := b.skipped + [name])
        else if processed(pc - 1) then b.(successful := b.successful + [name])
        else b.(failed := b.failed + [name]);
      if w.backToCatalog then RowOutcome(b', sc, pc, false) else Recover(b', name, w, sc, pc)
  }

  // ---------------------------------------------------------------------------
  // Properties of one row

  /** A non-English row goes to the non-English list, with no search and no processing,
      whatever its foil cell holds. */
  lemma NonEnglishRow(b: Buckets, row: Row, w: RowWorld, reprice: string -> Option<string>)
    requires row.language != Str("English")
    ensures Step(b, row, w, reprice) == RowOutcome(b.(nonEnglish := b.nonEnglish + [NonEnglishEntry(row)]), 0, 0, false)
  {
  }

  /** An English row with a non-blank foil string goes to the foil list, with no search and
      no processing. */
  lemma FoilRow(b: Buckets, row: Row, w: RowWorld, reprice: string -> Option<string>)
    requires row.language == Str("English") && row.foil.Str? && !AllSpace(row.foil.value)
    ensures Step(b, row, w, reprice) == RowOutcome(b.(foil := b.foil + [row.productName]), 0, 0, false)
  {
  }

  /** The search is called at least once and at most three times, and never again after it
      succeeds; when it never succeeds it was called exactly three times. Processing runs only
      after a successful search, at most three times, stopping at its first success. */
  lemma RetryBounds(b: Buckets, row: Row, w: RowWorld, reprice: string -> Option<string>)
    requires Classify(row) == Lookup
    ensures var o := Step(b, row, w, reprice);
      var searched := SearchResults(w, row.setName);
      var processed := ProcessResults(w, reprice);
      && 1 <= o.searchCalls <= MaxAttempts
      && (forall j :: 0 <= j < o.searchCalls - 1 ==> !searched(j))
      && (!searched(o.searchCalls - 1) ==> o.searchCalls == MaxAttempts && o.processCalls == 0)
      && (o.processCalls > 0 <==> searched(o.searchCalls - 1))
      && o.processCalls <= MaxAttempts
      && (forall j :: 0 <= j < o.processCalls - 1 ==> !processed(j))
      && (o.processCalls > 0 && !processed(o.processCalls - 1) ==> o.processCalls == MaxAttempts)
  {
  }

  /** Without an exception, exactly one list grows, by the row: success after processing,
      failed after three failed processing attempts, skipped after three failed searches. */
  lemma ExactlyOneAppend(b: Buckets, row: Row, w: RowWorld, reprice: string -> Option<string>)
    requires !Raises(row, w)
    ensures var o := Step(b, row, w, reprice);
      Extends(b, o.buckets) && Total(o.buckets) == Total(b) + 1 && !o.stop
    ensures var o := Step(b, row, w, reprice);
      Classify(row) == Lookup ==>
        var found := SearchResults(w, row.setName)(o.searchCalls - 1);
        var done := found && ProcessResults(w, reprice)(o.processCalls - 1);
        && (done ==> o.buckets == b.(successful := b.successful + [row.productName]))
        && (found && !done ==> o.buckets == b.(failed := b.failed + [row.productName]))
        && (!found ==> o.buckets == b.(skipped := b.skipped + [row.productName]))
  {
  }

  /** An exception puts the row at the end of the failed list, possibly after an append
      made before the exception: one or two entries are added in all. */
  lemma ExceptionAppendsFailed(b: Buckets, row: Row, w: RowWorld, reprice: string -> Option<string>)
    requires Raises(row, w)
    ensures var o := Step(b, row, w, reprice);
      && Extends(b, o.buckets)
      && o.buckets.failed != [] && o.buckets.failed[|o.buckets.failed| - 1] == row.productName
      && Total(b) + 1 <= Total(o.buckets) <= Total(b) + 2
      && (o.stop <==> !w.recoverNav && !w.relogin)
  {
  }

  /** A retry loop whose first call succeeds makes exactly one call. */
  lemma FirstCallSucceeds(succeeds: nat -> bool)
    requires succeeds(0)
    ensures Calls(succeeds) == 1
  {
  }

  /** The lists are not disjoint: a processed row whose return to the catalog fails is both
      in the successful and in the failed list. */
  lemma SuccessThenFailedNavigation(b: Buckets, row: Row, w: RowWorld, reprice: string -> Option<string>)
    requires Classify(row) == Lookup && !w.backToCatalog
    requires SearchSucceeds(w.searchPages(0), row.setName) && ProcessSucceeds(w.productPages(0), reprice)
    ensures var o := Step(b, row, w, reprice);
      o.buckets.successful == b.successful + [row.productName]
      && o.buckets.failed == b.failed + [row.productName]
  {
    var name := row.productName;
    var searched := SearchResults(w, row.setName);
    var processed := ProcessResults(w, reprice);
    FirstCallSucceeds(searched);
    FirstCallSucceeds(processed);
    var b' := b.(successful := b.successful + [name]);
    assert Step(b, row, w, reprice) == Recover(b', name, w, 1, 1);
  }

  lemma StepStops(b: Buckets, row: Row, w: RowWorld, reprice: string -> Option<string>)
    ensures Step(b, row, w, reprice).stop == RowStops(row, w)
    ensures Extends(b, Step(b, row, w, reprice).buckets)
    ensures Total(b) + 1 <= Total(Step(b, row, w, reprice).buckets) <= Total(b) + (if Raises(row, w) then 2 else 1)
  {
    if Raises(row, w) {
      ExceptionAppendsFailed(b, row, w, reprice);
    } else {
      ExactlyOneAppend(b, row, w, reprice);
    }
  }

  // ---------------------------------------------------------------------------
  // The whole loop

  /** The loop from row `i` on: the final buckets and the number of rows visited. */
  function RunFrom(b: Buckets, rows: seq<Row>, worlds: seq<RowWorld>, reprice: string -> Option<string>, i: nat): (Buckets, nat)
    requires |worlds| == |rows| && i <= |rows|
    decreases |rows| - i
  {
    if i == |rows| then (b, i)
    else
      var o := Step(b, rows[i], worlds[i], reprice);
      if o.stop then (o.buckets, i + 1) else RunFrom(o.buckets, rows, worlds, reprice, i + 1)
  }

  /** The run visits every row unless some row stops it, and it stops right after the first
      row whose recovery fails to log in again. */
  lemma {:induction false} RunVisits(b: Buckets, rows: seq<Row>, worlds: seq<RowWorld>, reprice: string -> Option<string>, i: nat)
    requires |worlds| == |rows| && i <= |rows|
    ensures var n := RunFrom(b, rows, worlds, reprice, i).1;
      && i <= n <= |rows|
      && (forall j :: i <= j < n - 1 ==> !RowStops(rows[j], worlds[j]))
      && (n < |rows| ==> n > i && RowStops(rows[n - 1], worlds[n - 1]))
      && (n == |rows| && n > i ==> RowStops(rows[n - 1], worlds[n - 1]) || forall j :: i <= j < n ==> !RowStops(rows[j], worlds[j]))
    decreases |rows| - i
  {
    if i < |rows| {
      var o := Step(b, rows[i], worlds[i], reprice);
      StepStops(b, rows[i], worlds[i], reprice);
      if !o.stop {
        RunVisits(o.buckets, rows, worlds, reprice, i + 1);
      }
    }
  }

  /** Every visited row adds one or two entries to the lists, and the lists are only ever
      appended to; a row adds two only when it raised. */
  lemma {:induction false} RunTotals(b: Buckets, rows: seq<Row>, worlds: seq<RowWorld>, reprice: string -> Option<string>, i: nat)
    requires |worlds| == |rows| && i <= |rows|
    ensures var (b', n) := RunFrom(b, rows, worlds, reprice, i);
      Extends(b, b') && Total(b) + (n - i) <= Total(b') <= Total(b) + 2 * (n - i)
    ensures (forall j :: i <= j < |rows| ==> !Raises(rows[j], worlds[j])) ==>
      var (b', n) := RunFrom(b, rows, worlds, reprice, i);
      n == |rows| && Total(b') == Total(b) + (n - i)
    decreases |rows| - i
  {
    if i < |rows| {
      var o := Step(b, rows[i], worlds[i], reprice);
      StepStops(b, rows[i], worlds[i], reprice);
      if !o.stop {
        RunTotals(o.buckets, rows, worlds, reprice, i + 1);
      }
    }
  }

  /** A row that passes the loader's filter is looked up: it adds nothing to the
      non-English and the foil lists. */
  lemma KeptRowStep(b: Buckets, row: Row, w: RowWorld, reprice: string -> Option<string>)
    requires Keep(row)
    ensures Classify(row) == Lookup
    ensures Step(b, row, w, reprice).buckets.nonEnglish == b.nonEnglish
    ensures Step(b, row, w, reprice).buckets.foil == b.foil
  {
    if w.backToCatalog {
      ExactlyOneAppend(b, row, w, reprice);
    } else {
      ExceptionAppendsFailed(b, row, w, reprice);
    }
  }

  /** Rows as the loader returns them never reach the non-English or the foil branch. */
  lemma {:induction false} KeptRowsSkipNothing(b: Buckets, rows: seq<Row>, worlds: seq<RowWorld>, reprice: string -> Option<string>, i: nat)
    requires |worlds| == |rows| && i <= |rows|
    requires forall j :: 0 <= j < |rows| ==> Keep(rows[j])
    ensures RunFrom(b, rows, worlds, reprice, i).0.nonEnglish == b.nonEnglish
    ensures RunFrom(b, rows, worlds, reprice, i).0.foil == b.foil
    decreases |rows| - i
  {
    if i < |rows| {
      KeptRowStep(b, rows[i], worlds[i], reprice);
      var o := Step(b, rows[i], worlds[i], reprice);
      if !o.stop {
        KeptRowsSkipNothing(o.buckets, rows, worlds, reprice, i + 1);
      }
    }
  }

  lemma LoadedRunSkipsNothing(read: Option<Sheet>, worlds: seq<RowWorld>, reprice: string -> Option<string>)
    requires LoadCardData(read).Some? && |worlds| == |LoadCardData(read).value|
    ensures RunFrom(NoBuckets, LoadCardData(read).value, worlds, reprice, 0).0.nonEnglish == []
    ensures RunFrom(NoBuckets, LoadCardData(read).value, worlds, reprice, 0).0.foil == []
  {
    KeptRowsSkipNothing(NoBuckets, LoadCardData(read).value, worlds, reprice, 0);
  }

  /** The summary main.py prints: the number of loaded rows, then each list's length. */
  function Summary(total: nat, b: Buckets): CardLogger.Counts {
    CardLogger.Counts(total, |b.successful|, |b.failed|, |b.skipped|, |b.nonEnglish|, |b.foil|)
  }

  // ---------------------------------------------------------------------------
  // The imperative loops

  /** The search loop of `main` for one row: call `search_for_card` until it returns True,
      at most three times. `searchAttempt` counts the failed calls, as in the source. */
  method SearchLoop(w: RowWorld, cardName: string, setName: string) returns (success: bool, calls: nat)
    ensures calls == Calls(SearchResults(w, setName))
    ensures success == SearchResults(w, setName)(calls - 1)
    ensures !success ==> calls == MaxAttempts
  {
    ghost var searched := SearchResults(w, setName);
    var searchAttempt := 0;
    success, calls := false, 0;
    while searchAttempt < MaxAttempts && !success
      invariant searchAttempt <= MaxAttempts && calls <= MaxAttempts
      invariant calls == searchAttempt + (if success then 1 else 0)
      invariant forall j :: 0 <= j < searchAttempt ==> !searched(j)
      invariant success ==> searched(calls - 1) && Calls(searched) == calls
      invariant !success ==> Calls(searched) == CallsFrom(searched, searchAttempt)
      decreases MaxAttempts - calls
    {
      var choice;
      success, choice := SearchForCard(w.searchPages(calls), cardName, setName);
      assert success == searched(calls);
      calls := calls + 1;
      if !success {
        searchAttempt := searchAttempt + 1;
      }
    }
  }

  /** The processing loop of `main` for one row: call `process_card` until it returns True,
      at most three times. */
  method ProcessLoop(w: RowWorld, quantity: string, reprice: string -> Option<string>) returns (success: bool, calls: nat)
    ensures calls == Calls(ProcessResults(w, reprice))
    ensures success == ProcessResults(w, reprice)(calls - 1)
    ensures !success ==> calls == MaxAttempts
  {
    ghost var processed := ProcessResults(w, reprice);
    var processAttempt := 0;
    success, calls := false, 0;
    while processAttempt < MaxAttempts && !success
      invariant processAttempt <= MaxAttempts && calls <= MaxAttempts
      invariant calls == processAttempt + (if success then 1 else 0)
      invariant forall j :: 0 <= j < processAttempt ==> !processed(j)
      invariant success ==> processed(calls - 1) && Calls(processed) == calls
      invariant !success ==> Calls(processed) == CallsFrom(processed, processAttempt)
      decreases MaxAttempts - calls
    {
      var trace;
      success, trace := ProcessCard(w.productPages(calls), quantity, reprice);
      assert success == processed(calls);
      calls := calls + 1;
      if !success {
        processAttempt := processAttempt + 1;
      }
    }
  }

  /** The five lists that the loop of `main` appends to. */
  class RunState {
    var successful: seq<string>
    var failed: seq<string>
    var skipped: seq<string>
    var nonEnglish: seq<string>
    var foil: seq<string>

    function Snapshot(): Buckets
      reads this
    {
      Buckets(successful, failed, skipped, nonEnglish, foil)
    }

    constructor ()
      ensures Snapshot() == NoBuckets
    {
      successful, failed, skipped, nonEnglish, foil := [], [], [], [], [];
    }

    /** The body of the `for` loop for one row, its try-block and its except-block. */
    method ProcessRow(row: Row, w: RowWorld, reprice: string -> Option<string>)
      returns (searchCalls: nat, processCalls: nat, stop: bool)
      modifies this
      ensures var o := Step(old(Snapshot()), row, w, reprice);
        Snapshot() == o.buckets && searchCalls == o.searchCalls && processCalls == o.processCalls && stop == o.stop
    {
      var name := row.productName;
      searchCalls, processCalls, stop := 0, 0, false;
      if row.language != Str("English") {
        nonEnglish := nonEnglish + [NonEnglishEntry(row)];
        return;
      }
      var raised := false;
      if row.foil.NonStr? {
        raised := true;                                   // AttributeError from .strip()
      } else if row.foil.Str? && Strip(row.foil.value) != [] {
        foil := foil + [name];
        return;
      }
      if !raised {
        var searchSuccess;
        searchSuccess, searchCalls := SearchLoop(w, name, row.setName);
        if searchSuccess {
          var processSuccess;
          processSuccess, processCalls := ProcessLoop(w, row.quantity, reprice);
          if processSuccess {
            successful := successful + [name];
          } else {
            failed := failed + [name];
          }
        } else {
          skipped := skipped + [name];
        }
        raised := !w.backToCatalog;                       // TimeoutException returning to the catalog
      }
      if raised {
        failed := failed + [name];
        if !w.recoverNav {
          stop := !w.relogin;                             // restart the browser and log in again
        }
      }
    }

    /** `for index, card in cards_df.iterrows()`, with the `break` when re-login fails. */
    method ProcessRows(rows: seq<Row>, worlds: seq<RowWorld>, reprice: string -> Option<string>)
      returns (visited: nat)
      requires |worlds| == |rows|
      modifies this
      ensures (Snapshot(), visited) == RunFrom(old(Snapshot()), rows, worlds, reprice, 0)
    {
      visited := 0;
      while visited < |rows|
        invariant visited <= |rows|
        invariant RunFrom(old(Snapshot()), rows, worlds, reprice, 0) == RunFrom(Snapshot(), rows, worlds, reprice, visited)
      {
        ghost var before := Snapshot();
        var searchCalls, processCalls, stop := ProcessRow(rows[visited], worlds[visited], reprice);
        visited := visited + 1;
        if stop {
          assert RunFrom(before, rows, worlds, reprice, visited - 1) == (Snapshot(), visited);
          break;
        }
      }
    }
  }

  /** How `main` ends. */
  datatype MainResult = NoCards | LoginFailed | CatalogNotReached | Finished(counts: CardLogger.Counts, visited: nat)

  /** `main` up to the printed summary: load the rows, log in, make sure the catalog is
      open (waiting for it only when the current URL is elsewhere), then run the loop. */
  method RunMain(read: Option<Sheet>, loginOk: bool, currentUrl: string, catalogReady: bool,
                 worlds: seq<RowWorld>, reprice: string -> Option<string>) returns (r: MainResult)
    requires LoadCardData(read).Some? ==> |worlds| == |LoadCardData(read).value|
    ensures LoadCardData(read).None? <==> r == NoCards
    ensures LoadCardData(read).Some? && !loginOk ==> r == LoginFailed
    ensures LoadCardData(read).Some? && loginOk && !Contains(currentUrl, CatalogPath) && !catalogReady ==>
      r == CatalogNotReached
    ensures r.Finished? <==> LoadCardData(read).Some? && loginOk && (Contains(currentUrl, CatalogPath) || catalogReady)
    ensures r.Finished? ==>
      var rows := LoadCardData(read).value;
      var (b, n) := RunFrom(NoBuckets, rows, worlds, reprice, 0);
      r.counts == Summary(|rows|, b) && r.visited == n && r.counts.total == |rows|
  {
    var cards := LoadCardData(read);
    if cards.None? {
      return NoCards;
    }
    if !loginOk {
      return LoginFailed;
    }
    if !Contains(currentUrl, CatalogPath) && !catalogReady {
      return CatalogNotReached;                           // TimeoutException propagates out of main
    }
    var state := new RunState();
    var visited := state.ProcessRows(cards.value, worlds, reprice);
    r := Finished(Summary(|cards.value|, state.Snapshot()), visited);
  }
}
