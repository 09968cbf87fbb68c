/** CardInput.py: searching the product catalog for one card (choosing the set-name option
    in three stages) and submitting the discounted price and quantity. The browser is an
    input: each page is the state the automation finds, and a missing element, a wait that
    times out or a value that cannot be parsed is an exception the function catches and
    turns into `False`. */
module CardInput {
  import opened Wrappers
  import opened Text

  /** The sentinel option of the set-name dropdown. */
  const AllSetNames := "All Set Names"
  /** The product line always chosen in the category dropdown. */
  const ProductLine := "Magic"

  /** The search page as `search_for_card` finds it. */
  datatype SearchPage = SearchPage(
    searchFieldReady: bool,              // the search field becomes clickable within the wait
    productLines: Option<seq<string>>,   // option texts of the category select; None: element missing
    setNames: Option<seq<string>>,       // option texts of the set-name select; None: element missing
    resultsShown: bool)                  // the results marker appears within the wait

  /** `Select.select_by_visible_text(text)`: the first option whose text is `text`;
      None where the select raises NoSuchElementException. */
  function IndexOf(options: seq<string>, text: string): (r: Option<nat>)
    ensures r.Some? ==> r.value < |options| && options[r.value] == text
    ensures r.Some? ==> forall j :: 0 <= j < r.value ==> options[j] != text
    ensures r.None? <==> text !in options
  {
    if options == [] then None
    else if options[0] == text then Some(0)
    else
      match IndexOf(options[1..], text)
      case None => None
      case Some(i) => Some(i + 1)
  }

  /** The partial-match condition of the scan for one option text:
      `set_name.lower() in text.lower() or set_name.split()[0].lower() in text.lower()`.
      Python evaluates the right operand only when the left is false, and None stands for
      the IndexError that `split()[0]` raises on a set name with no token. */
  function PartialTest(setName: string, text: string): Option<bool> {
    if Contains(ToLower(text), ToLower(setName)) then Some(true)
    else
      match FirstToken(setName)
      case None => None
      case Some(token) => Some(Contains(ToLower(text), ToLower(token)))
  }

  /** The partial-match condition, stated directly: the lowercased option text contains the
      lowercased set name or its lowercased first token, and it raises exactly when neither
      holds of the name and the name has no token. */
  lemma PartialTestMeaning(setName: string, text: string)
    ensures PartialTest(setName, text) == Some(true) <==>
      Contains(ToLower(text), ToLower(setName)) ||
      (FirstToken(setName).Some? && Contains(ToLower(text), ToLower(FirstToken(setName).value)))
    ensures PartialTest(setName, text).None? <==>
      !Contains(ToLower(text), ToLower(setName)) && AllSpace(setName)
  {
  }

  /** How the partial scan ends: at an option it selects, after the last option, or at the
      option whose condition raised. */
  datatype Scan = Hit(index: nat) | Miss | SplitError(index: nat)

  /** The scan over `options[k..]`, skipping the sentinel, stopping at the first option whose
      condition is true or raises. */
  function ScanFrom(options: seq<string>, setName: string, k: nat): Scan
    requires k <= |options|
    decreases |options| - k
  {
    if k == |options| then Miss
    else if options[k] == AllSetNames then ScanFrom(options, setName, k + 1)
    else
      match PartialTest(setName, options[k])
      case None => SplitError(k)
      case Some(true) => Hit(k)
      case Some(false) => ScanFrom(options, setName, k + 1)
  }

  /** Every option in `options[k..i]` is the sentinel or fails the condition without raising. */
  predicate PassedOver(options: seq<string>, setName: string, k: int, i: int)
    requires 0 <= k <= i <= |options|
  {
    forall j :: k <= j < i ==> options[j] == AllSetNames || PartialTest(setName, options[j]) == Some(false)
  }

  lemma {:induction false} ScanFromSpec(options: seq<string>, setName: string, k: nat)
    requires k <= |options|
    ensures match ScanFrom(options, setName, k)
      case Hit(i) =>
        k <= i < |options| && options[i] != AllSetNames && PartialTest(setName, options[i]) == Some(true)
        && PassedOver(options, setName, k, i)
      case SplitError(i) =>
        k <= i < |options| && options[i] != AllSetNames && PartialTest(setName, options[i]).None?
        && PassedOver(options, setName, k, i)
      case Miss =>
        PassedOver(options, setName, k, |options|)
    decreases |options| - k
  {
    if k < |options| {
      ScanFromSpec(options, setName, k + 1);
    }
  }

  /** The loop `for option in options` of `search_for_card`: `continue` on the sentinel,
      `break` on the first partial match; an IndexError ends it too. */
  method PartialScan(options: seq<string>, setName: string) returns (s: Scan)
    ensures s == ScanFrom(options, setName, 0)
  {
    var i := 0;
    s := Miss;
    while i < |options|
      invariant 0 <= i <= |options|
      invariant ScanFrom(options, setName, 0) == ScanFrom(options, setName, i)
    {
      if options[i] == AllSetNames {
        i := i + 1;
        continue;
      }
      var test := PartialTest(setName, options[i]);
      if test.None? {
        s := SplitError(i);
        return;
      }
      if test.value {
        s := Hit(i);
        break;
      }
      i := i + 1;
    }
  }

  /** Which option of the set-name select ends up selected, and by which stage. */
  datatype SetChoice = ExactMatch(index: nat) | PartialMatch(index: nat) | AllSets(index: nat)

  /** The three stages as a whole: a choice, or the exception that ends the search
      (IndexError in the scan, or no sentinel option to fall back to). */
  datatype Resolution = Chosen(choice: SetChoice) | SplitFailed | NoSentinel

  function ResolveSet(options: seq<string>, setName: string): Resolution {
    match IndexOf(options, setName)
    case Some(i) => Chosen(ExactMatch(i))
    case None =>
      match ScanFrom(options, setName, 0)
      case Hit(i) => Chosen(PartialMatch(i))
      case SplitError(_) => SplitFailed
      case Miss =>
        match IndexOf(options, AllSetNames)
        case Some(j) => Chosen(AllSets(j))
        case None => NoSentinel
  }

  /** An option whose text equals the set name is selected, the first such one, and the
      partial scan does not run. */
  lemma ExactMatchWins(options: seq<string>, setName: string)
    requires setName in options
    ensures ResolveSet(options, setName).Chosen?
    ensures var c := ResolveSet(options, setName).choice;
      c.ExactMatch? && options[c.index] == setName && forall j :: 0 <= j < c.index ==> options[j] != setName
  {
  }

  /** A partial match is never the sentinel, satisfies the condition, and is the first option
      that does: every earlier non-sentinel option fails both tests. */
  lemma PartialMatchIsFirstHit(options: seq<string>, setName: string, i: nat)
    requires ResolveSet(options, setName) == Chosen(PartialMatch(i))
    ensures i < |options| && setName !in options
    ensures options[i] != AllSetNames
    ensures Contains(ToLower(options[i]), ToLower(setName)) ||
      (FirstToken(setName).Some? && Contains(ToLower(options[i]), ToLower(FirstToken(setName).value)))
    ensures forall j :: 0 <= j < i && options[j] != AllSetNames ==>
      !Contains(ToLower(options[j]), ToLower(setName)) &&
      FirstToken(setName).Some? && !Contains(ToLower(options[j]), ToLower(FirstToken(setName).value))
  {
    ScanFromSpec(options, setName, 0);
    PartialTestMeaning(setName, options[i]);
    forall j | 0 <= j < i && options[j] != AllSetNames
      ensures !Contains(ToLower(options[j]), ToLower(setName))
      ensures FirstToken(setName).Some? && !Contains(ToLower(options[j]), ToLower(FirstToken(setName).value))
    {
      assert PartialTest(setName, options[j]) == Some(false);
    }
  }

  /** Selecting the partially matched option by its text (as the source does) lands on that
      same option: no earlier option carries the same text. */
  lemma PartialSelectionByText(options: seq<string>, setName: string, i: nat)
    requires ScanFrom(options, setName, 0) == Hit(i)
    ensures i < |options| && IndexOf(options, options[i]) == Some(i)
  {
    ScanFromSpec(options, setName, 0);
  }

  /** With no exact and no partial match the sentinel is selected (when the dropdown has it);
      conversely the sentinel is chosen only in that case. */
  lemma FallbackToAllSets(options: seq<string>, setName: string)
    ensures (exists j :: ResolveSet(options, setName) == Chosen(AllSets(j))) <==>
      setName !in options && AllSetNames in options && PassedOver(options, setName, 0, |options|)
    ensures ResolveSet(options, setName).Chosen? && ResolveSet(options, setName).choice.AllSets? ==>
      options[ResolveSet(options, setName).choice.index] == AllSetNames
  {
    ScanFromSpec(options, setName, 0);
  }

  /** The scan raises exactly when it reaches, before any match, a non-sentinel option that
      does not contain the set name while the set name is blank (`split()` is empty). */
  lemma SplitFailsOnlyOnBlankName(options: seq<string>, setName: string)
    requires ResolveSet(options, setName) == SplitFailed
    ensures setName !in options && AllSpace(setName)
    ensures exists i :: (0 <= i < |options| && options[i] != AllSetNames &&
      !Contains(ToLower(options[i]), ToLower(setName)) && PassedOver(options, setName, 0, i))
  {
    ScanFromSpec(options, setName, 0);
    var i := ScanFrom(options, setName, 0).index;
    PartialTestMeaning(setName, options[i]);
  }

  /** An empty set name is contained in every text, so without an option whose text is
      empty the first non-sentinel option is taken. */
  lemma EmptySetNameTakesFirstOption(options: seq<string>, i: nat)
    requires "" !in options
    requires i < |options| && options[i] != AllSetNames
    requires forall j :: 0 <= j < i ==> options[j] == AllSetNames
    ensures ResolveSet(options, "") == Chosen(PartialMatch(i))
  {
    ScanFromSpec(options, "", 0);
    ContainsEmpty(ToLower(options[i]));
    assert PartialTest("", options[i]) == Some(true);
  }

  /** A blank set name that is not itself contained in an option reaches `split()[0]`,
      which raises: the search fails. */
  lemma BlankSetNameFails()
    ensures ResolveSet(["Kamigawa", "All Set Names"], " ") == SplitFailed
  {
    var o := ["Kamigawa", "All Set Names"];
    assert ToLower(o[0]) == "kamigawa";
    assert ToLower(" ") == " ";
    ContainsChar("kamigawa", ' ');
    assert FirstToken(" ") == None;
  }

  /** The worked example: the option containing "neon dynasty" comes first and wins over
      the later, shorter "Kamigawa". */
  lemma NeonDynastyExample()
    ensures ResolveSet(["Kamigawa: Neon Dynasty", "All Set Names", "Kamigawa"], "Neon Dynasty")
      == Chosen(PartialMatch(0))
  {
    var o := ["Kamigawa: Neon Dynasty", "All Set Names", "Kamigawa"];
    var lower := ToLower(o[0]);
    assert lower == "kamigawa: neon dynasty";
    assert ToLower("Neon Dynasty") == "neon dynasty";
    assert OccursAt(lower, "neon dynasty", 10);
    ContainsIffOccurs(lower, "neon dynasty");
  }

  /** `search_for_card`'s outcome, as a specification: every step before the set-name stage
      succeeds, the three stages resolve to a choice, and the results marker appears. */
  predicate ReachesSetStage(page: SearchPage) {
    page.searchFieldReady && page.productLines.Some? && ProductLine in page.productLines.value
    && page.setNames.Some?
  }

  predicate SearchSucceeds(page: SearchPage, setName: string) {
    ReachesSetStage(page) && ResolveSet(page.setNames.value, setName).Chosen? && page.resultsShown
  }

  /** `search_for_card`: True exactly when the search reaches the results marker; any
      exception on the way yields False. `choice` is the set-name option left selected
      (None when the search stopped before one was selected). */
  method SearchForCard(page: SearchPage, cardName: string, setName: string)
    returns (result: bool, choice: Option<SetChoice>)
    ensures result == SearchSucceeds(page, setName)
    ensures choice.Some? <==> ReachesSetStage(page) && ResolveSet(page.setNames.value, setName).Chosen?
    ensures choice.Some? ==> choice.value == ResolveSet(page.setNames.value, setName).choice
  {
    choice := None;
    if !page.searchFieldReady {
      return false, choice;              // TimeoutException waiting for the search field
    }
    if page.productLines.None? || IndexOf(page.productLines.value, ProductLine).None? {
      return false, choice;              // NoSuchElementException in the category select
    }
    if page.setNames.None? {
      return false, choice;              // the set-name select is missing
    }
    var options := page.setNames.value;
    var found := false;

    // First stage: exact text
    var exact := IndexOf(options, setName);
    if exact.Some? {
      choice := Some(ExactMatch(exact.value));
      found := true;
    }

    // Second stage: first partial match
    if !found {
      var scan := PartialScan(options, setName);
      ScanFromSpec(options, setName, 0);
      if scan.SplitError? {
        return false, choice;            // IndexError from split()[0]
      }
      if scan.Hit? {
        var byText := IndexOf(options, options[scan.index]);
        PartialSelectionByText(options, setName, scan.index);
        choice := Some(PartialMatch(byText.value));
        found := true;
      }
    }

    // Third stage: the sentinel
    if !found {
      var all := IndexOf(options, AllSetNames);
      if all.None? {
        return false, choice;            // NoSuchElementException: no sentinel option
      }
      choice := Some(AllSets(all.value));
    }

    result := page.resultsShown;         // TimeoutException waiting for results -> False
  }

  // ---------------------------------------------------------------------------
  // process_card

  /** The product page as `process_card` finds it. */
  datatype ProductPage = ProductPage(
    priceText: Option<string>,   // text of the lowest-price element; None: it never appears
    priceInput: bool,            // the new-price input exists
    quantityInput: bool,         // the quantity input exists
    saveButton: bool)            // the Save button exists

  /** What `process_card` typed into the form, and whether it pressed Save. */
  datatype ProcessTrace = ProcessTrace(priceTyped: Option<string>, quantityTyped: Option<string>, saved: bool)

  /** The price text as `float()` receives it: `text.replace('$', '').strip()`. */
  function CleanPrice(text: string): (r: string)
    ensures '$' !in r
    ensures r == [] || (!IsSpace(r[0]) && !IsSpace(r[|r| - 1]))
    ensures r == [] <==> forall i :: 0 <= i < |text| ==> text[i] == '$' || IsSpace(text[i])
    ensures var d := RemoveChar(text, '$');
      exists i :: OccursAt(d, r, i) && AllSpace(d[..i]) && AllSpace(d[i + |r|..])
  {
    var d := RemoveChar(text, '$');
    RemoveCharAllSpace(text, '$');
    Strip(d)
  }

  predicate ProcessSucceeds(page: ProductPage, reprice: string -> Option<string>) {
    page.priceText.Some? && reprice(CleanPrice(page.priceText.value)).Some?
    && page.priceInput && page.quantityInput && page.saveButton
  }

  /** `process_card`: `reprice` stands for `str(round(float(p) * 0.9, 2))` on the cleaned
      price text (None where `float` raises); `quantity` is `str(card_data['Quantity'])`.
      The result is True exactly when Save was pressed, which happens only after the new
      price and the row's quantity were typed; every failure yields False. */
  method ProcessCard(page: ProductPage, quantity: string, reprice: string -> Option<string>)
    returns (ok: bool, trace: ProcessTrace)
    ensures ok == ProcessSucceeds(page, reprice)
    ensures ok <==> trace.saved
    ensures trace.saved ==>
      trace.priceTyped == reprice(CleanPrice(page.priceText.value)) && trace.quantityTyped == Some(quantity)
    ensures trace.quantityTyped.Some? ==> trace.priceTyped.Some?
  {
    trace := ProcessTrace(None, None, false);
    if page.priceText.None? {
      return false, trace;
    }
    var newPrice := reprice(CleanPrice(page.priceText.value));
    if newPrice.None? {
      return false, trace;
    }
    if !page.priceInput {
      return false, trace;
    }
    trace := trace.(priceTyped := newPrice);
    if !page.quantityInput {
      return false, trace;
    }
    trace := trace.(quantityTyped := Some(quantity));
    if !page.saveButton {
      return false, trace;
    }
    trace := trace.(saved := true);
    ok := true;
  }
}
