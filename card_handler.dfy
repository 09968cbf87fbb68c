/** Cardhandler.py: loading the inventory sheet and keeping the rows the run can process
    (English, non-foil). The spreadsheet read itself is an input: `read` is what
    `pd.read_excel` produced, or None when it raised. */
module CardHandler {
  import opened Wrappers
  import opened Text

  /** A spreadsheet cell as pandas hands it over: an empty cell (NaN), a string, or any
      other value (a number, a date), kept with the text `str()` gives for it. */
  datatype Cell = NaN | Str(value: string) | NonStr(shown: string)

  /** One inventory row, under the nine column names the loader assigns. `quantity` and
      `marketPrice` are kept as the text `str()` renders for the cell. */
  datatype Row = Row(
    productLine: string,
    setName: string,
    productName: string,
    number: string,
    rarity: string,
    quantity: string,
    marketPrice: string,
    foil: Cell,
    language: Cell)

  /** What `pd.read_excel(file_path, header=None)` returned: the number of columns of the
      frame and its rows read under the loader's column names. */
  datatype Sheet = Sheet(columns: nat, rows: seq<Row>)

  const ColumnNames: seq<string> :=
    ["Product Line", "Set Name", "Product Name", "Number", "Rarity",
     "Quantity", "TCG Marketplace Price", "Foil", "Language"]

  /** The boolean mask `(df['Language'] == 'English') & (df['Foil'].isna())`. */
  predicate Keep(r: Row) {
    r.language == Str("English") && r.foil == NaN
  }

  /** `df[mask]`: the rows that pass the mask, in their original order. Every returned row
      passes, every passing row is returned as often as it occurs, and no row is reordered. */
  function Filter(rows: seq<Row>): (r: seq<Row>)
    ensures forall i :: 0 <= i < |r| ==> Keep(r[i])
    ensures forall x :: multiset(r)[x] == if Keep(x) then multiset(rows)[x] else 0
    ensures IsSubsequence(r, rows)
  {
    if rows == [] then []
    else
      assert rows == [rows[0]] + rows[1..];
      var rest := Filter(rows[1..]);
      if Keep(rows[0]) then
        assert ([rows[0]] + rest)[1..] == rest;
        [rows[0]] + rest
      else rest
  }

  lemma FilterKeepsEveryPassingRow(rows: seq<Row>, i: int)
    requires 0 <= i < |rows| && Keep(rows[i])
    ensures rows[i] in Filter(rows)
  {
    assert rows[i] in multiset(rows);
  }

  lemma FilterNoLonger(rows: seq<Row>)
    ensures |Filter(rows)| <= |rows|
  {
    SubsequenceLength(Filter(rows), rows);
  }

  /** `load_card_data`: None when the read fails, when the sheet does not have exactly the
      nine columns being assigned (pandas raises on the length mismatch), or when no row
      survives the filter; otherwise the filtered rows. */
  function LoadCardData(read: Option<Sheet>): (r: Option<seq<Row>>)
    ensures r.Some? <==>
      read.Some? && read.value.columns == |ColumnNames| && exists i :: 0 <= i < |read.value.rows| && Keep(read.value.rows[i])
    ensures r.Some? ==> r.value != [] && r.value == Filter(read.value.rows)
  {
    match read
    case None => None
    case Some(sheet) =>
      if sheet.columns != |ColumnNames| then None
      else
        var rows := Filter(sheet.rows);
        if rows == [] then
          forall i | 0 <= i < |sheet.rows| && Keep(sheet.rows[i])
            ensures false
          {
            FilterKeepsEveryPassingRow(sheet.rows, i);
          }
          None
        else
          assert Keep(rows[0]) && rows[0] in multiset(sheet.rows);
          Some(rows)
  }

  /** Every row the loader hands to the run is English and has no Foil value. */
  lemma LoadedRowsAreEnglishNonFoil(read: Option<Sheet>)
    requires LoadCardData(read).Some?
    ensures forall i :: 0 <= i < |LoadCardData(read).value| ==>
      LoadCardData(read).value[i].language == Str("English") && LoadCardData(read).value[i].foil == NaN
  {
  }
}
