/**
 * Specifications of the live scraper: two-cell rows of the specification tables, then
 * `key: value` and `key - value` pairs found in the description text.
 */
module LiveSpecs {
  import opened Values
  import opened Strings
  import opened Sequences
  import opened Document

  const SpecTableSelector: Selector := ".product-specs table, .specifications table, .product-props table"
  const RowSelector: Selector := "tr"
  const CellSelector: Selector := "td, th"
  const DescriptionSelector: Selector := ".product-description, .item-description"
  const DescriptionPatterns: seq<Pattern> := ["([A-Za-z\\s]+):\\s*([^\\n\\r]+)", "([A-Za-z\\s]+)\\s*-\\s*([^\\n\\r]+)"]

  /** Only this many pairs of each pattern are read. */
  const MaxPairs: nat := 10
  const MaxKeyLength: nat := 50
  const MaxValueLength: nat := 200

  /** What one row contributes: its first two cells' stripped texts, when it has two cells and both are non-empty. */
  function RowEntryOf(cells: seq<Node>): Mapping
  {
    if |cells| >= 2 && StrippedText(cells[0]) != [] && StrippedText(cells[1]) != [] then
      map[StrippedText(cells[0]) := Str(StrippedText(cells[1]))]
    else map[]
  }

  function RowEntryFn(eng: Engine): Node -> Mapping
  {
    row => RowEntryOf(Select(eng, row, CellSelector))
  }

  function TableSpecs(eng: Engine, table: Node): Mapping
  {
    MergeAll(Select(eng, table, RowSelector), RowEntryFn(eng))
  }

  function TableSpecsFn(eng: Engine): Node -> Mapping
  {
    table => TableSpecs(eng, table)
  }

  /** A table entry has a non-empty name and a non-empty text value. */
  predicate TableEntry(key: string, v: Value)
  {
    key != [] && v.Str? && v.s != []
  }

  /** A row yields its first cell's text as key exactly when it has two cells whose texts are non-empty. */
  lemma RowEntrySpec(cells: seq<Node>)
    ensures RowEntryOf(cells) != map[] <==>
      |cells| >= 2 && StrippedText(cells[0]) != [] && StrippedText(cells[1]) != []
    ensures forall key :: key in RowEntryOf(cells) ==>
      key == StrippedText(cells[0]) && RowEntryOf(cells)[key] == Str(StrippedText(cells[1])) &&
      TableEntry(key, RowEntryOf(cells)[key])
  {
    if |cells| >= 2 && StrippedText(cells[0]) != [] && StrippedText(cells[1]) != [] {
      assert StrippedText(cells[0]) in RowEntryOf(cells);
    }
  }

  /** The inner loop: the rows of one table, each entry written into `specs`. */
  method AddRows(eng: Engine, specs: Mapping, rows: seq<Node>) returns (specs': Mapping)
    ensures specs' == specs + MergeAll(rows, RowEntryFn(eng))
  {
    specs' := specs;
    var r := 0;
    while r < |rows|
      invariant 0 <= r <= |rows|
      invariant specs' == specs + MergeAll(rows[..r], RowEntryFn(eng))
    {
      MergeStep(rows, r, RowEntryFn(eng));
      var entry := RowEntryOf(Select(eng, rows[r], CellSelector));
      UpdateAssoc(specs, MergeAll(rows[..r], RowEntryFn(eng)), entry);
      specs' := specs' + entry;
      r := r + 1;
    }
    assert rows[..|rows|] == rows;
  }

  /** The outer loop over the specification tables; a later row's key replaces an earlier one's. */
  method CollectTableSpecs(eng: Engine, tables: seq<Node>) returns (specs: Mapping)
    ensures specs == MergeAll(tables, TableSpecsFn(eng))
  {
    specs := map[];
    var t := 0;
    while t < |tables|
      invariant 0 <= t <= |tables|
      invariant specs == MergeAll(tables[..t], TableSpecsFn(eng))
    {
      MergeStep(tables, t, TableSpecsFn(eng));
      specs := AddRows(eng, specs, Select(eng, tables[t], RowSelector));
      t := t + 1;
    }
    assert tables[..|tables|] == tables;
  }

  /** Every entry the tables yield has a non-empty name and a non-empty text. */
  lemma TableSpecsEntries(eng: Engine, tables: seq<Node>)
    ensures forall key :: key in MergeAll(tables, TableSpecsFn(eng)) ==>
      TableEntry(key, MergeAll(tables, TableSpecsFn(eng))[key])
  {
    forall j | 0 <= j < |tables|
      ensures forall key :: key in TableSpecsFn(eng)(tables[j]) ==> TableEntry(key, TableSpecsFn(eng)(tables[j])[key])
    {
      var rows := Select(eng, tables[j], RowSelector);
      forall k | 0 <= k < |rows|
        ensures forall key :: key in RowEntryFn(eng)(rows[k]) ==> TableEntry(key, RowEntryFn(eng)(rows[k])[key])
      {
        RowEntrySpec(Select(eng, rows[k], CellSelector));
      }
      MergeEntries(rows, RowEntryFn(eng), TableEntry);
    }
    MergeEntries(tables, TableSpecsFn(eng), TableEntry);
  }

  // ---------------------------------------------------------------------------------------------
  // Description pairs

  /** One `(key, value)` pair found in the description: both stripped, kept when both are short enough. */
  function PairEntryOf(pair: (string, string)): Mapping
  {
    var key := Strip(pair.0);
    var value := Strip(pair.1);
    if |key| < MaxKeyLength && |value| < MaxValueLength then map[key := Str(value)] else map[]
  }

  /** A description entry: a name and a text both within their length limits (the name may be empty). */
  predicate DescriptionEntry(key: string, v: Value)
  {
    |key| < MaxKeyLength && v.Str? && |v.s| < MaxValueLength
  }

  function PatternSpecs(eng: Engine, text: string, pattern: Pattern): Mapping
  {
    MergeAll(Take(eng.findPairs(pattern, text), MaxPairs), PairEntryOf)
  }

  function PatternSpecsFn(eng: Engine, text: string): Pattern -> Mapping
  {
    pattern => PatternSpecs(eng, text, pattern)
  }

  function DescriptionSpecs(eng: Engine, text: string): Mapping
  {
    MergeAll(DescriptionPatterns, PatternSpecsFn(eng, text))
  }

  /** The loop over the first pairs of one pattern. */
  method CollectPairs(eng: Engine, text: string, pattern: Pattern) returns (specs: Mapping)
    ensures specs == PatternSpecs(eng, text, pattern)
  {
    var pairs := Take(eng.findPairs(pattern, text), MaxPairs);
    specs := MergeEach(pairs, PairEntryOf);
  }

  /** Every description entry respects the length limits, whatever the text and the regular-expression engine. */
  lemma DescriptionEntries(eng: Engine, text: string)
    ensures forall key :: key in DescriptionSpecs(eng, text) ==> DescriptionEntry(key, DescriptionSpecs(eng, text)[key])
  {
    forall j | 0 <= j < |DescriptionPatterns|
      ensures forall key :: key in PatternSpecsFn(eng, text)(DescriptionPatterns[j]) ==>
        DescriptionEntry(key, PatternSpecsFn(eng, text)(DescriptionPatterns[j])[key])
    {
      var pairs := Take(eng.findPairs(DescriptionPatterns[j], text), MaxPairs);
      MergeEntries(pairs, PairEntryOf, DescriptionEntry);
    }
    MergeEntries(DescriptionPatterns, PatternSpecsFn(eng, text), DescriptionEntry);
  }

  // ---------------------------------------------------------------------------------------------
  // Assembly

  /** `specifications`: the table entries, then the description entries, which replace equal keys. */
  function SpecsOf(tables: Mapping, description: Option<Mapping>): Mapping
  {
    if description.Some? then tables + description.value else tables
  }

  function Specifications(eng: Engine, soup: Node): Mapping
  {
    var desc := SelectOne(eng, soup, DescriptionSelector);
    SpecsOf(MergeAll(Select(eng, soup, SpecTableSelector), TableSpecsFn(eng)),
            if desc.Some? then Some(DescriptionSpecs(eng, TextOf(desc.value))) else None)
  }

  method ExtractSpecifications(eng: Engine, soup: Node) returns (specs: Mapping)
    ensures specs == Specifications(eng, soup)
  {
    specs := CollectTableSpecs(eng, Select(eng, soup, SpecTableSelector));
    var desc := SelectOne(eng, soup, DescriptionSelector);
    if desc.Some? {
      var text := TextOf(desc.value);
      var fromDescription := MergeEach(DescriptionPatterns, PatternSpecsFn(eng, text));
      specs := specs + fromDescription;
    }
  }

  /**
   * Every entry is either a table entry or a description entry, and a name the description
   * yields takes the description's value.
   */
  lemma SpecsEntries(tables: Mapping, description: Option<Mapping>)
    requires forall key :: key in tables ==> TableEntry(key, tables[key])
    requires description.Some? ==> forall key :: key in description.value ==> DescriptionEntry(key, description.value[key])
    ensures forall key :: key in SpecsOf(tables, description) ==>
      TableEntry(key, SpecsOf(tables, description)[key]) || DescriptionEntry(key, SpecsOf(tables, description)[key])
    ensures description.Some? ==> forall key :: key in description.value ==>
      key in SpecsOf(tables, description) && SpecsOf(tables, description)[key] == description.value[key]
  {
  }
}
