/** The two table extractors of the card client: label/value pairing and
    the three-row monthly statistics zip. */
module Utils {
  import opened Wrappers
  import opened Text
  import opened Soup
  import opened Models

  /** The label of pair k in a flattened label/value cell list. */
  function Label(cells: seq<string>, k: nat): string
    requires 2 * k + 1 < |cells|
  {
    cells[2 * k]
  }

  /** The value of pair k in a flattened label/value cell list. */
  function Value(cells: seq<string>, k: nat): string
    requires 2 * k + 1 < |cells|
  {
    cells[2 * k + 1]
  }

  /** The dictionary holding the first n pairs: pairs are entered left to
      right, so a later pair whose label slugifies to the same key wins. */
  function PairDict(cells: seq<string>, slug: Slugify, n: nat): map<string, string>
    requires 2 * n <= |cells|
  {
    if n == 0 then map[]
    else PairDict(cells, slug, n - 1)[slug(Label(cells, n - 1)) := Strip(Value(cells, n - 1))]
  }

  /** bs_table_to_dict as a value: the cells of the first two rows flattened
      and read as pairs; IndexError when there are fewer than two rows or the
      cell count is odd. */
  function TableToDict(table: Table, slug: Slugify): Result<map<string, string>>
  {
    if |table| < 2 then Raise(ShortTable)
    else
      var cells := table[0] + table[1];
      if |cells| % 2 != 0 then Raise(ShortTable)
      else Ok(PairDict(cells, slug, |cells| / 2))
  }

  /** bs_table_to_dict: fills the dictionary pair by pair. */
  method BsTableToDict(table: Table, slug: Slugify) returns (r: Result<map<string, string>>)
    ensures r == TableToDict(table, slug)
  {
    if |table| < 2 {
      return Raise(ShortTable);
    }
    var cells := table[0] + table[1];
    var data := map[];
    var i := 0;
    ghost var pairs := 0;
    while i < |cells|
      invariant 0 <= i <= |cells| && i == 2 * pairs
      invariant data == PairDict(cells, slug, pairs)
    {
      if i + 1 >= |cells| {
        Parity(pairs);
        return Raise(ShortTable);
      }
      data := data[slug(cells[i]) := Strip(cells[i + 1])];
      i := i + 2;
      pairs := pairs + 1;
    }
    Parity(pairs);
    return Ok(data);
  }

  lemma Parity(p: nat)
    ensures (2 * p) % 2 == 0 && (2 * p) / 2 == p && (2 * p + 1) % 2 == 1
  {
  }

  /** A key is present exactly when one of the pairs' labels slugifies to it. */
  lemma {:induction false} PairDictKeys(cells: seq<string>, slug: Slugify, n: nat, key: string)
    requires 2 * n <= |cells|
    ensures key in PairDict(cells, slug, n) <==> exists k :: 0 <= k < n && slug(Label(cells, k)) == key
  {
    if n > 0 {
      var d := PairDict(cells, slug, n - 1);
      var last := slug(Label(cells, n - 1));
      assert PairDict(cells, slug, n).Keys == d.Keys + {last};
      PairDictKeys(cells, slug, n - 1, key);
      if key == last {
        assert 0 <= n - 1 < n && slug(Label(cells, n - 1)) == key;
      } else if key in d {
        var k :| 0 <= k < n - 1 && slug(Label(cells, k)) == key;
        assert 0 <= k < n && slug(Label(cells, k)) == key;
      } else {
        forall k | 0 <= k < n
          ensures slug(Label(cells, k)) != key
        {
        }
      }
    }
  }

  /** A pair that no later pair overrides gives its stripped value to its key. */
  lemma {:induction false} PairDictLastWins(cells: seq<string>, slug: Slugify, n: nat, k: nat)
    requires 2 * n <= |cells| && k < n
    requires forall j :: k < j < n ==> slug(Label(cells, j)) != slug(Label(cells, k))
    ensures slug(Label(cells, k)) in PairDict(cells, slug, n)
    ensures PairDict(cells, slug, n)[slug(Label(cells, k))] == Strip(Value(cells, k))
  {
    if k < n - 1 {
      assert slug(Label(cells, n - 1)) != slug(Label(cells, k));
      PairDictLastWins(cells, slug, n - 1, k);
    }
  }

  /** The dictionary has at most one key per pair. */
  lemma {:induction false} PairDictSize(cells: seq<string>, slug: Slugify, n: nat)
    requires 2 * n <= |cells|
    ensures |PairDict(cells, slug, n)| <= n
  {
    if n > 0 {
      PairDictSize(cells, slug, n - 1);
      var d := PairDict(cells, slug, n - 1);
      assert PairDict(cells, slug, n).Keys == d.Keys + {slug(Label(cells, n - 1))};
    }
  }

  /** bs_table_to_dict fails exactly on a table with fewer than two rows or
      an odd number of cells in them, reads nothing past the second row, and
      returns at most one key per label/value pair. */
  lemma TableToDictOutcome(table: Table, slug: Slugify)
    ensures TableToDict(table, slug).Raise? <==> |table| < 2 || (|table[0]| + |table[1]|) % 2 == 1
    ensures |table| >= 2 ==> TableToDict(table, slug) == TableToDict(table[..2], slug)
    ensures TableToDict(table, slug).Ok? ==> |TableToDict(table, slug).value| <= (|table[0]| + |table[1]|) / 2
  {
    if |table| >= 2 && (|table[0]| + |table[1]|) % 2 == 0 {
      var cells := table[0] + table[1];
      PairDictSize(cells, slug, |cells| / 2);
    }
  }

  /** zip(xs, ys, zs): triples up to the shortest of the three. */
  function Zip3<T>(xs: seq<T>, ys: seq<T>, zs: seq<T>): seq<(T, T, T)>
  {
    if xs == [] || ys == [] || zs == [] then []
    else [(xs[0], ys[0], zs[0])] + Zip3(xs[1..], ys[1..], zs[1..])
  }

  /** row[1:]: the row without its first cell (empty for an empty row). */
  function Rest(row: seq<string>): (r: seq<string>)
    ensures |r| == if row == [] then 0 else |row| - 1
    ensures forall k :: 0 <= k < |r| ==> r[k] == row[k + 1]
  {
    if row == [] then [] else row[1..]
  }

  function Min3(a: nat, b: nat, c: nat): nat {
    if a <= b && a <= c then a else if b <= c then b else c
  }

  lemma {:induction false} Zip3Shape<T>(xs: seq<T>, ys: seq<T>, zs: seq<T>)
    ensures |Zip3(xs, ys, zs)| == Min3(|xs|, |ys|, |zs|)
    ensures forall k :: 0 <= k < |Zip3(xs, ys, zs)| ==> Zip3(xs, ys, zs)[k] == (xs[k], ys[k], zs[k])
  {
    if xs != [] && ys != [] && zs != [] {
      Zip3Shape(xs[1..], ys[1..], zs[1..]);
    }
  }

  /** Every cell of a row, stripped. */
  function StripRow(row: seq<string>): (r: seq<string>)
    ensures |r| == |row| && forall i :: 0 <= i < |row| ==> r[i] == Strip(row[i])
  {
    if row == [] then [] else [Strip(row[0])] + StripRow(row[1..])
  }

  /** One record per zipped column: dict(zip(['month', 'amount', 'count'], values)). */
  function StatRecords(columns: seq<(string, string, string)>): (r: seq<CardStat>)
    ensures |r| == |columns|
    ensures forall k :: 0 <= k < |r| ==> r[k] == CardStat(columns[k].0, columns[k].1, columns[k].2)
  {
    if columns == [] then [] else [CardStat(columns[0].0, columns[0].1, columns[0].2)] + StatRecords(columns[1..])
  }

  /** The statistics table after its title row: rows 1, 2 and 3 zipped
      column-wise with each row's first cell skipped; IndexError when any
      of the three rows is missing. */
  function StatsFromTable(table: Table): (r: Result<seq<CardStat>>)
    ensures r.Raise? <==> |table| < 4
    ensures r.Raise? ==> r.fault == ShortTable
    ensures r.Ok? ==>
      && |r.value| == Min3(Tail(|table[1]|), Tail(|table[2]|), Tail(|table[3]|))
      && forall k :: 0 <= k < |r.value| ==>
           r.value[k] == CardStat(Strip(table[1][k + 1]), Strip(table[2][k + 1]), Strip(table[3][k + 1]))
  {
    if |table| < 4 then Raise(ShortTable)
    else
      var rows := table[1..];
      var a, b, c := Rest(StripRow(rows[0])), Rest(StripRow(rows[1])), Rest(StripRow(rows[2]));
      Zip3Shape(a, b, c);
      Ok(StatRecords(Zip3(a, b, c)))
  }

  /** table_to_data: None when the anchor is not on the page. */
  function TableToData(page: Page, anchor: string): Result<Option<seq<CardStat>>>
  {
    match page.Find(anchor)
    case None => Ok(None)
    case Some(table) =>
      var stats :- StatsFromTable(table);
      Ok(Some(stats))
  }

  /** Length of a row once its first cell is skipped ([1:] of an empty row is empty). */
  function Tail(n: nat): nat {
    if n == 0 then 0 else n - 1
  }

  /** What table_to_data returns, by cases: None without the anchor, an
      IndexError with fewer than three rows after the title, and otherwise
      one record per column of the shortest row, record k made of cell k+1
      of rows 1, 2 and 3, stripped. Rows after the third never matter. */
  lemma TableToDataSpec(page: Page, anchor: string)
    ensures anchor !in page.tables ==> TableToData(page, anchor) == Ok(None)
    ensures anchor in page.tables && |page.tables[anchor]| < 4 ==> TableToData(page, anchor) == Raise(ShortTable)
    ensures anchor in page.tables && |page.tables[anchor]| >= 4 ==>
      var t := page.tables[anchor];
      var r := TableToData(page, anchor);
      && r.Ok? && r.value.Some?
      && |r.value.value| == Min3(Tail(|t[1]|), Tail(|t[2]|), Tail(|t[3]|))
      && (forall k :: 0 <= k < |r.value.value| ==>
            r.value.value[k] == CardStat(Strip(t[1][k + 1]), Strip(t[2][k + 1]), Strip(t[3][k + 1])))
      && r == TableToData(Page(page.ksiInput, page.tables[anchor := t[..4]]), anchor)
  {
    if anchor in page.tables && |page.tables[anchor]| >= 4 {
      var t := page.tables[anchor];
      assert t[..4][1..] == t[1..4];
    }
  }
}
