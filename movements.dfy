/** The transaction-history extractor of get_movements: header row 1,
    data from row 2 on, the leading column dropped, one CardMovement per row. */
module Movements {
  import opened Wrappers
  import opened Text
  import opened Soup
  import opened Models
  import Utils

  /** Every cell stripped, row by row. */
  function StripTable(t: Table): (r: Table)
    ensures |r| == |t| && forall i :: 0 <= i < |t| ==> r[i] == Utils.StripRow(t[i])
  {
    if t == [] then [] else [Utils.StripRow(t[0])] + StripTable(t[1..])
  }

  /** slugify applied to each header cell. */
  function SlugAll(xs: seq<string>, slug: Slugify): (r: seq<string>)
    ensures |r| == |xs| && forall i :: 0 <= i < |xs| ==> r[i] == slug(xs[i])
  {
    if xs == [] then [] else [slug(xs[0])] + SlugAll(xs[1..], slug)
  }

  /** The column labels: the placeholder 'to_drop', then the slugified
      header cells of row 1 after its first cell. */
  function Header(t: Table, slug: Slugify): (h: seq<string>)
    requires |t| >= 2
    ensures |h| == if |t[1]| == 0 then 1 else |t[1]|
    ensures h[0] == "to_drop"
    ensures forall j :: 1 <= j < |h| ==> h[j] == slug(Strip(t[1][j]))
  {
    ["to_drop"] + SlugAll(Utils.Rest(Utils.StripRow(t[1])), slug)
  }

  /** The width of the frame pandas builds from the rows: the widest row. */
  function MaxWidth(rows: Table): nat {
    if rows == [] then 0
    else
      var w := MaxWidth(rows[1..]);
      if |rows[0]| >= w then |rows[0]| else w
  }

  /** MaxWidth is the width of some row and no row is wider. */
  lemma {:induction false} MaxWidthSpec(rows: Table)
    ensures forall i :: 0 <= i < |rows| ==> |rows[i]| <= MaxWidth(rows)
    ensures rows != [] ==> exists i :: 0 <= i < |rows| && |rows[i]| == MaxWidth(rows)
  {
    if rows != [] {
      MaxWidthSpec(rows[1..]);
      if |rows[0]| < MaxWidth(rows[1..]) {
        var i :| 0 <= i < |rows[1..]| && |rows[1..][i]| == MaxWidth(rows[1..]);
        assert |rows[i + 1]| == MaxWidth(rows);
      }
    }
  }

  predicate SameWidth(rows: Table, w: nat) {
    forall i :: 0 <= i < |rows| ==> |rows[i]| == w
  }

  /** The labels left after drop('to_drop'), which removes every column so labelled. */
  function KeptNames(header: seq<string>): seq<string> {
    if header == [] then []
    else (if header[0] == "to_drop" then [] else [header[0]]) + KeptNames(header[1..])
  }

  /** CardMovement(**row) accepts the keywords: each field exactly once, nothing else. */
  predicate ExactFields(names: seq<string>) {
    multiset(names) == multiset(MovementFields)
  }

  /** The cell under the first column labelled f. */
  function Lookup(header: seq<string>, row: seq<string>, f: string): string
    requires |header| == |row| && f in header
  {
    if header[0] == f then row[0] else Lookup(header[1..], row[1..], f)
  }

  /** CardMovement(**row) for one data row. */
  function MovementOf(header: seq<string>, row: seq<string>): CardMovement
    requires |header| == |row| && ExactFields(KeptNames(header))
  {
    KeptFieldsInHeader(header);
    CardMovement(Lookup(header, row, "no_transaccion"), Lookup(header, row, "movimiento"),
                 Lookup(header, row, "fecha_y_hora"), Lookup(header, row, "lugar"),
                 Lookup(header, row, "monto"), Lookup(header, row, "saldo_tarjeta"))
  }

  /** The value a movement holds under a field name. */
  function Field(m: CardMovement, f: string): string
    requires f in MovementFields
  {
    if f == "no_transaccion" then m.noTransaccion
    else if f == "movimiento" then m.movimiento
    else if f == "fecha_y_hora" then m.fechaYHora
    else if f == "lugar" then m.lugar
    else if f == "monto" then m.monto
    else m.saldoTarjeta
  }

  lemma FieldAccessors(m: CardMovement)
    ensures Field(m, "no_transaccion") == m.noTransaccion && Field(m, "movimiento") == m.movimiento
    ensures Field(m, "fecha_y_hora") == m.fechaYHora && Field(m, "lugar") == m.lugar
    ensures Field(m, "monto") == m.monto && Field(m, "saldo_tarjeta") == m.saldoTarjeta
  {
  }

  function Records(header: seq<string>, rows: Table): seq<CardMovement>
    requires SameWidth(rows, |header|) && ExactFields(KeptNames(header))
  {
    if rows == [] then [] else [MovementOf(header, rows[0])] + Records(header, rows[1..])
  }

  /** get_movements once the table is located. IndexError without a header
      row; ValueError when the header count differs from the frame width
      (which is 0 when there is no data row); a row narrower than the
      frame and a header set other than CardMovement's fields fail too. */
  function MovementsFromTable(t: Table, slug: Slugify): Result<seq<CardMovement>>
  {
    if |t| < 2 then Raise(ShortTable)
    else
      var header := Header(t, slug);
      var rows := StripTable(t)[2..];
      if MaxWidth(rows) != |header| then Raise(ColumnMismatch)
      else if !SameWidth(rows, |header|) then Raise(RaggedRow)
      else if !ExactFields(KeptNames(header)) then Raise(BadKeywords)
      else Ok(Records(header, rows))
  }

  // ---- proofs ----

  lemma {:induction false} KeptCount(header: seq<string>, f: string)
    requires f != "to_drop"
    ensures multiset(KeptNames(header))[f] == multiset(header)[f]
  {
    if header != [] {
      KeptCount(header[1..], f);
      assert header == [header[0]] + header[1..];
    }
  }

  /** CardMovement's fields are distinct and none is called 'to_drop'. */
  lemma FieldsOnce(f: string)
    requires f in MovementFields
    ensures multiset(MovementFields)[f] == 1 && f != "to_drop"
  {
    var fs := MovementFields;
    assert |fs[0]| == 14 && |fs[1]| == 10 && |fs[2]| == 12 && |fs[3]| == 5 && |fs[4]| == 5 && |fs[5]| == 13;
    assert fs[3][0] != fs[4][0];
    assert fs == [fs[0]] + [fs[1]] + [fs[2]] + [fs[3]] + [fs[4]] + [fs[5]];
  }

  /** Each field name stands in the header exactly once. */
  lemma KeptFieldsInHeader(header: seq<string>)
    requires ExactFields(KeptNames(header))
    ensures forall f :: f in MovementFields ==> multiset(header)[f] == 1
    ensures forall f :: f in MovementFields ==> f in header
  {
    forall f | f in MovementFields
      ensures multiset(header)[f] == 1
    {
      FieldsOnce(f);
      KeptCount(header, f);
    }
  }

  /** A name that occurs once has no earlier occurrence. */
  lemma OnlyOnce(header: seq<string>, f: string, j: nat)
    requires j < |header| && header[j] == f && multiset(header)[f] == 1
    ensures forall i :: 0 <= i < j ==> header[i] != f
  {
    assert header == header[..j] + header[j..];
    assert header[j..][0] == f;
    assert multiset(header[..j])[f] == 0;
    forall i | 0 <= i < j
      ensures header[i] != f
    {
      assert header[..j][i] in header[..j];
    }
  }

  /** The first column labelled f is the one Lookup reads. */
  lemma {:induction false} LookupFirst(header: seq<string>, row: seq<string>, f: string, j: nat)
    requires |header| == |row| && j < |header| && header[j] == f
    requires forall i :: 0 <= i < j ==> header[i] != f
    ensures f in header && Lookup(header, row, f) == row[j]
  {
    if header[0] != f {
      LookupFirst(header[1..], row[1..], f, j - 1);
    }
  }

  lemma FieldOfMovement(header: seq<string>, row: seq<string>, f: string)
    requires |header| == |row| && ExactFields(KeptNames(header)) && f in MovementFields
    ensures f in header && Field(MovementOf(header, row), f) == Lookup(header, row, f)
  {
    KeptFieldsInHeader(header);
    var m := MovementOf(header, row);
    FieldAccessors(m);
    var fs := MovementFields;
    if f == fs[0] {
    } else if f == fs[1] {
    } else if f == fs[2] {
    } else if f == fs[3] {
    } else if f == fs[4] {
    } else {
      assert f == fs[5];
    }
  }

  lemma {:induction false} RecordsShape(header: seq<string>, rows: Table)
    requires SameWidth(rows, |header|) && ExactFields(KeptNames(header))
    ensures |Records(header, rows)| == |rows|
    ensures forall k :: 0 <= k < |rows| ==> Records(header, rows)[k] == MovementOf(header, rows[k])
  {
    if rows != [] {
      RecordsShape(header, rows[1..]);
    }
  }

  /** What a successful extraction is made of. */
  lemma MovementsOk(t: Table, slug: Slugify)
    requires MovementsFromTable(t, slug).Ok?
    ensures |t| >= 2
    ensures SameWidth(StripTable(t)[2..], |Header(t, slug)|) && ExactFields(KeptNames(Header(t, slug)))
    ensures MovementsFromTable(t, slug) == Ok(Records(Header(t, slug), StripTable(t)[2..]))
  {
  }

  /** Extraction succeeds when there is a data row, every data row is as
      wide as the header, and the kept names are CardMovement's fields. */
  lemma MovementsOkWhen(t: Table, slug: Slugify)
    requires |t| >= 3
    requires SameWidth(StripTable(t)[2..], |Header(t, slug)|) && ExactFields(KeptNames(Header(t, slug)))
    ensures MovementsFromTable(t, slug) == Ok(Records(Header(t, slug), StripTable(t)[2..]))
  {
    var rows := StripTable(t)[2..];
    MaxWidthSpec(rows);
    assert |rows[0]| == |Header(t, slug)|;
  }

  /** Each field of record k is the cell of row k under the header naming it. */
  lemma RecordField(header: seq<string>, rows: Table, k: nat, j: nat)
    requires SameWidth(rows, |header|) && ExactFields(KeptNames(header))
    requires k < |rows| && j < |header| && header[j] in MovementFields
    ensures |Records(header, rows)| == |rows|
    ensures Field(Records(header, rows)[k], header[j]) == rows[k][j]
  {
    RecordsShape(header, rows);
    KeptFieldsInHeader(header);
    OnlyOnce(header, header[j], j);
    LookupFirst(header, rows[k], header[j], j);
    FieldOfMovement(header, rows[k], header[j]);
  }

  /** A successful extraction has one record per row from row 2 on, in
      table order, and each field of record k is the stripped cell of row
      k+2 that stands under the slugified header naming that field. */
  lemma MovementsKeyedByHeader(t: Table, slug: Slugify, k: nat, j: nat)
    requires MovementsFromTable(t, slug).Ok?
    requires k < |MovementsFromTable(t, slug).value|
    requires j < |Header(t, slug)| && Header(t, slug)[j] in MovementFields
    ensures |MovementsFromTable(t, slug).value| == |t| - 2
    ensures j < |t[k + 2]| && Field(MovementsFromTable(t, slug).value[k], Header(t, slug)[j]) == Strip(t[k + 2][j])
  {
    MovementsOk(t, slug);
    var header := Header(t, slug);
    var rows := StripTable(t)[2..];
    RecordsShape(header, rows);
    RecordField(header, rows, k, j);
    assert rows[k] == Utils.StripRow(t[k + 2]);
  }

  /** With no data row the frame has no column and the header cannot be
      assigned: an empty history raises instead of returning []. */
  lemma EmptyHistoryRaises(t: Table, slug: Slugify)
    requires |t| == 2
    ensures MovementsFromTable(t, slug) == Raise(ColumnMismatch)
  {
  }

  lemma {:induction false} KeptNamesCons(x: string, rest: seq<string>)
    requires |x| > 0 && x[0] != 't'
    ensures KeptNames([x] + rest) == [x] + KeptNames(rest)
  {
    assert ([x] + rest)[1..] == rest;
    assert x != "to_drop" by { assert x[0] != "to_drop"[0]; }
  }

  /** None of CardMovement's fields is called 'to_drop', so the drop keeps them all. */
  lemma FieldsKept()
    ensures KeptNames(["to_drop"] + MovementFields) == MovementFields
  {
    var fs := MovementFields;
    assert KeptNames([]) == [];
    KeptNamesCons(fs[5], []);
    assert [fs[5]] + [] == fs[5..];
    KeptNamesCons(fs[4], fs[5..]);
    assert [fs[4]] + fs[5..] == fs[4..];
    KeptNamesCons(fs[3], fs[4..]);
    assert [fs[3]] + fs[4..] == fs[3..];
    KeptNamesCons(fs[2], fs[3..]);
    assert [fs[2]] + fs[3..] == fs[2..];
    KeptNamesCons(fs[1], fs[2..]);
    assert [fs[1]] + fs[2..] == fs[1..];
    KeptNamesCons(fs[0], fs[1..]);
    assert [fs[0]] + fs[1..] == fs;
    var h := ["to_drop"] + fs;
    assert h[1..] == fs;
  }

  /** A header row naming the six fields in order after its throwaway cell. */
  lemma UsualHeader(t: Table, slug: Slugify)
    requires |t| >= 2 && SlugAll(Utils.Rest(Utils.StripRow(t[1])), slug) == MovementFields
    ensures Header(t, slug) == ["to_drop"] + MovementFields
    ensures ExactFields(KeptNames(Header(t, slug)))
  {
    FieldsKept();
  }

  /** Under the usual header, record k holds cells 1 to 6 of row k in field order. */
  lemma UsualRecord(rows: Table, k: nat)
    requires SameWidth(rows, 7) && k < |rows|
    requires ExactFields(KeptNames(["to_drop"] + MovementFields))
    ensures |Records(["to_drop"] + MovementFields, rows)| == |rows|
    ensures Records(["to_drop"] + MovementFields, rows)[k] ==
      CardMovement(rows[k][1], rows[k][2], rows[k][3], rows[k][4], rows[k][5], rows[k][6])
  {
    var h := ["to_drop"] + MovementFields;
    RecordsShape(h, rows);
    var m := Records(h, rows)[k];
    FieldAccessors(m);
    assert m.noTransaccion == rows[k][1] by { RecordField(h, rows, k, 1); }
    assert m.movimiento == rows[k][2] by { RecordField(h, rows, k, 2); }
    assert m.fechaYHora == rows[k][3] by { RecordField(h, rows, k, 3); }
    assert m.lugar == rows[k][4] by { RecordField(h, rows, k, 4); }
    assert m.monto == rows[k][5] by { RecordField(h, rows, k, 5); }
    assert m.saldoTarjeta == rows[k][6] by { RecordField(h, rows, k, 6); }
  }

  /** A data row of the usual layout read as a movement: cells 1 to 6, stripped. */
  function UsualMovement(row: seq<string>): CardMovement
    requires |row| >= 7
  {
    CardMovement(Strip(row[1]), Strip(row[2]), Strip(row[3]), Strip(row[4]), Strip(row[5]), Strip(row[6]))
  }

  /** The portal's usual layout: a header row naming the six fields in
      order after a throwaway cell, and seven cells in every data row,
      gives one movement per data row, its cells in field order. */
  lemma MovementsUsualLayout(t: Table, slug: Slugify)
    requires |t| >= 3
    requires SlugAll(Utils.Rest(Utils.StripRow(t[1])), slug) == MovementFields
    requires forall i :: 2 <= i < |t| ==> |t[i]| == 7
    ensures MovementsFromTable(t, slug).Ok?
    ensures |MovementsFromTable(t, slug).value| == |t| - 2
    ensures forall k :: 0 <= k < |t| - 2 ==> MovementsFromTable(t, slug).value[k] == UsualMovement(t[k + 2])
  {
    UsualHeader(t, slug);
    var rows := StripTable(t)[2..];
    UsualRowsWidth(t);
    MovementsOkWhen(t, slug);
    RecordsShape(Header(t, slug), rows);
    forall k | 0 <= k < |t| - 2
      ensures Records(Header(t, slug), rows)[k] == UsualMovement(t[k + 2])
    {
      UsualRow(t, rows, k);
    }
  }

  lemma UsualRowsWidth(t: Table)
    requires |t| >= 2
    requires forall i :: 2 <= i < |t| ==> |t[i]| == 7
    ensures SameWidth(StripTable(t)[2..], 7)
  {
    var rows := StripTable(t)[2..];
    forall i | 0 <= i < |rows| ensures |rows[i]| == 7 {
      assert rows[i] == Utils.StripRow(t[i + 2]);
    }
  }

  lemma UsualRow(t: Table, rows: Table, k: nat)
    requires |t| >= 3 && rows == StripTable(t)[2..] && k < |rows|
    requires SameWidth(rows, 7) && ExactFields(KeptNames(["to_drop"] + MovementFields))
    ensures |Records(["to_drop"] + MovementFields, rows)| == |rows|
    ensures |t[k + 2]| == 7
    ensures Records(["to_drop"] + MovementFields, rows)[k] == UsualMovement(t[k + 2])
  {
    UsualRecord(rows, k);
    assert rows[k] == Utils.StripRow(t[k + 2]);
  }
}
