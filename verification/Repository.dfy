/** The stored positions: an upsert that keeps a measurement a new row lacks. */
module Repository {
  import opened Excursion
  import opened Protocol

  datatype Row = Row(trade: Trade, mae: Option<real>, mfe: Option<real>)

  /** A row's key: its account and the position's identifier there. */
  type RowKey = (int, int)

  type Table = map<RowKey, Row>

  function Coalesce(x: Option<real>, y: Option<real>): Option<real> { if x.Some? then x else y }

  function Merged(table: Table, key: RowKey, row: Row): Row {
    if key in table then Row(row.trade, Coalesce(row.mae, table[key].mae), Coalesce(row.mfe, table[key].mfe)) else row
  }

  function Upserted(table: Table, account: int, rows: seq<Row>): Table {
    if rows == [] then table
    else
      var before := Upserted(table, account, rows[..|rows| - 1]);
      var row := rows[|rows| - 1];
      before[(account, row.trade.id) := Merged(before, (account, row.trade.id), row)]
  }

  lemma {:induction false} UpsertedInParts(table: Table, account: int, a: seq<Row>, b: seq<Row>)
    ensures Upserted(table, account, a + b) == Upserted(Upserted(table, account, a), account, b)
  {
    if b == [] {
      assert a + b == a;
    } else {
      UpsertedInParts(table, account, a, b[..|b| - 1]);
      assert (a + b)[..|a + b| - 1] == a + b[..|b| - 1];
    }
  }

  function Measured(table: Table, account: int): set<int> {
    set key | key in table && key.0 == account && table[key].mae.Some? :: key.1
  }

  const BATCH: nat := 1000

  class PositionRepository {
    var table: Table

    constructor ()
      ensures table == map[]
    {
      table := map[];
    }

    /** The rows are stored one after another; no position of any account is measured before and not after. */
    method UpsertMany(account: int, rows: seq<Row>) returns (stored: nat)
      modifies this
      ensures table == Upserted(old(table), account, rows) && stored == |rows|
      ensures forall other :: Measured(old(table), other) <= Measured(table, other)
    {
      forall other ensures Measured(table, other) <= Measured(Upserted(table, account, rows), other) {
        MeasuredStays(table, account, rows, other);
      }
      var start := 0;
      while start < |rows|
        invariant 0 <= start <= |rows|
        invariant table == Upserted(old(table), account, rows[..start])
      {
        var end := if start + BATCH < |rows| then start + BATCH else |rows|;
        for i := start to end
          invariant table == Upserted(old(table), account, rows[..i])
        {
          assert rows[..i + 1][..i] == rows[..i];
          var row := rows[i];
          table := table[(account, row.trade.id) := Merged(table, (account, row.trade.id), row)];
        }
        start := end;
      }
      assert rows[..|rows|] == rows;
      return |rows|;
    }
  }

  // What an upsert keeps.

  /** The last row of a position that carries what is asked for, or -1. */
  function LastWith(rows: seq<Row>, id: int, has: Row -> bool): (i: int)
    ensures -1 <= i < |rows|
    ensures i >= 0 ==> rows[i].trade.id == id && has(rows[i])
    ensures forall j :: i < j < |rows| ==> !(rows[j].trade.id == id && has(rows[j]))
  {
    if rows == [] then -1
    else if rows[|rows| - 1].trade.id == id && has(rows[|rows| - 1]) then |rows| - 1
    else LastWith(rows[..|rows| - 1], id, has)
  }

  function HasMae(row: Row): bool { row.mae.Some? }

  function HasMfe(row: Row): bool { row.mfe.Some? }

  function Any(row: Row): bool { true }

  function Mae(table: Table, key: RowKey): Option<real> { if key in table then table[key].mae else None }

  function Mfe(table: Table, key: RowKey): Option<real> { if key in table then table[key].mfe else None }

  /** After any upserts a position shows the last measurement any of its rows carried, or the one it had. */
  lemma {:induction false} LastMeasurementStays(table: Table, account: int, rows: seq<Row>, id: int)
    ensures var i, j := LastWith(rows, id, HasMae), LastWith(rows, id, HasMfe);
            && Mae(Upserted(table, account, rows), (account, id)) == (if i >= 0 then rows[i].mae else Mae(table, (account, id)))
            && Mfe(Upserted(table, account, rows), (account, id)) == (if j >= 0 then rows[j].mfe else Mfe(table, (account, id)))
  {
    if rows != [] {
      LastMeasurementStays(table, account, rows[..|rows| - 1], id);
    }
  }

  /** The rest of a position comes from its last row. */
  lemma {:induction false} LastRowWins(table: Table, account: int, rows: seq<Row>, id: int)
    ensures var k, after := LastWith(rows, id, Any), Upserted(table, account, rows);
            && ((account, id) in after <==> k >= 0 || (account, id) in table)
            && ((account, id) in after ==>
                  after[(account, id)].trade == if k >= 0 then rows[k].trade else table[(account, id)].trade)
  {
    if rows != [] {
      LastRowWins(table, account, rows[..|rows| - 1], id);
    }
  }

  /** Other accounts' rows are untouched. */
  lemma {:induction false} OthersStay(table: Table, account: int, rows: seq<Row>, key: RowKey)
    requires key.0 != account
    ensures key in Upserted(table, account, rows) <==> key in table
    ensures key in table ==> Upserted(table, account, rows)[key] == table[key]
  {
    if rows != [] {
      OthersStay(table, account, rows[..|rows| - 1], key);
    }
  }

  /** So a position once measured is measured ever after. */
  lemma MeasuredStays(table: Table, account: int, rows: seq<Row>, other: int)
    ensures Measured(table, other) <= Measured(Upserted(table, account, rows), other)
  {
    forall id | id in Measured(table, other) ensures id in Measured(Upserted(table, account, rows), other) {
      var key := (other, id);
      if other == account {
        LastMeasurementStays(table, account, rows, id);
      } else {
        OthersStay(table, account, rows, key);
      }
      assert key in Upserted(table, account, rows) && Upserted(table, account, rows)[key].mae.Some?;
    }
  }
}
