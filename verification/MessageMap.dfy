/**
 MapEngine (bridge/dbstore/map.py): the table joining a mirrored message to its copy.
 Rows are listed in the order a query returns them.
 */
module MessageMap {
  import opened Sequences
  import opened Messages

  datatype Row = Row(id: nat, pair: int, src: Key, dst: Key)

  /** One result of `other_side`: the opposite end, the pair, and a row joining the two. */
  datatype Hit = Hit(end: Key, pair: int, row: nat)

  predicate Touches(row: Row, key: Key, pair: Option<int>)
  {
    (row.src == key || row.dst == key) && (pair == None || pair == Some(row.pair))
  }

  /** The end of the row `key` is not at; the source is looked at first. */
  function Opposite(row: Row, key: Key): Key
  {
    if row.src == key then row.dst else row.src
  }

  predicate Found(hits: seq<Hit>, end: Key, pair: int)
  {
    exists i :: 0 <= i < |hits| && hits[i].end == end && hits[i].pair == pair
  }

  /** What `other_side` returns. */
  function OtherSide(rows: seq<Row>, key: Key, pair: Option<int>): seq<Hit>
  {
    if rows == [] then []
    else
      var before, row := OtherSide(rows[..|rows| - 1], key, pair), rows[|rows| - 1];
      if !Touches(row, key, pair) || Found(before, Opposite(row, key), row.pair) then before
      else before + [Hit(Opposite(row, key), row.pair, row.id)]
  }

  /** Some row of the pair joins the two messages, in either direction. */
  ghost predicate Linked(rows: seq<Row>, a: Key, b: Key, pair: int)
  {
    exists row :: row in rows && Joins(row, a, b, pair)
  }

  predicate Joins(row: Row, a: Key, b: Key, pair: int)
  {
    row.pair == pair && ((row.src == a && row.dst == b) || (row.src == b && row.dst == a))
  }

  class MapEngine {
    var rows: seq<Row>
    /** AUTOINCREMENT of the table. */
    var nextId: nat

    constructor ()
      ensures rows == [] && nextId == 0
    {
      rows, nextId := [], 0;
    }

    method Add(pair: int, src: Key, dst: Key)
      modifies this
      ensures rows == old(rows) + [Row(old(nextId), pair, src, dst)] && nextId == old(nextId) + 1
    {
      rows := rows + [Row(nextId, pair, src, dst)];
      nextId := nextId + 1;
    }

    method RemoveRow(id: nat)
      modifies this
      ensures rows == Without(old(rows), id) && nextId == old(nextId)
    {
      rows := Without(rows, id);
    }

    method ReplaceDst(id: nat, dst: Key)
      modifies this
      ensures rows == Redirected(old(rows), id, dst) && nextId == old(nextId)
    {
      rows := Redirected(rows, id, dst);
    }

    /** `DELETE FROM msg_map WHERE pair_id=?`, as the removal of a pair does. */
    method RemovePair(pair: int)
      modifies this
      ensures rows == WithoutPair(old(rows), pair) && nextId == old(nextId)
    {
      rows := WithoutPair(rows, pair);
    }

    method Lookup(key: Key, pair: Option<int>) returns (out: seq<Hit>)
      ensures out == OtherSide(rows, key, pair)
    {
      out := [];
      var seen: set<(Key, int)> := {};
      for i := 0 to |rows|
        invariant out == OtherSide(rows[..i], key, pair)
        invariant forall end, p :: (end, p) in seen <==> Found(out, end, p)
      {
        var r := rows[i];
        assert rows[..i + 1][..i] == rows[..i];
        if Touches(r, key, pair) {
          var end := if r.src == key then r.dst else r.src;
          if (end, r.pair) !in seen {
            FoundAppend(out, Hit(end, r.pair, r.id));
            seen := seen + {(end, r.pair)};
            out := out + [Hit(end, r.pair, r.id)];
          }
        }
      }
      assert rows[..|rows|] == rows;
    }
  }

  function Without(rows: seq<Row>, id: nat): seq<Row>
  {
    if rows == [] then []
    else
      var init, row := Without(rows[..|rows| - 1], id), rows[|rows| - 1];
      if row.id == id then init else init + [row]
  }

  function WithoutPair(rows: seq<Row>, pair: int): seq<Row>
  {
    if rows == [] then []
    else
      var init, row := WithoutPair(rows[..|rows| - 1], pair), rows[|rows| - 1];
      if row.pair == pair then init else init + [row]
  }

  function Redirected(rows: seq<Row>, id: nat, dst: Key): (r: seq<Row>)
    ensures |r| == |rows|
  {
    if rows == [] then []
    else
      var row := rows[|rows| - 1];
      Redirected(rows[..|rows| - 1], id, dst) + [if row.id == id then row.(dst := dst) else row]
  }

  // ------------------------------------------------ the lookup agrees with the relation

  lemma {:induction false} FoundAppend(hits: seq<Hit>, h: Hit)
    ensures forall end, pair :: Found(hits + [h], end, pair) <==>
            Found(hits, end, pair) || (end == h.end && pair == h.pair)
  {
    forall end, pair
      ensures Found(hits + [h], end, pair) <==> Found(hits, end, pair) || (end == h.end && pair == h.pair)
    {
      assert (hits + [h])[|hits|] == h;
      if Found(hits, end, pair) {
        var i :| 0 <= i < |hits| && hits[i].end == end && hits[i].pair == pair;
        assert (hits + [h])[i] == hits[i];
      }
    }
  }

  lemma {:induction false} LinkedAppend(rows: seq<Row>, row: Row, a: Key, b: Key, pair: int)
    ensures Linked(rows + [row], a, b, pair) <==> Linked(rows, a, b, pair) || Joins(row, a, b, pair)
  {
    if Joins(row, a, b, pair) {
      assert row in rows + [row];
    }
    if Linked(rows, a, b, pair) {
      var r :| r in rows && Joins(r, a, b, pair);
      assert r in rows + [row];
    }
  }

  /** The lookup finds exactly the messages linked to `key` (in the pair asked for, if any). */
  lemma {:induction false} LookupExact(rows: seq<Row>, key: Key, pair: Option<int>, b: Key, p: int)
    ensures Found(OtherSide(rows, key, pair), b, p) <==> Linked(rows, key, b, p) && (pair == None || pair == Some(p))
  {
    if rows != [] {
      hide Found;
      hide Linked;
      var init, row := rows[..|rows| - 1], rows[|rows| - 1];
      LookupExact(init, key, pair, b, p);
      if Touches(row, key, pair) {
        LookupExact(init, key, pair, Opposite(row, key), row.pair);
      }
      FoundAppend(OtherSide(init, key, pair), Hit(Opposite(row, key), row.pair, row.id));
      LinkedAppend(init, row, key, b, p);
      assert init + [row] == rows;
    } else {
      assert !Linked([], key, b, p);
    }
  }

  /** No counterpart is reported twice, and each comes with a live row that joins it to `key`. */
  lemma {:induction false} LookupSound(rows: seq<Row>, key: Key, pair: Option<int>)
    ensures var hits := OtherSide(rows, key, pair);
            && (forall i, j | 0 <= i < j < |hits| :: (hits[i].end, hits[i].pair) != (hits[j].end, hits[j].pair))
            && (forall h | h in hits :: exists row :: row in rows && row.id == h.row && Joins(row, key, h.end, h.pair))
  {
    if rows != [] {
      var init, row := rows[..|rows| - 1], rows[|rows| - 1];
      LookupSound(init, key, pair);
      var before, hits := OtherSide(init, key, pair), OtherSide(rows, key, pair);
      forall h | h in hits
        ensures exists r :: r in rows && r.id == h.row && Joins(r, key, h.end, h.pair)
      {
        if h in before {
          var r :| r in init && r.id == h.row && Joins(r, key, h.end, h.pair);
          assert r in rows;
        } else {
          assert h == Hit(Opposite(row, key), row.pair, row.id);
          assert row in rows && Joins(row, key, h.end, h.pair);
        }
      }
    }
  }

  /** Hit `i` comes from row `at[i]`, the first one that joins `key` to that counterpart in its pair. */
  ghost predicate ComeFrom(at: seq<nat>, hits: seq<Hit>, rows: seq<Row>, key: Key, pair: Option<int>)
  {
    && |at| == |hits|
    && (forall i | 0 <= i < |hits| ::
          && at[i] < |rows| && Touches(rows[at[i]], key, pair)
          && hits[i] == Hit(Opposite(rows[at[i]], key), rows[at[i]].pair, rows[at[i]].id)
          && forall j | 0 <= j < at[i] && Touches(rows[j], key, pair) ::
               Opposite(rows[j], key) != hits[i].end || rows[j].pair != hits[i].pair)
    && (forall i, j | 0 <= i < j < |at| :: at[i] < at[j])
  }

  /** Counterparts are reported in the order of their oldest rows, so the first hit is the oldest one. */
  lemma {:induction false} LookupInOrder(rows: seq<Row>, key: Key, pair: Option<int>)
    ensures exists at: seq<nat> :: ComeFrom(at, OtherSide(rows, key, pair), rows, key, pair)
  {
    hide ComeFrom;
    if rows == [] {
      NothingComesFrom(key, pair);
    } else {
      var init, row := rows[..|rows| - 1], rows[|rows| - 1];
      LookupInOrder(init, key, pair);
      var hits := OtherSide(init, key, pair);
      var at: seq<nat> :| ComeFrom(at, hits, init, key, pair);
      assert rows == init + [row];
      ComeFromMore(at, hits, init, row, key, pair);
      hide Touches;
      hide Found;
      if Touches(row, key, pair) && !Found(hits, Opposite(row, key), row.pair) {
        assert ComeFrom(at + [|init|], OtherSide(rows, key, pair), rows, key, pair);
      } else {
        assert ComeFrom(at, OtherSide(rows, key, pair), rows, key, pair);
      }
    }
  }

  lemma {:induction false} NothingComesFrom(key: Key, pair: Option<int>)
    ensures ComeFrom([], OtherSide([], key, pair), [], key, pair)
  {
  }

  lemma {:induction false} ComeFromMore(
      at: seq<nat>, hits: seq<Hit>, init: seq<Row>, row: Row, key: Key, pair: Option<int>)
    requires ComeFrom(at, hits, init, key, pair) && hits == OtherSide(init, key, pair)
    ensures ComeFrom(at, hits, init + [row], key, pair)
    ensures Touches(row, key, pair) && !Found(hits, Opposite(row, key), row.pair) ==>
              ComeFrom(at + [|init|], hits + [Hit(Opposite(row, key), row.pair, row.id)], init + [row], key, pair)
  {
    hide OtherSide;
    hide Touches;
    var rows := init + [row];
    assert forall j | 0 <= j < |init| :: rows[j] == init[j];
    if Touches(row, key, pair) && !Found(hits, Opposite(row, key), row.pair) {
      forall j | 0 <= j < |init| && Touches(init[j], key, pair)
        ensures Opposite(init[j], key) != Opposite(row, key) || init[j].pair != row.pair
      {
        TouchedIsFound(init, j, key, pair);
      }
    }
  }

  lemma {:induction false} TouchedIsFound(rows: seq<Row>, j: nat, key: Key, pair: Option<int>)
    requires j < |rows| && Touches(rows[j], key, pair)
    ensures Found(OtherSide(rows, key, pair), Opposite(rows[j], key), rows[j].pair)
  {
    LookupExact(rows, key, pair, Opposite(rows[j], key), rows[j].pair);
    assert Joins(rows[j], key, Opposite(rows[j], key), rows[j].pair);
  }

  /** `b` is a counterpart of `a` in a pair exactly when `a` is a counterpart of `b` in it. */
  lemma {:induction false} LookupSymmetric(rows: seq<Row>, a: Key, b: Key, p: int)
    ensures Found(OtherSide(rows, a, Some(p)), b, p) <==> Found(OtherSide(rows, b, Some(p)), a, p)
    ensures Found(OtherSide(rows, a, None), b, p) <==> Found(OtherSide(rows, b, None), a, p)
  {
    LookupExact(rows, a, Some(p), b, p);
    LookupExact(rows, b, Some(p), a, p);
    LookupExact(rows, a, None, b, p);
    LookupExact(rows, b, None, a, p);
    forall row | row in rows
      ensures Joins(row, a, b, p) <==> Joins(row, b, a, p)
    {
    }
  }

  // ------------------------------------------------ any sequence of table operations

  datatype Op =
    | Add(pair: int, src: Key, dst: Key)
    | Remove(id: nat)
    | Replace(id: nat, dst: Key)
    | DropPair(pair: int)

  /** The table after `op`; `n` is the id the table would give a new row. */
  function Apply(rows: seq<Row>, n: nat, op: Op): (seq<Row>, nat)
  {
    match op
    case Add(pair, src, dst) => (rows + [Row(n, pair, src, dst)], n + 1)
    case Remove(id) => (Without(rows, id), n)
    case Replace(id, dst) => (Redirected(rows, id, dst), n)
    case DropPair(pair) => (WithoutPair(rows, pair), n)
  }

  function Run(ops: seq<Op>): (seq<Row>, nat)
  {
    if ops == [] then ([], 0)
    else
      var (rows, n) := Run(ops[..|ops| - 1]);
      Apply(rows, n, ops[|ops| - 1])
  }

  /**
   The life of one row, told without the table: created by the add that got its id,
   redirected by each replacement that names it, gone once it or its pair is removed.
   */
  function Life(ops: seq<Op>, id: nat): Option<Row>
  {
    if ops == [] then None
    else
      var before := Life(ops[..|ops| - 1], id);
      match ops[|ops| - 1]
      case Add(pair, src, dst) => if Adds(ops[..|ops| - 1]) == id then Some(Row(id, pair, src, dst)) else before
      case Remove(i) => if i == id then None else before
      case Replace(i, dst) => if i == id && before.Some? then Some(before.value.(dst := dst)) else before
      case DropPair(pair) => if before.Some? && before.value.pair == pair then None else before
  }

  function Adds(ops: seq<Op>): nat
  {
    if ops == [] then 0 else Adds(ops[..|ops| - 1]) + (if ops[|ops| - 1].Add? then 1 else 0)
  }

  lemma {:induction false} WithoutExact(rows: seq<Row>, id: nat, row: Row)
    ensures row in Without(rows, id) <==> row in rows && row.id != id
  {
    if rows != [] {
      WithoutExact(rows[..|rows| - 1], id, row);
      assert rows == rows[..|rows| - 1] + [rows[|rows| - 1]];
    }
  }

  lemma {:induction false} WithoutPairExact(rows: seq<Row>, pair: int, row: Row)
    ensures row in WithoutPair(rows, pair) <==> row in rows && row.pair != pair
  {
    if rows != [] {
      WithoutPairExact(rows[..|rows| - 1], pair, row);
      assert rows == rows[..|rows| - 1] + [rows[|rows| - 1]];
    }
  }

  lemma {:induction false} RedirectedExact(rows: seq<Row>, id: nat, dst: Key, row: Row)
    ensures row in Redirected(rows, id, dst) <==>
            (row in rows && row.id != id) || (row.id == id && row.dst == dst && exists d :: row.(dst := d) in rows)
  {
    if rows != [] {
      var init, last := rows[..|rows| - 1], rows[|rows| - 1];
      RedirectedExact(init, id, dst, row);
      assert rows == init + [last];
      if row.id == id && row.dst == dst && row == last.(dst := dst) {
        assert row.(dst := last.dst) == last;
      }
    }
  }

  /** The table holds exactly the rows whose life is not over, each under its own id. */
  ghost predicate TableIs(ops: seq<Op>, rows: seq<Row>, n: nat)
  {
    && n == Adds(ops)
    && (forall row :: row in rows <==> Life(ops, row.id) == Some(row))
    && (forall id: nat :: Life(ops, id).Some? ==> id < n && Life(ops, id).value.id == id)
  }

  lemma {:induction false} LifeStep(ops: seq<Op>, op: Op, id: nat)
    ensures Life(ops + [op], id) ==
            (match op
             case Add(pair, src, dst) => if Adds(ops) == id then Some(Row(id, pair, src, dst)) else Life(ops, id)
             case Remove(i) => if i == id then None else Life(ops, id)
             case Replace(i, dst) => if i == id && Life(ops, id).Some? then Some(Life(ops, id).value.(dst := dst))
                 else Life(ops, id)
             case DropPair(pair) => if Life(ops, id).Some? && Life(ops, id).value.pair == pair then None
                 else Life(ops, id))
    ensures Adds(ops + [op]) == Adds(ops) + (if op.Add? then 1 else 0)
  {
    assert (ops + [op])[..|ops|] == ops;
  }

  lemma {:induction false} StepKeepsTable(ops: seq<Op>, op: Op, rows: seq<Row>, n: nat)
    requires TableIs(ops, rows, n)
    ensures TableIs(ops + [op], Apply(rows, n, op).0, Apply(rows, n, op).1)
  {
    hide Life;
    hide Adds;
    var rows' := Apply(rows, n, op).0;
    LifeStep(ops, op, 0);
    forall id: nat
      ensures Life(ops + [op], id).Some? ==> id < Apply(rows, n, op).1 && Life(ops + [op], id).value.id == id
    {
      LifeStep(ops, op, id);
    }
    forall row
      ensures row in rows' <==> Life(ops + [op], row.id) == Some(row)
    {
      RowStep(ops, op, rows, n, row);
    }
  }

  lemma {:induction false} RowStep(ops: seq<Op>, op: Op, rows: seq<Row>, n: nat, row: Row)
    requires TableIs(ops, rows, n)
    ensures row in Apply(rows, n, op).0 <==> Life(ops + [op], row.id) == Some(row)
  {
    LifeStep(ops, op, row.id);
    hide Life;
    hide Adds;
    match op
    case Add(_, _, _) =>
    case Remove(id) => WithoutExact(rows, id, row);
    case DropPair(pair) => WithoutPairExact(rows, pair, row);
    case Replace(id, dst) =>
      RedirectedExact(rows, id, dst, row);
      if row.id == id && Life(ops, id).Some? && Life(ops, id).value.(dst := dst) == row {
        var was := Life(ops, id).value;
        assert row.(dst := was.dst) == was && was in rows;
      }
  }

  /**
   Through any sequence of adds, removals, replacements and pair removals, the table holds
   exactly the rows that are still alive, each with its latest destination.
   */
  lemma {:induction false} TableHoldsLiveRows(ops: seq<Op>)
    ensures TableIs(ops, Run(ops).0, Run(ops).1)
  {
    if ops != [] {
      hide TableIs;
      var init := ops[..|ops| - 1];
      TableHoldsLiveRows(init);
      StepKeepsTable(init, ops[|ops| - 1], Run(init).0, Run(init).1);
      assert init + [ops[|ops| - 1]] == ops;
    }
  }

  lemma {:induction false} LinkedByLiveRow(ops: seq<Op>, key: Key, b: Key, p: int)
    ensures Linked(Run(ops).0, key, b, p) <==>
            exists id: nat :: Life(ops, id).Some? && Joins(Life(ops, id).value, key, b, p)
  {
    TableHoldsLiveRows(ops);
    if id: nat :| Life(ops, id).Some? && Joins(Life(ops, id).value, key, b, p) {
      assert Life(ops, id).value in Run(ops).0;
    }
    if row :| row in Run(ops).0 && Joins(row, key, b, p) {
      assert Life(ops, row.id) == Some(row);
    }
  }

  /** So at any time a look-up, in one pair or in all, reports exactly the other ends of the rows alive then. */
  lemma {:induction false} LookupReportsLiveRows(ops: seq<Op>, key: Key, pair: Option<int>, b: Key, p: int)
    ensures Found(OtherSide(Run(ops).0, key, pair), b, p) <==>
            && (pair == None || pair == Some(p))
            && exists id: nat :: Life(ops, id).Some? && Joins(Life(ops, id).value, key, b, p)
  {
    LookupExact(Run(ops).0, key, pair, b, p);
    LinkedByLiveRow(ops, key, b, p);
  }
}
