/** The two usage sinks: a keyed table, and a JSON-lines file with an in-memory set of the ids
    it has seen. Both are meant to be first-write-wins tables keyed by request id. */
module Ledger {
  import opened Base

  /** An unsigned 64-bit token count. */
  type Count = n: int | 0 <= n < 0x1_0000_0000_0000_0000

  datatype UsageRecord = UsageRecord(
    requestId: string,
    timestamp: Option<Time>,
    model: string,
    node: string,
    deployment: string,
    apiKey: string,
    promptTokens: Count,
    completionTokens: Count)

  /** One stored request. Time is kept to the millisecond, the finest both sinks keep. */
  datatype Row = Row(
    requestId: string,
    millis: int,
    model: string,
    node: string,
    deployment: string,
    apiKey: string,
    promptTokens: int,
    completionTokens: int)

  const MILLISECOND: Time := 1_000_000
  const TWO_63 := 0x8000_0000_0000_0000
  const TWO_64 := 0x1_0000_0000_0000_0000

  /** An insert, the clock reading it falls back on, and whether the disk or database worked. */
  datatype Insertion = Insertion(rec: UsageRecord, now: Time, works: bool)

  predicate Valid(rec: UsageRecord) {
    rec.requestId != "" && rec.node != ""
  }

  /** Reinterpretation of an unsigned 64-bit count as a signed one. */
  function ToInt64(x: Count): int {
    if x < TWO_63 then x else x - TWO_64
  }

  function RowOf(op: Insertion, prompt: int, completion: int): Row {
    var r := op.rec;
    var ts := if r.timestamp.Some? then r.timestamp.value else op.now;
    Row(r.requestId, ts / MILLISECOND, r.model, r.node, r.deployment, r.apiKey, prompt, completion)
  }

  predicate Small(rec: UsageRecord) {
    rec.promptTokens < TWO_63 && rec.completionTokens < TWO_63
  }

  predicate HasId(rows: seq<Row>, id: string) {
    exists i | 0 <= i < |rows| :: rows[i].requestId == id
  }

  // ---- the keyed table ----

  /** An id already present is left alone; a negative count violates the column's check. */
  function KeyedInsert(rows: seq<Row>, op: Insertion): seq<Row> {
    var p, c := ToInt64(op.rec.promptTokens), ToInt64(op.rec.completionTokens);
    if !Valid(op.rec) || !op.works || p < 0 || c < 0 || HasId(rows, op.rec.requestId) then rows
    else rows + [RowOf(op, p, c)]
  }

  function Keyed(ops: seq<Insertion>): seq<Row>
    decreases |ops|
  {
    if ops == [] then [] else KeyedInsert(Keyed(Init(ops)), Last(ops))
  }

  // ---- the JSON-lines sink ----

  datatype Sink = Sink(file: seq<Row>, seen: set<string>)

  /** Checked against `seen`, appended, and only then marked as seen. */
  function SinkInsert(s: Sink, op: Insertion): Sink {
    if !Valid(op.rec) || op.rec.requestId in s.seen || !op.works then s
    else Sink(s.file + [RowOf(op, op.rec.promptTokens, op.rec.completionTokens)], s.seen + {op.rec.requestId})
  }

  function Sunk(ops: seq<Insertion>): Sink
    decreases |ops|
  {
    if ops == [] then Sink([], {}) else SinkInsert(Sunk(Init(ops)), Last(ops))
  }

  /** The row keeps every field of the record, and its time to the millisecond. */
  predicate Keeps(row: Row, rec: UsageRecord, now: Time) {
    && row.requestId == rec.requestId && row.model == rec.model && row.node == rec.node
    && row.deployment == rec.deployment && row.apiKey == rec.apiKey
    && row.promptTokens == rec.promptTokens && row.completionTokens == rec.completionTokens
    && var ts := if rec.timestamp.Some? then rec.timestamp.value else now;
       row.millis * 1_000_000 <= ts < (row.millis + 1) * 1_000_000
  }

  /** The keyed table takes a record exactly when it is valid, the database works, both counts fit
      63 bits and the id is new; and then keeps every field. */
  lemma KeyedInsertMeans(rows: seq<Row>, op: Insertion)
    ensures var rows', rec := KeyedInsert(rows, op), op.rec;
      if && rec.requestId != "" && rec.node != "" && op.works
         && rec.promptTokens < 0x8000_0000_0000_0000 && rec.completionTokens < 0x8000_0000_0000_0000
         && (forall i | 0 <= i < |rows| :: rows[i].requestId != rec.requestId)
      then |rows'| == |rows| + 1 && rows'[..|rows|] == rows && Keeps(Last(rows'), rec, op.now)
      else rows' == rows
  {
  }

  class JsonLines {
    var file: seq<Row>
    var seen: set<string>

    function Contents(): Sink
      reads this
    {
      Sink(file, seen)
    }

    constructor ()
      ensures Contents() == Sink([], {})
    {
      file, seen := [], {};
    }

    method Insert(rec: UsageRecord, now: Time, opens: bool, writes: bool) returns (ok: bool)
      modifies this
      ensures Contents() == SinkInsert(old(Contents()), Insertion(rec, now, opens && writes))
      ensures ok <==> Valid(rec) && (rec.requestId in old(seen) || (opens && writes))
      ensures
        if rec.requestId != "" && rec.node != "" && rec.requestId !in old(seen) && opens && writes
        then |file| == |old(file)| + 1 && file[..|old(file)|] == old(file) && Keeps(Last(file), rec, now)
             && seen == old(seen) + {rec.requestId}
        else file == old(file) && seen == old(seen)
    {
      if rec.requestId == "" {
        return false;
      }
      if rec.node == "" {
        return false;
      }
      var ts := now;
      if rec.timestamp.Some? {
        ts := rec.timestamp.value;
      }
      if rec.requestId in seen {
        return true;
      }
      var line := Row(rec.requestId, ts / MILLISECOND, rec.model, rec.node, rec.deployment, rec.apiKey,
                      rec.promptTokens, rec.completionTokens);
      if !opens {
        return false;
      }
      if !writes {
        return false;
      }
      file := file + [line];
      seen := seen + {rec.requestId};
      return true;
    }
  }

  // ---- first write wins ----

  /** The reference: the first insert of an id that was valid and met a working sink. */
  function FirstWrite(ops: seq<Insertion>, id: string): Option<Insertion>
    decreases |ops|
  {
    if ops == [] then None
    else
      var before := FirstWrite(Init(ops), id);
      if before.Some? then before
      else if Valid(Last(ops).rec) && Last(ops).works && Last(ops).rec.requestId == id then Some(Last(ops))
      else None
  }

  ghost predicate OneRowPerId(rows: seq<Row>) {
    forall i, j | 0 <= i < j < |rows| :: rows[i].requestId != rows[j].requestId
  }

  /** The file holds, once each, exactly the first writes; `seen` is their ids. */
  ghost predicate SinkInv(ops: seq<Insertion>, s: Sink) {
    && OneRowPerId(s.file)
    && (forall id :: id in s.seen <==> HasId(s.file, id))
    && (forall id :: id in s.seen <==> FirstWrite(ops, id).Some?)
    && (forall i | 0 <= i < |s.file| ::
          var w := FirstWrite(ops, s.file[i].requestId);
          w.Some? && s.file[i] == RowOf(w.value, w.value.rec.promptTokens, w.value.rec.completionTokens))
  }

  /** One line per request id, and each line is that id's first write. */
  lemma {:induction false} SinkIsFirstWriteWins(ops: seq<Insertion>)
    ensures SinkInv(ops, Sunk(ops))
    decreases |ops|
  {
    if ops == [] {
    } else {
      SinkIsFirstWriteWins(Init(ops));
      SinkStep(Init(ops), Last(ops), Sunk(Init(ops)));
      InitLast(ops);
    }
  }

  /** And each line keeps every field of that first write. */
  lemma LinesAreFirstWrites(ops: seq<Insertion>, i: nat)
    requires i < |Sunk(ops).file|
    ensures var line := Sunk(ops).file[i];
      && FirstWrite(ops, line.requestId).Some?
      && var w := FirstWrite(ops, line.requestId).value;
         w in ops && w.works && Keeps(line, w.rec, w.now)
  {
    SinkIsFirstWriteWins(ops);
    FirstWriteIsWrite(ops, Sunk(ops).file[i].requestId);
  }

  lemma {:induction false} FirstWriteIsWrite(ops: seq<Insertion>, id: string)
    ensures FirstWrite(ops, id).Some? ==>
      FirstWrite(ops, id).value in ops && FirstWrite(ops, id).value.works && FirstWrite(ops, id).value.rec.requestId == id
    decreases |ops|
  {
    if ops == [] {
    } else {
      FirstWriteIsWrite(Init(ops), id);
      InitLast(ops);
    }
  }

  lemma FirstWriteSnoc(ops: seq<Insertion>, op: Insertion, id: string)
    ensures FirstWrite(ops + [op], id) == (
              if FirstWrite(ops, id).Some? then FirstWrite(ops, id)
              else if Valid(op.rec) && op.works && op.rec.requestId == id then Some(op) else None)
  {
    Snoc(ops, op);
  }

  lemma SinkStep(ops: seq<Insertion>, op: Insertion, s: Sink)
    requires SinkInv(ops, s)
    ensures SinkInv(ops + [op], SinkInsert(s, op))
  {
    var s' := SinkInsert(s, op);
    forall id ensures FirstWrite(ops + [op], id) == (
                        if FirstWrite(ops, id).Some? then FirstWrite(ops, id)
                        else if Valid(op.rec) && op.works && op.rec.requestId == id then Some(op) else None)
    {
      FirstWriteSnoc(ops, op, id);
    }
    if s' != s {
      var row := RowOf(op, op.rec.promptTokens, op.rec.completionTokens);
      forall id ensures HasId(s'.file, id) <==> HasId(s.file, id) || id == row.requestId {
        HasIdSnoc(s.file, row, id);
      }
      assert forall i | 0 <= i < |s.file| :: HasId(s.file, s.file[i].requestId);
    }
  }

  lemma HasIdSnoc(rows: seq<Row>, row: Row, id: string)
    ensures HasId(rows + [row], id) <==> HasId(rows, id) || row.requestId == id
  {
    var all := rows + [row];
    if HasId(rows, id) {
      var i :| 0 <= i < |rows| && rows[i].requestId == id;
      assert all[i].requestId == id;
    }
    if row.requestId == id {
      assert all[|rows|].requestId == id;
    }
  }

  // ---- refinement ----

  /** The first write of every request id carries counts that fit a signed 64-bit column. */
  ghost predicate SmallFirstWrites(ops: seq<Insertion>) {
    forall id :: FirstWrite(ops, id).Some? ==> Small(FirstWrite(ops, id).value.rec)
  }

  lemma {:induction false} KeyedRowsAreSmall(ops: seq<Insertion>)
    ensures forall i | 0 <= i < |Keyed(ops)| ::
              Keyed(ops)[i].promptTokens < TWO_63 && Keyed(ops)[i].completionTokens < TWO_63
    decreases |ops|
  {
    if ops == [] {
    } else {
      KeyedRowsAreSmall(Init(ops));
    }
  }

  lemma SmallPrefix(ops: seq<Insertion>)
    requires ops != [] && SmallFirstWrites(ops)
    ensures SmallFirstWrites(Init(ops))
  {
    forall id | FirstWrite(Init(ops), id).Some? ensures Small(FirstWrite(Init(ops), id).value.rec) {
      assert FirstWrite(ops, id) == FirstWrite(Init(ops), id);
    }
  }

  lemma {:induction false} SmallWritesAgree(ops: seq<Insertion>)
    requires SmallFirstWrites(ops)
    ensures Sunk(ops).file == Keyed(ops)
    decreases |ops|
  {
    if ops == [] {
    } else {
      SmallPrefix(ops);
      SmallWritesAgree(Init(ops));
      SinkIsFirstWriteWins(Init(ops));
      var op := Last(ops);
      var id := op.rec.requestId;
      assert id in Sunk(Init(ops)).seen <==> HasId(Keyed(Init(ops)), id);
      if Valid(op.rec) && op.works && id !in Sunk(Init(ops)).seen {
        assert FirstWrite(Init(ops), id).None?;
        assert FirstWrite(ops, id) == Some(op);
        assert Small(op.rec);
      }
    }
  }

  /** Ledger refinement, exactly: for every sequence of inserts, with duplicates, conflicting
      payloads and clean failures, the file and the table hold the same rows if and only if the
      first write of every request id has counts below 2^63. */
  lemma SinksAgreeIff(ops: seq<Insertion>)
    ensures Sunk(ops).file == Keyed(ops) <==> SmallFirstWrites(ops)
  {
    if SmallFirstWrites(ops) {
      SmallWritesAgree(ops);
    } else {
      SinkIsFirstWriteWins(ops);
      KeyedRowsAreSmall(ops);
      var id :| FirstWrite(ops, id).Some? && !Small(FirstWrite(ops, id).value.rec);
      assert id in Sunk(ops).seen && HasId(Sunk(ops).file, id);
      var i :| 0 <= i < |Sunk(ops).file| && Sunk(ops).file[i].requestId == id;
    }
  }

  /** A count of 2^63 is written to the file and refused by the table. */
  lemma HugeCountSplitsTheSinks()
    ensures exists rec: UsageRecord ::
      && rec.promptTokens == TWO_63
      && |Sunk([Insertion(rec, 0, true)]).file| == 1 && Keyed([Insertion(rec, 0, true)]) == []
  {
    var rec := UsageRecord("r", None, "m", "n", "d", "k", TWO_63, 0);
    var ops := [Insertion(rec, 0, true)];
    assert Init(ops) == [] && Last(ops) == ops[0];
    assert Valid(rec) && ToInt64(rec.promptTokens) < 0;
    assert Sunk(ops) == SinkInsert(Sunk([]), ops[0]) && |Sunk(ops).file| == 1;
    assert Keyed(Init(ops)) == [];
    assert Keyed(ops) == KeyedInsert([], ops[0]) == [];
  }

  // ---- summaries ----

  datatype Totals = Totals(key: string, requests: nat, promptTokens: int, completionTokens: int)

  datatype Column = ByNode | ByApiKey

  function KeyOf(r: Row, column: Column): string {
    if column == ByNode then r.node else r.apiKey
  }

  predicate InWindow(r: Row, from: int, to: int) {
    from <= r.millis < to
  }

  /** Sums over the rows of the window whose key is among `keys`. */
  function Summed(rows: seq<Row>, column: Column, keys: set<string>, from: int, to: int): Totals
    decreases |rows|
  {
    if rows == [] then Totals("", 0, 0, 0)
    else
      var t, r := Summed(Init(rows), column, keys, from, to), Last(rows);
      if InWindow(r, from, to) && KeyOf(r, column) in keys
      then Totals("", t.requests + 1, t.promptTokens + r.promptTokens, t.completionTokens + r.completionTokens)
      else t
  }

  /** The grand total does not look at keys at all. */
  function GrandTotal(rows: seq<Row>, from: int, to: int): Totals
    decreases |rows|
  {
    if rows == [] then Totals("", 0, 0, 0)
    else
      var t, r := GrandTotal(Init(rows), from, to), Last(rows);
      if InWindow(r, from, to)
      then Totals("", t.requests + 1, t.promptTokens + r.promptTokens, t.completionTokens + r.completionTokens)
      else t
  }

  function Plus(a: Totals, b: Totals): Totals {
    Totals("", a.requests + b.requests, a.promptTokens + b.promptTokens, a.completionTokens + b.completionTokens)
  }

  function AllTotals(ts: seq<Totals>): Totals
    decreases |ts|
  {
    if ts == [] then Totals("", 0, 0, 0) else Plus(AllTotals(Init(ts)), Last(ts))
  }

  lemma {:induction false} SummedSplits(rows: seq<Row>, column: Column, keys: set<string>, key: string, from: int,
      to: int)
    requires key !in keys
    ensures Summed(rows, column, keys + {key}, from, to)
         == Plus(Summed(rows, column, keys, from, to), GroupOf(rows, column, key, from, to))
    decreases |rows|
  {
    if rows == [] {
    } else {
      SummedSplits(Init(rows), column, keys, key, from, to);
    }
  }

  lemma {:induction false} SummedOverNothing(rows: seq<Row>, column: Column, from: int, to: int)
    ensures Summed(rows, column, {}, from, to) == Totals("", 0, 0, 0)
    decreases |rows|
  {
    if rows == [] {
    } else {
      SummedOverNothing(Init(rows), column, from, to);
    }
  }

  lemma {:induction false} SummedOverAll(rows: seq<Row>, column: Column, keys: set<string>, from: int, to: int)
    requires forall i | 0 <= i < |rows| :: InWindow(rows[i], from, to) ==> KeyOf(rows[i], column) in keys
    ensures Summed(rows, column, keys, from, to) == GrandTotal(rows, from, to)
    decreases |rows|
  {
    if rows == [] {
    } else {
      SummedOverAll(Init(rows), column, keys, from, to);
    }
  }

  function Weight(t: Totals): int {
    t.promptTokens + t.completionTokens
  }

  /** Heavier first; among equals, the smaller key first. */
  predicate Before(a: Totals, b: Totals) {
    Weight(a) > Weight(b) || (Weight(a) == Weight(b) && Precedes(a.key, b.key))
  }

  ghost predicate InOrder(ts: seq<Totals>) {
    forall i, j | 0 <= i < j < |ts| :: Before(ts[i], ts[j])
  }

  lemma BeforeTransitive(a: Totals, b: Totals, c: Totals)
    requires Before(a, b) && Before(b, c)
    ensures Before(a, c)
  {
    if Weight(a) == Weight(b) == Weight(c) {
      PrecedesTransitive(a.key, b.key, c.key);
    }
  }

  lemma BeforeTotal(a: Totals, b: Totals)
    ensures a.key != b.key ==> Before(a, b) || Before(b, a)
    ensures Before(a, b) ==> a != b && !Before(b, a)
  {
    PrecedesTotal(a.key, b.key);
  }

  function Inserted(ts: seq<Totals>, i: nat, t: Totals): seq<Totals>
    requires i <= |ts|
  {
    ts[..i] + [t] + ts[i..]
  }

  lemma {:induction false} InsertedInOrder(ts: seq<Totals>, i: nat, t: Totals)
    requires InOrder(ts) && i <= |ts|
    requires forall j | 0 <= j < i :: Before(ts[j], t)
    requires i < |ts| ==> Before(t, ts[i])
    ensures InOrder(Inserted(ts, i, t))
  {
    var out := Inserted(ts, i, t);
    forall j | i <= j < |ts| ensures Before(t, ts[j]) {
      if i < j {
        BeforeTransitive(t, ts[i], ts[j]);
      }
    }
    forall a, b | 0 <= a < b < |out| ensures Before(out[a], out[b]) {
      assert out[a] == if a < i then ts[a] else if a == i then t else ts[a - 1];
      assert out[b] == if b < i then ts[b] else if b == i then t else ts[b - 1];
    }
  }

  /** The order leaves no choice: two ordered lists with the same members are the same list. */
  lemma {:induction false} OrderIsUnique(a: seq<Totals>, b: seq<Totals>)
    requires InOrder(a) && InOrder(b) && forall x :: x in a <==> x in b
    ensures a == b
    decreases |a|
  {
    EmptyTogether(a, b);
    if a == [] {
    } else {
      SameFirst(a, b);
      forall x ensures x in a[1..] <==> x in b[1..] {
        TailMembers(a, x);
        TailMembers(b, x);
      }
      OrderIsUnique(a[1..], b[1..]);
      assert a == [a[0]] + a[1..] && b == [b[0]] + b[1..];
    }
  }

  lemma EmptyTogether(a: seq<Totals>, b: seq<Totals>)
    requires forall x :: x in a <==> x in b
    ensures a == [] <==> b == []
  {
    if a != [] {
      assert a[0] in b;
    }
    if b != [] {
      assert b[0] in a;
    }
  }

  lemma SameFirst(a: seq<Totals>, b: seq<Totals>)
    requires a != [] && b != [] && InOrder(a) && InOrder(b) && forall x :: x in a <==> x in b
    ensures a[0] == b[0]
  {
    assert b[0] in a && a[0] in b;
    BeforeTotal(a[0], b[0]);
    BeforeTotal(b[0], a[0]);
  }

  lemma TailMembers(ts: seq<Totals>, x: Totals)
    requires ts != [] && InOrder(ts)
    ensures x in ts[1..] <==> x in ts && x != ts[0]
  {
    assert ts == [ts[0]] + ts[1..];
    forall j | 0 < j < |ts| ensures ts[j] != ts[0] {
      BeforeTotal(ts[0], ts[j]);
    }
  }

  lemma {:induction false} InsertedMembers(ts: seq<Totals>, i: nat, t: Totals, x: Totals)
    requires i <= |ts|
    ensures x in Inserted(ts, i, t) <==> x in ts || x == t
  {
    assert ts == ts[..i] + ts[i..];
  }

  lemma {:induction false} InsertedTotals(ts: seq<Totals>, i: nat, t: Totals)
    requires i <= |ts|
    ensures AllTotals(Inserted(ts, i, t)) == Plus(AllTotals(ts), t)
    decreases |ts|
  {
    var out := Inserted(ts, i, t);
    if i == |ts| {
      assert out == ts + [t];
      Snoc(ts, t);
    } else {
      assert Init(out) == Inserted(Init(ts), i, t) && Last(out) == Last(ts);
      InsertedTotals(Init(ts), i, t);
    }
  }

  /** Puts one group into its place among those already there. */
  method InsertGroup(ts: seq<Totals>, t: Totals) returns (out: seq<Totals>)
    requires InOrder(ts) && forall i | 0 <= i < |ts| :: ts[i].key != t.key
    ensures InOrder(out) && AllTotals(out) == Plus(AllTotals(ts), t)
    ensures forall x :: x in out <==> x in ts || x == t
  {
    var i := 0;
    while i < |ts| && Before(ts[i], t)
      invariant 0 <= i <= |ts|
      invariant forall j | 0 <= j < i :: Before(ts[j], t)
    {
      i := i + 1;
    }
    if i < |ts| {
      BeforeTotal(ts[i], t);
    }
    InsertedInOrder(ts, i, t);
    InsertedTotals(ts, i, t);
    forall x ensures x in Inserted(ts, i, t) <==> x in ts || x == t {
      InsertedMembers(ts, i, t, x);
    }
    out := ts[..i] + [t] + ts[i..];
  }

  /** One entry per key of `keys`, holding that key's sums; heaviest first and by key among
      equals; adding up to all of them. */
  ghost predicate Grouped(out: seq<Totals>, rows: seq<Row>, column: Column, keys: set<string>, from: int, to: int) {
    && InOrder(out)
    && AllTotals(out) == Summed(rows, column, keys, from, to)
    && (forall t | t in out :: t.key in keys && t == GroupOf(rows, column, t.key, from, to))
    && (forall key | key in keys :: GroupOf(rows, column, key, from, to) in out)
  }

  function GroupOf(rows: seq<Row>, column: Column, key: string, from: int, to: int): Totals {
    Summed(rows, column, {key}, from, to).(key := key)
  }

  lemma {:induction false} GroupedGrows(out: seq<Totals>, out': seq<Totals>, rows: seq<Row>, column: Column,
      keys: set<string>, key: string,
                     from: int, to: int)
    requires Grouped(out, rows, column, keys, from, to) && key !in keys
    requires InOrder(out') && AllTotals(out') == Plus(AllTotals(out), GroupOf(rows, column, key, from, to))
    requires forall x :: x in out' <==> x in out || x == GroupOf(rows, column, key, from, to)
    ensures Grouped(out', rows, column, keys + {key}, from, to)
  {
    var g := GroupOf(rows, column, key, from, to);
    SummedSplits(rows, column, keys, key, from, to);
    forall t | t in out' ensures t.key in keys + {key} && t == GroupOf(rows, column, t.key, from, to) {
      assert t in out || t == g;
    }
    forall k | k in keys + {key} ensures GroupOf(rows, column, k, from, to) in out' {
      assert k in keys || k == key;
    }
  }

  function KeysIn(rows: seq<Row>, column: Column, from: int, to: int): set<string> {
    set i | 0 <= i < |rows| && InWindow(rows[i], from, to) :: KeyOf(rows[i], column)
  }

  /** Groups the window by node or by API key: every key that occurs has an entry holding
      exactly its sums, heaviest first and by key among equals, and the entries add up to the
      grand total. */
  method GroupBy(rows: seq<Row>, column: Column, from: int, to: int) returns (out: seq<Totals>)
    ensures Grouped(out, rows, column, KeysIn(rows, column, from, to), from, to)
    ensures AllTotals(out) == GrandTotal(rows, from, to)
    ensures forall i, j | 0 <= i < j < |out| ::
      out[i].promptTokens + out[i].completionTokens >= out[j].promptTokens + out[j].completionTokens
    ensures column == ByNode ==>
      KeysOf(out) == set i | 0 <= i < |rows| && from <= rows[i].millis < to :: rows[i].node
    ensures column == ByApiKey ==>
      KeysOf(out) == set i | 0 <= i < |rows| && from <= rows[i].millis < to :: rows[i].apiKey
  {
    out := GroupKeys(rows, column, KeysIn(rows, column, from, to), from, to);
    GroupsCoverWindow(rows, column, from, to);
    KeysAre(rows, column, from, to);
    GroupKeysAre(out, rows, column, KeysIn(rows, column, from, to), from, to);
  }

  function KeysOf(out: seq<Totals>): set<string> {
    set t | t in out :: t.key
  }

  lemma KeysAre(rows: seq<Row>, column: Column, from: int, to: int)
    ensures column == ByNode ==>
      KeysIn(rows, column, from, to) == set i | 0 <= i < |rows| && from <= rows[i].millis < to :: rows[i].node
    ensures column == ByApiKey ==>
      KeysIn(rows, column, from, to) == set i | 0 <= i < |rows| && from <= rows[i].millis < to :: rows[i].apiKey
  {
  }

  lemma {:induction false} GroupKeysAre(out: seq<Totals>, rows: seq<Row>, column: Column, keys: set<string>, from: int, to: int)
    requires Grouped(out, rows, column, keys, from, to)
    ensures KeysOf(out) == keys
  {
    forall k ensures k in KeysOf(out) <==> k in keys {
      if k in keys {
        assert GroupOf(rows, column, k, from, to) in out && GroupOf(rows, column, k, from, to).key == k;
      }
    }
  }

  /** What the sums are of: nothing for no rows, a row's own counts for one row of the window and
      the keys, and the sums of the parts for rows put together. */
  lemma {:induction false} SummedMeans(a: seq<Row>, r: Row, b: seq<Row>, column: Column, keys: set<string>, from: int, to: int)
    ensures Summed([], column, keys, from, to) == Totals("", 0, 0, 0)
    ensures Summed([r], column, keys, from, to) ==
      if from <= r.millis < to && (if column == ByNode then r.node else r.apiKey) in keys
      then Totals("", 1, r.promptTokens, r.completionTokens) else Totals("", 0, 0, 0)
    ensures Summed(a + b, column, keys, from, to) == Plus(Summed(a, column, keys, from, to), Summed(b, column, keys, from, to))
  {
    SummedOne(r, column, keys, from, to);
    SummedConcat(a, b, column, keys, from, to);
  }

  lemma {:induction false} SummedOne(r: Row, column: Column, keys: set<string>, from: int, to: int)
    ensures Summed([r], column, keys, from, to) ==
      if from <= r.millis < to && (if column == ByNode then r.node else r.apiKey) in keys
      then Totals("", 1, r.promptTokens, r.completionTokens) else Totals("", 0, 0, 0)
  {
    assert Init([r]) == [] && Last([r]) == r;
    assert Summed([], column, keys, from, to) == Totals("", 0, 0, 0);
  }

  lemma {:induction false} SummedConcat(a: seq<Row>, b: seq<Row>, column: Column, keys: set<string>, from: int, to: int)
    ensures Summed(a + b, column, keys, from, to) == Plus(Summed(a, column, keys, from, to), Summed(b, column, keys, from, to))
    decreases |b|
  {
    if b == [] {
      assert a + b == a;
      SummedHasNoKey(a, column, keys, from, to);
    } else {
      SummedConcat(a, Init(b), column, keys, from, to);
      assert Init(a + b) == a + Init(b) && Last(a + b) == Last(b);
    }
  }

  lemma {:induction false} SummedHasNoKey(rows: seq<Row>, column: Column, keys: set<string>, from: int, to: int)
    ensures Summed(rows, column, keys, from, to).key == ""
    decreases |rows|
  {
    if rows == [] {
    } else {
      SummedHasNoKey(Init(rows), column, keys, from, to);
    }
  }

  method AddGroup(out: seq<Totals>, rows: seq<Row>, column: Column, ghost done: set<string>, key: string, from: int,
      to: int)
    returns (grown: seq<Totals>)
    requires Grouped(out, rows, column, done, from, to) && key !in done
    ensures Grouped(grown, rows, column, done + {key}, from, to)
  {
    assert forall i | 0 <= i < |out| :: out[i] in out && out[i].key in done;
    grown := InsertGroup(out, GroupOf(rows, column, key, from, to));
    GroupedGrows(out, grown, rows, column, done, key, from, to);
  }

  method GroupKeys(rows: seq<Row>, column: Column, keys: set<string>, from: int, to: int) returns (out: seq<Totals>)
    ensures Grouped(out, rows, column, keys, from, to)
  {
    var todo := keys;
    ghost var done := {};
    out := [];
    NothingGrouped(rows, column, from, to);
    while todo != {}
      invariant done !! todo && done + todo == keys
      invariant Grouped(out, rows, column, done, from, to)
      decreases |todo|
    {
      var key :| key in todo;
      out := AddGroup(out, rows, column, done, key, from, to);
      todo := todo - {key};
      done := done + {key};
    }
    assert done == keys;
  }

  lemma {:induction false} NothingGrouped(rows: seq<Row>, column: Column, from: int, to: int)
    ensures Grouped([], rows, column, {}, from, to)
  {
    SummedOverNothing(rows, column, from, to);
  }

  /** There is only one such grouping. */
  lemma GroupingIsUnique(a: seq<Totals>, b: seq<Totals>, rows: seq<Row>, column: Column, keys: set<string>,
      from: int, to: int)
    requires Grouped(a, rows, column, keys, from, to) && Grouped(b, rows, column, keys, from, to)
    ensures a == b
  {
    forall x ensures x in a <==> x in b {
      if x in a {
        assert x.key in keys && GroupOf(rows, column, x.key, from, to) in b;
      }
      if x in b {
        assert x.key in keys && GroupOf(rows, column, x.key, from, to) in a;
      }
    }
    OrderIsUnique(a, b);
  }

  lemma {:induction false} GroupsCoverWindow(rows: seq<Row>, column: Column, from: int, to: int)
    ensures Summed(rows, column, KeysIn(rows, column, from, to), from, to) == GrandTotal(rows, from, to)
  {
    SummedOverAll(rows, column, KeysIn(rows, column, from, to), from, to);
  }
}
