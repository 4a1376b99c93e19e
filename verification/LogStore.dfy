// One datastore's persistent state, as values: the tables, the log table keyed
// by sequence number, and the sequence counter. Every transaction of the log
// sink and the log source is a function here.
module LogStore {
  import opened Wrappers
  import opened Tables

  datatype Store = Store(tables: Tables, log: map<nat, Op>, seqNum: nat)

  // ---------------------------------------------------------------- sink

  // The transaction of Apply: the new state and the operation to emit, or an
  // error, in which case the transaction is rolled back.
  function SinkApply(s: Store, op: Op, fromLog: bool): Result<(Store, Op), Error> {
    var op' := if fromLog then op else op.(seqNum := s.seqNum + 1);
    match ApplyOp(s.tables, op')
    case Err(e) => Err(e)
    case Ok(t) =>
      if op'.seqNum in s.log then Err(SequenceConflict)
      else Ok((Store(t, s.log[op'.seqNum := op'], op'.seqNum), op'))
  }

  // The number an operation gets: its own if it comes from a log, else the next.
  function NumberFor(s: Store, op: Op, fromLog: bool): nat {
    if fromLog then op.seqNum else s.seqNum + 1
  }

  // An operation is accepted if and only if the tables do not refuse it and its
  // number is not in the log yet.
  lemma {:induction false} AcceptedIff(s: Store, op: Op, fromLog: bool)
    ensures SinkApply(s, op, fromLog).Ok? <==> !Refused(s.tables, op) && NumberFor(s, op, fromLog) !in s.log
    ensures SinkApply(s, op, fromLog) == Err(SequenceConflict) <==>
      !Refused(s.tables, op) && NumberFor(s, op, fromLog) in s.log
    ensures Refused(s.tables, op) ==>
      ApplyOp(s.tables, op).Err? && SinkApply(s, op, fromLog) == Err(ApplyOp(s.tables, op).error)
  {
    RefusedExactly(s.tables, op);
    RefusedExactly(s.tables, op.(seqNum := NumberFor(s, op, fromLog)));
  }

  // The rows, the log and the counter after an operation that is accepted, and
  // what is emitted.
  ghost predicate Took(s: Store, op: Op, n: nat, s': Store, emitted: Op) {
    && emitted == op.(seqNum := n) && s'.seqNum == n
    && s'.log.Keys == s.log.Keys + {n} && s'.log[n] == emitted
    && (forall k :: k in s.log && k != n ==> s'.log[k] == s.log[k])
    && forall r :: HasRow(s'.tables, r) <==> RowAfter(s.tables, op, r)
  }

  lemma {:induction false} AcceptedEffect(s: Store, op: Op, fromLog: bool)
    requires Integrity(s.tables) && SinkApply(s, op, fromLog).Ok?
    ensures
      var (s', emitted) := SinkApply(s, op, fromLog).value;
      Took(s, op, NumberFor(s, op, fromLog), s', emitted)
  {
    var numbered := op.(seqNum := NumberFor(s, op, fromLog));
    var (s', emitted) := SinkApply(s, op, fromLog).value;
    forall r ensures HasRow(s'.tables, r) <==> RowAfter(s.tables, op, r) {
      RowsAfter(s.tables, numbered, r);
    }
  }

  // ---------------------------------------------------------------- source

  function Above(log: map<nat, Op>, start: nat): set<nat> {
    set k | k in log && start <= k
  }

  predicate IsLeast(m: nat, s: set<nat>) {
    m in s && forall k :: k in s ==> m <= k
  }

  function Least(s: set<nat>): (m: nat)
    requires s != {}
    ensures IsLeast(m, s)
  {
    LeastExists(s);
    var m :| IsLeast(m, s);
    m
  }

  lemma {:induction false} LeastExists(s: set<nat>)
    requires s != {}
    ensures exists m :: IsLeast(m, s)
  {
    var x :| x in s;
    if s == {x} {
      assert IsLeast(x, s);
    } else {
      LeastExists(s - {x});
      var m :| IsLeast(m, s - {x});
      LeastOf(s, x, m);
    }
  }

  lemma {:induction false} LeastOf(s: set<nat>, x: nat, m: nat)
    requires x in s && IsLeast(m, s - {x})
    ensures IsLeast(if x <= m then x else m, s)
  {
    forall k | k in s ensures x <= k || m <= k {
      if k != x {
        assert k in s - {x};
      }
    }
  }

  // SELECT ... WHERE seq >= start ORDER BY seq ASC
  function Since(log: map<nat, Op>, start: nat): seq<Op>
    decreases |Above(log, start)|
  {
    if Above(log, start) == {} then []
    else
      var k := Least(Above(log, start));
      assert Above(log, k + 1) == Above(log, start) - {k};
      [log[k]] + Since(log, k + 1)
  }

  lemma {:induction false} SinceStep(log: map<nat, Op>, start: nat, k: nat)
    requires k in Above(log, start) && forall other :: other in Above(log, start) ==> k <= other
    ensures Since(log, start) == [log[k]] + Since(log, k + 1)
    ensures |Above(log, k + 1)| < |Above(log, start)|
  {
    assert Above(log, k + 1) == Above(log, start) - {k};
  }

  lemma {:induction false} SinceEnd(log: map<nat, Op>, start: nat)
    requires Above(log, start) == {}
    ensures Since(log, start) == []
  {
  }

  // Log rows carry their own key.
  ghost predicate Keyed(log: map<nat, Op>) {
    forall k :: k in log ==> log[k].seqNum == k
  }

  // The query returns exactly the log rows from start on.
  lemma {:induction false} SinceContents(log: map<nat, Op>, start: nat, op: Op)
    requires Keyed(log)
    ensures op in Since(log, start) <==> op.seqNum in log && log[op.seqNum] == op && start <= op.seqNum
    decreases |Above(log, start)|
  {
    if Above(log, start) == {} {
      assert op.seqNum in log && start <= op.seqNum ==> op.seqNum in Above(log, start);
    } else {
      var k := Least(Above(log, start));
      assert Above(log, k + 1) == Above(log, start) - {k};
      SinceContents(log, k + 1, op);
      assert op.seqNum in log && start <= op.seqNum ==> op.seqNum in Above(log, start);
    }
  }

  // The query returns them in increasing sequence order.
  lemma {:induction false} SinceIncreasing(log: map<nat, Op>, start: nat, i: nat, j: nat)
    requires Keyed(log)
    requires i < j < |Since(log, start)|
    ensures start <= Since(log, start)[i].seqNum < Since(log, start)[j].seqNum
    decreases |Above(log, start)|
  {
    var k := Least(Above(log, start));
    assert Above(log, k + 1) == Above(log, start) - {k};
    if i > 0 {
      SinceIncreasing(log, k + 1, i - 1, j - 1);
    } else {
      SinceContents(log, k + 1, Since(log, start)[j]);
    }
  }

  ghost predicate NothingAbove(log: map<nat, Op>, seqNum: nat) {
    forall k :: k in log ==> k <= seqNum
  }

  // A row written at the end of the log comes last in the query.
  lemma {:induction false} SinceAppend(log: map<nat, Op>, seqNum: nat, op: Op, start: nat)
    requires NothingAbove(log, seqNum) && start <= seqNum + 1
    ensures Since(log[seqNum + 1 := op], start) == Since(log, start) + [op]
    decreases |Above(log, start)|
  {
    hide Since;
    var log' := log[seqNum + 1 := op];
    if Above(log, start) == {} {
      SinceEnd(log, start);
      assert forall k :: k in log && start <= k ==> k in Above(log, start);
      assert forall k :: k in Above(log', start) <==> k == seqNum + 1;
      SinceStep(log', start, seqNum + 1);
      assert Above(log', seqNum + 2) == {};
      SinceEnd(log', seqNum + 2);
    } else {
      var k := Least(Above(log, start));
      SinceStep(log, start, k);
      assert forall j :: j in Above(log', start) <==> j in Above(log, start) || j == seqNum + 1;
      SinceStep(log', start, k);
      SinceAppend(log, seqNum, op, k + 1);
    }
  }

  // ---------------------------------------------------------------- log against history

  // Every row of the log is the operation of that number in the history.
  ghost predicate Agrees(log: map<nat, Op>, hist: seq<Op>) {
    forall k :: k in log ==> 1 <= k <= |hist| && log[k] == hist[k - 1]
  }

  ghost predicate Numbered(hist: seq<Op>) {
    forall i :: 0 <= i < |hist| ==> hist[i].seqNum == i + 1
  }

  // From start on, the log holds exactly the numbers up to the counter: no
  // missing entry, and no leftover above the counter.
  ghost predicate Covers(s: Store, start: nat) {
    forall k :: start <= k ==> (k in s.log <==> k <= s.seqNum)
  }

  lemma {:induction false} SinceSlice(log: map<nat, Op>, hist: seq<Op>, start: nat, top: nat)
    requires Agrees(log, hist) && Numbered(hist)
    requires 1 <= start <= top + 1 <= |hist| + 1
    requires forall k :: start <= k ==> (k in log <==> k <= top)
    ensures Since(log, start) == hist[start - 1..top]
    decreases top + 1 - start
  {
    if start == top + 1 {
      assert Above(log, start) == {};
    } else {
      assert start in Above(log, start);
      assert Least(Above(log, start)) == start;
      SinceSlice(log, hist, start + 1, top);
      assert hist[start - 1..top] == [hist[start - 1]] + hist[start..top];
    }
  }

  // The preload of a subscription is exactly the missing part of the history if
  // and only if the source log covers it. Subscribe does not check this.
  lemma {:induction false} PreloadExactIff(s: Store, hist: seq<Op>, start: nat)
    requires Agrees(s.log, hist) && Numbered(hist)
    requires 1 <= start <= s.seqNum + 1 <= |hist| + 1
    ensures Since(s.log, start) == hist[start - 1..s.seqNum] <==> Covers(s, start)
  {
    if Covers(s, start) {
      SinceSlice(s.log, hist, start, s.seqNum);
    }
    var slice := hist[start - 1..s.seqNum];
    assert forall op :: op in slice ==> op.seqNum <= s.seqNum;
    if Since(s.log, start) == slice {
      forall k | start <= k ensures k in s.log <==> k <= s.seqNum {
        if k <= s.seqNum {
          assert slice[k - start] == hist[k - 1];
          SinceContents(s.log, start, hist[k - 1]);
        } else if k in s.log {
          SinceContents(s.log, start, s.log[k]);
        }
      }
    }
  }

  // A follower that stands at a point of the history applies the next operation
  // without fail, keeps its number and logs it, unless its log already has an
  // entry of that number.
  lemma {:induction false} FollowerApply(base: Tables, s: Store, hist: seq<Op>)
    requires Numbered(hist) && Replays(base, hist)
    requires s.seqNum < |hist| && s.tables == StateAt(base, hist, s.seqNum)
    ensures SinkApply(s, hist[s.seqNum], true) ==
      if s.seqNum + 1 in s.log then Err(SequenceConflict)
      else Ok((Store(StateAt(base, hist, s.seqNum + 1), s.log[s.seqNum + 1 := hist[s.seqNum]], s.seqNum + 1),
               hist[s.seqNum]))
  {
    assert Accepted(base, hist, s.seqNum);
  }

  // ---------------------------------------------------------------- applying what arrives

  datatype Failure = Failure(seqNum: nat, error: Error)

  datatype Delivery = Delivery(store: Store, failed: Option<Failure>)

  // Apply operations from a log until one fails.
  function Deliver(s: Store, ops: seq<Op>): Delivery {
    if ops == [] then Delivery(s, None)
    else
      var before, op := Deliver(s, ops[..|ops| - 1]), ops[|ops| - 1];
      if before.failed.Some? then before
      else
        match SinkApply(before.store, op, true)
        case Err(e) => Delivery(before.store, Some(Failure(op.seqNum, e)))
        case Ok(r) => Delivery(r.0, None)
  }

  lemma {:induction false} DeliveryStops(s: Store, ops: seq<Op>, n: nat)
    requires n <= |ops|
    requires Deliver(s, ops[..n]).failed.Some?
    ensures Deliver(s, ops) == Deliver(s, ops[..n])
    decreases |ops| - n
  {
    if n < |ops| {
      assert ops[..n + 1][..n] == ops[..n];
      DeliveryStops(s, ops, n + 1);
    } else {
      assert ops[..n] == ops;
    }
  }

  // Whatever arrives, delivery stops at the first operation the store refuses,
  // with that operation's number and its error, and the store as it was before;
  // if none is refused, all of them are applied.
  lemma {:induction false} DeliverStopsIff(s: Store, ops: seq<Op>, n: nat)
    requires n < |ops| && Deliver(s, ops[..n]).failed.None?
    ensures
      var before := Deliver(s, ops[..n]).store;
      var r := SinkApply(before, ops[n], true);
      && (r.Err? ==> Deliver(s, ops) == Delivery(before, Some(Failure(ops[n].seqNum, r.error))))
      && (r.Ok? ==> Deliver(s, ops[..n + 1]) == Delivery(r.value.0, None))
  {
    hide SinkApply;
    assert ops[..n + 1][..n] == ops[..n];
    if SinkApply(Deliver(s, ops[..n]).store, ops[n], true).Err? {
      DeliveryStops(s, ops, n + 1);
    }
  }

  // The store that stood at a point of the history and has moved on to `upto`.
  function Advanced(base: Tables, s: Store, hist: seq<Op>, upto: nat): Store
    requires upto <= |hist|
  {
    Store(StateAt(base, hist, upto), Relogged(s.log, hist, s.seqNum, upto), upto)
  }

  // The log with the operations after `from` and up to `upto` written to it.
  function Relogged(log: map<nat, Op>, hist: seq<Op>, from: nat, upto: nat): map<nat, Op>
    requires upto <= |hist|
  {
    if upto <= from then log else Relogged(log, hist, from, upto - 1)[upto := hist[upto - 1]]
  }

  lemma {:induction false} ReloggedAt(log: map<nat, Op>, hist: seq<Op>, from: nat, upto: nat, k: nat)
    requires upto <= |hist|
    ensures k in Relogged(log, hist, from, upto) <==> k in log || from < k <= upto
    ensures from < k <= upto ==> Relogged(log, hist, from, upto)[k] == hist[k - 1]
    ensures k in log && !(from < k <= upto) ==> Relogged(log, hist, from, upto)[k] == log[k]
    decreases upto
  {
    if from < upto {
      ReloggedAt(log, hist, from, upto - 1, k);
    }
  }

  // Log entries the store already has for operations still to come.
  function InTheWay(s: Store, upto: nat): set<nat> {
    set k | k in s.log && s.seqNum < k <= upto
  }

  // A follower that stands at a point of the history receives the rest of it,
  // up to some point. It applies and logs all of it if and only if its log has
  // no entry in the way; otherwise it stops with a conflict right before the
  // first such entry.
  lemma {:induction false} DeliverOutcome(base: Tables, s: Store, hist: seq<Op>, upto: nat)
    requires Numbered(hist) && Replays(base, hist)
    requires s.seqNum <= upto <= |hist|
    requires s.tables == StateAt(base, hist, s.seqNum)
    ensures Deliver(s, hist[s.seqNum..upto]) ==
      if InTheWay(s, upto) == {} then Delivery(Advanced(base, s, hist, upto), None)
      else
        var first := Least(InTheWay(s, upto));
        Delivery(Advanced(base, s, hist, first - 1), Some(Failure(first, SequenceConflict)))
    decreases upto
  {
    hide StateAt, SinkApply, Deliver, Advanced;
    if upto == s.seqNum {
      DeliverNothing(base, s, hist);
    } else {
      DeliverOutcome(base, s, hist, upto - 1);
      InTheWayGrows(s, upto);
      DeliverNext(base, s, hist, upto);
    }
  }

  lemma {:induction false} DeliverNothing(base: Tables, s: Store, hist: seq<Op>)
    requires s.seqNum <= |hist| && s.tables == StateAt(base, hist, s.seqNum)
    ensures InTheWay(s, s.seqNum) == {}
    ensures Deliver(s, hist[s.seqNum..s.seqNum]) == Delivery(Advanced(base, s, hist, s.seqNum), None)
  {
  }

  lemma {:induction false} InTheWayGrows(s: Store, upto: nat)
    requires s.seqNum < upto
    ensures InTheWay(s, upto) == InTheWay(s, upto - 1) + if upto in s.log then {upto} else {}
    ensures InTheWay(s, upto - 1) != {} ==> Least(InTheWay(s, upto)) == Least(InTheWay(s, upto - 1))
    ensures InTheWay(s, upto - 1) == {} && upto in s.log ==> Least(InTheWay(s, upto)) == upto
  {
  }

  // One more operation arrives.
  lemma {:induction false} DeliverNext(base: Tables, s: Store, hist: seq<Op>, upto: nat)
    requires Numbered(hist) && Replays(base, hist)
    requires s.seqNum < upto <= |hist|
    ensures
      var before := Deliver(s, hist[s.seqNum..upto - 1]);
      && (before.failed.Some? ==> Deliver(s, hist[s.seqNum..upto]) == before)
      && (before == Delivery(Advanced(base, s, hist, upto - 1), None) ==>
          Deliver(s, hist[s.seqNum..upto]) ==
          if upto in s.log then Delivery(before.store, Some(Failure(upto, SequenceConflict)))
          else Delivery(Advanced(base, s, hist, upto), None))
  {
    hide StateAt, SinkApply, Replays;
    var ops := hist[s.seqNum..upto];
    assert ops[..|ops| - 1] == hist[s.seqNum..upto - 1] && ops[|ops| - 1] == hist[upto - 1];
    var at := Advanced(base, s, hist, upto - 1);
    FollowerApply(base, at, hist);
    ReloggedAt(s.log, hist, s.seqNum, upto - 1, upto);
  }

  // ---------------------------------------------------------------- the primary alone

  // A run of writes at the primary: each succeeds or is rolled back.
  function Writes(s: Store, ops: seq<Op>): Store {
    if ops == [] then s
    else
      var before := Writes(s, ops[..|ops| - 1]);
      match SinkApply(before, ops[|ops| - 1], false)
      case Ok(r) => r.0
      case Err(_) => before
  }

  // The log in sequence order.
  function LogSeq(s: Store): seq<Op> {
    Since(s.log, 1)
  }

  ghost predicate PrimaryLog(base: Tables, s: Store, hist: seq<Op>) {
    && Numbered(hist) && Replays(base, hist)
    && s.seqNum == |hist|
    && (forall k :: k in s.log <==> 1 <= k <= |hist|)
    && (forall k :: 1 <= k <= |hist| ==> s.log[k] == hist[k - 1])
    && s.tables == StateAt(base, hist, |hist|)
  }

  // One write keeps the primary's log invariant: it appends one entry or changes nothing.
  lemma {:induction false} WriteKeepsPrimaryLog(base: Tables, s: Store, hist: seq<Op>, op: Op)
    requires PrimaryLog(base, s, hist)
    requires SinkApply(s, op, false).Ok?
    ensures PrimaryLog(base, SinkApply(s, op, false).value.0, hist + [SinkApply(s, op, false).value.1])
    ensures SinkApply(s, op, false).value.1 == op.(seqNum := |hist| + 1)
  {
    hide Replays, StateAt;
    ReplayExtends(base, hist, op.(seqNum := |hist| + 1));
  }

  // A write at the primary is accepted if and only if the tables do not refuse it.
  lemma {:induction false} PrimaryAcceptsIff(base: Tables, s: Store, hist: seq<Op>, op: Op)
    requires PrimaryLog(base, s, hist)
    ensures SinkApply(s, op, false).Ok? <==> !Refused(s.tables, op)
  {
    hide Replays, StateAt, SinkApply, Refused;
    AcceptedIff(s, op, false);
  }

  // What the log should hold after a run of writes: those that were not refused
  // in their turn, numbered in order.
  ghost function Logged(base: Tables, ops: seq<Op>): seq<Op> {
    if ops == [] then []
    else
      var before, op := Logged(base, ops[..|ops| - 1]), ops[|ops| - 1];
      if Refused(StateAt(base, before, |before|), op) then before else before + [op.(seqNum := |before| + 1)]
  }

  // From a fresh database, after any mix of successful and refused writes: the
  // log holds exactly the writes that were not refused, under the numbers
  // 1..counter, in order, every entry replays, and the tables are the fold of
  // the log over the base.
  lemma {:induction false} PrimaryLogInvariant(base: Tables, ops: seq<Op>)
    ensures
      var s := Writes(Store(base, map[], 0), ops);
      && LogSeq(s) == Logged(base, ops) && |LogSeq(s)| == s.seqNum
      && PrimaryLog(base, s, LogSeq(s))
  {
    hide Writes, Logged;
    var s := Writes(Store(base, map[], 0), ops);
    var hist := Logged(base, ops);
    WritesLogged(base, ops);
    SinceSlice(s.log, hist, 1, |hist|);
    assert hist[0..|hist|] == hist;
  }

  lemma {:induction false} WritesLogged(base: Tables, ops: seq<Op>)
    ensures PrimaryLog(base, Writes(Store(base, map[], 0), ops), Logged(base, ops))
  {
    hide Replays, StateAt, SinkApply, Refused;
    if ops == [] {
      FreshLog(base);
    } else {
      WritesLogged(base, ops[..|ops| - 1]);
      var s, hist, op := Writes(Store(base, map[], 0), ops[..|ops| - 1]), Logged(base, ops[..|ops| - 1]), ops[|ops| - 1];
      PrimaryAcceptsIff(base, s, hist, op);
      if SinkApply(s, op, false).Ok? {
        WriteKeepsPrimaryLog(base, s, hist, op);
      }
    }
  }

  lemma {:induction false} FreshLog(base: Tables)
    ensures PrimaryLog(base, Store(base, map[], 0), [])
  {
  }
}
