// Concrete runs on which replication goes wrong, one for each condition of a
// sound step that the code does not check.
module ClusterExamples {
  import opened Wrappers
  import opened Tables
  import opened LogStore
  import opened Snapshots
  import opened Cluster

  const TOKEN := TokenRow(Token("a", "b", []))
  const FIRST := Op(1, OpCreate, TOKEN)
  const WITH_TOKEN := Tables(map[], map[], map["a" := TOKEN.token])

  const DONE := Store(WITH_TOKEN, map[1 := FIRST], 1)
  const FRESH := Node(Store(EMPTY, map[], 0), None, Idle)
  const SENDING := FRESH.(tx := Some(Tx(DONE, FIRST, {1})))
  const SENT := FRESH.(tx := Some(Tx(DONE, FIRST, {})))

  function Streaming(n: Node, out: seq<Op>, live: seq<Op>): Node {
    n.(follow := Following(Sub(0, out, [], live)))
  }

  function Pair(p: Node, f: Node, hist: seq<Op>): Cluster {
    Cluster(0, map[0 := p, 1 := f], hist)
  }

  lemma {:induction false} WritesToken()
    ensures SinkApply(FRESH.store, Op(0, OpCreate, TOKEN), false) == Ok((DONE, FIRST))
    ensures SinkApply(FRESH.store, FIRST, true) == Ok((DONE, FIRST))
  {
  }

  lemma {:induction false} Begin()
    ensures
      var cl, e := Pair(FRESH, FRESH, []), Subscribe(1, 0);
      Enabled(cl, e) && Next(cl, e) == Pair(FRESH, Streaming(FRESH, [], []), [])
  {
    assert Since(map[], 1) == [];
  }

  lemma {:induction false} OpenWrite()
    ensures
      var cl, e := Pair(FRESH, Streaming(FRESH, [], []), []), Write(OpCreate, TOKEN);
      Enabled(cl, e) && Next(cl, e) == Pair(SENDING, Streaming(FRESH, [], []), [FIRST])
  {
    WritesToken();
    assert Subscribers(Pair(FRESH, Streaming(FRESH, [], []), []), 0) == {1};
  }

  lemma {:induction false} SendIt()
    ensures
      var cl, e := Pair(SENDING, Streaming(FRESH, [], []), [FIRST]), Send(0, 1);
      Enabled(cl, e) && Next(cl, e) == Pair(SENT, Streaming(FRESH, [], [FIRST]), [FIRST])
  {
    var cl, e := Pair(SENDING, Streaming(FRESH, [], []), [FIRST]), Send(0, 1);
    assert SENDING.tx.value.pending - {1} == {};
    assert [] + [FIRST] == [FIRST];
    assert Next(cl, e).nodes == map[0 := SENT, 1 := Streaming(FRESH, [], [FIRST])];
  }

  lemma {:induction false} PumpIt()
    ensures
      var cl, e := Pair(SENT, Streaming(FRESH, [], [FIRST]), [FIRST]), PumpLive(1);
      Enabled(cl, e) && Next(cl, e) == Pair(SENT, Streaming(FRESH, [FIRST], []), [FIRST])
  {
    var cl, e := Pair(SENT, Streaming(FRESH, [], [FIRST]), [FIRST]), PumpLive(1);
    assert [] + [[FIRST][0]] == [FIRST] && [FIRST][1..] == [];
    assert Next(cl, e).nodes == map[0 := SENT, 1 := Streaming(FRESH, [FIRST], [])];
  }

  lemma {:induction false} ReceiveIt()
    ensures
      var cl, e := Pair(SENT, Streaming(FRESH, [FIRST], []), [FIRST]), Receive(1);
      Enabled(cl, e) && Next(cl, e) == Pair(SENT, Streaming(SENT, [], []), [FIRST])
  {
    var cl, e := Pair(SENT, Streaming(FRESH, [FIRST], []), [FIRST]), Receive(1);
    WritesToken();
    assert Subscribers(cl, 1) == {};
    assert [FIRST][1..] == [];
    assert Next(cl, e).nodes == map[0 := SENT, 1 := Streaming(SENT, [], [])];
  }

  lemma {:induction false} CommitIt()
    ensures
      var cl, e := Pair(SENT, Streaming(SENT, [], []), [FIRST]), Commit(1);
      Enabled(cl, e) && Next(cl, e) == Pair(SENT, Streaming(FRESH.(store := DONE), [], []), [FIRST])
  {
  }

  lemma {:induction false} AbortIt()
    ensures
      var cl, e := Pair(SENT, Streaming(FRESH.(store := DONE), [], []), [FIRST]), Abort(0);
      Enabled(cl, e) && Next(cl, e) == Pair(FRESH, Streaming(FRESH.(store := DONE), [], []), [])
  {
    assert [FIRST][..0] == [];
  }

  // Emit precedes Commit. The follower receives and commits the first write,
  // then the primary's own commit fails: the follower has a row that the
  // primary never had, and is ahead of it.
  lemma {:induction false} EmitBeforeCommitDiverges()
    ensures
      var cl := Pair(FRESH, FRESH, []);
      var es := [Subscribe(1, 0), Write(OpCreate, TOKEN), Send(0, 1), PumpLive(1), Receive(1), Commit(1), Abort(0)];
      && Init(EMPTY, cl) && Run(cl, es)
      && After(cl, es) == Pair(FRESH, Streaming(FRESH.(store := DONE), [], []), [])
      && !Inv(EMPTY, After(cl, es))
  {
    hide Enabled, Next, Inv, Init, Run, After, Pair, Streaming;
    var es := [Subscribe(1, 0), Write(OpCreate, TOKEN), Send(0, 1), PumpLive(1), Receive(1), Commit(1), Abort(0)];
    var end := Pair(FRESH, Streaming(FRESH.(store := DONE), [], []), []);
    StartsAndEnds(es, end);
    EndsDiverged(es);
    PumpIt();
    RunOne(Pair(SENT, Streaming(FRESH, [], [FIRST]), [FIRST]), es, 3, end);
    SendIt();
    RunOne(Pair(SENDING, Streaming(FRESH, [], []), [FIRST]), es, 2, end);
    OpenWrite();
    RunOne(Pair(FRESH, Streaming(FRESH, [], []), []), es, 1, end);
    Begin();
    RunOne(Pair(FRESH, FRESH, []), es, 0, end);
    assert es[0..] == es;
    FollowerAlone();
  }

  lemma {:induction false} EndsDiverged(es: seq<Event>)
    requires |es| == 7 && es[4] == Receive(1) && es[5] == Commit(1) && es[6] == Abort(0)
    ensures
      var cl := Pair(SENT, Streaming(FRESH, [FIRST], []), [FIRST]);
      Run(cl, es[4..]) && After(cl, es[4..]) == Pair(FRESH, Streaming(FRESH.(store := DONE), [], []), [])
  {
    hide Enabled, Next, Run, After, Pair, Streaming;
    var end := Pair(FRESH, Streaming(FRESH.(store := DONE), [], []), []);
    StartsAndEnds(es, end);
    AbortIt();
    RunOne(Pair(SENT, Streaming(FRESH.(store := DONE), [], []), [FIRST]), es, 6, end);
    CommitIt();
    RunOne(Pair(SENT, Streaming(SENT, [], []), [FIRST]), es, 5, end);
    ReceiveIt();
    RunOne(Pair(SENT, Streaming(FRESH, [FIRST], []), [FIRST]), es, 4, end);
  }

  lemma {:induction false} StartsAndEnds(es: seq<Event>, end: Cluster)
    requires |es| == 7
    ensures Init(EMPTY, Pair(FRESH, FRESH, [])) && Run(end, es[7..]) && After(end, es[7..]) == end
  {
  }

  lemma {:induction false} FollowerAlone()
    ensures !Inv(EMPTY, Pair(FRESH, Streaming(FRESH.(store := DONE), [], []), []))
  {
    var cl := Pair(FRESH, Streaming(FRESH.(store := DONE), [], []), []);
    assert 1 in cl.nodes && !NodeOk(EMPTY, cl.hist, cl.nodes[1]);
  }

  lemma {:induction false} RunOne(cl: Cluster, es: seq<Event>, i: nat, end: Cluster)
    requires i < |es| && Enabled(cl, es[i])
    requires Run(Next(cl, es[i]), es[i + 1..]) && After(Next(cl, es[i]), es[i + 1..]) == end
    ensures Run(cl, es[i..]) && After(cl, es[i..]) == end
  {
    assert es[i..][1..] == es[i + 1..];
  }

  // ---------------------------------------------------------------- runs in pieces

  lemma {:induction false} RunSingle(cl: Cluster, e: Event)
    requires Enabled(cl, e)
    ensures Run(cl, [e]) && After(cl, [e]) == Next(cl, e)
  {
    hide Enabled, Next;
    assert [e][1..] == [];
  }

  // A write nobody is subscribed to, and its commit.
  lemma {:induction false} WriteOne(cl: Cluster, row: Row, s: Store, op: Op)
    requires cl.primary in cl.nodes && cl.nodes[cl.primary].tx.None? && Subscribers(cl, cl.primary) == {}
    requires SinkApply(cl.nodes[cl.primary].store, Op(0, OpCreate, row), false) == Ok((s, op))
    ensures
      var es := [Write(OpCreate, row), Commit(cl.primary)];
      Run(cl, es) && After(cl, es) ==
        WithNode(cl, cl.primary, cl.nodes[cl.primary].(store := s)).(hist := cl.hist + [op])
  {
    hide SinkApply, Since;
    var e0, e1 := Write(OpCreate, row), Commit(cl.primary);
    RunSingle(cl, e0);
    var mid := Next(cl, e0);
    RunSingle(mid, e1);
    RunConcat(cl, [e0], [e1]);
    assert [e0] + [e1] == [e0, e1];
    assert Next(mid, e1).nodes ==
      WithNode(cl, cl.primary, cl.nodes[cl.primary].(store := s)).nodes;
  }

  // A follower without subscribers takes the next operation of its preload.
  lemma {:induction false} TakeOne(cl: Cluster, id: NodeId, s: Store)
    requires IsFollowing(cl, id) && cl.nodes[id].tx.None? && Subscribers(cl, id) == {}
    requires cl.nodes[id].follow.sub.out == [] && cl.nodes[id].follow.sub.preload != []
    requires SinkApply(cl.nodes[id].store, cl.nodes[id].follow.sub.preload[0], true) ==
      Ok((s, cl.nodes[id].follow.sub.preload[0]))
    ensures
      var es, sub := [PumpPreload(id), Receive(id), Commit(id)], cl.nodes[id].follow.sub;
      Run(cl, es) && After(cl, es) ==
        WithNode(cl, id, Node(s, None, Following(sub.(preload := sub.preload[1..]))))
  {
    hide SinkApply, Since;
    var n, sub := cl.nodes[id], cl.nodes[id].follow.sub;
    var op := sub.preload[0];
    var e0, e1, e2 := PumpPreload(id), Receive(id), Commit(id);
    assert [] + [op] == [op] && [op][1..] == [];
    RunSingle(cl, e0);
    var cl1 := WithNode(cl, id, n.(follow := Following(sub.(out := [op], preload := sub.preload[1..]))));
    assert Next(cl, e0) == cl1;
    forall other ensures other !in Subscribers(cl1, id) {
      assert other !in Subscribers(cl, id);
    }
    assert Subscribers(cl1, id) == {};
    assert Opened(cl1, id, op, true) == Tx(s, op, {});
    RunSingle(cl1, e1);
    var rest := Following(sub.(preload := sub.preload[1..]));
    var cl2 := WithNode(cl, id, Node(n.store, Some(Tx(s, op, {})), rest));
    assert Next(cl1, e1).nodes == cl2.nodes;
    RunSingle(cl2, e2);
    assert Next(cl2, e2).nodes == WithNode(cl, id, Node(s, None, rest)).nodes;
    RunConcat(cl, [e0], [e1]);
    RunConcat(cl, [e0] + [e1], [e2]);
    assert [e0] + [e1] + [e2] == [e0, e1, e2];
  }

  lemma {:induction false} Joins(cl: Cluster, id: NodeId, source: NodeId, preload: seq<Op>)
    requires id in cl.nodes && source in cl.nodes && id != source && id != cl.primary
    requires cl.nodes[id].follow.Idle? && cl.nodes[id].tx.None? && cl.nodes[source].tx.None?
    requires cl.nodes[id].store.seqNum <= cl.nodes[source].store.seqNum
    requires Since(cl.nodes[source].store.log, cl.nodes[id].store.seqNum + 1) == preload
    ensures
      var e := Subscribe(id, source);
      Run(cl, [e]) && After(cl, [e]) ==
        WithNode(cl, id, cl.nodes[id].(follow := Following(Sub(source, [], preload, []))))
  {
    hide Since;
    RunSingle(cl, Subscribe(id, source));
  }

  // ---------------------------------------------------------------- a primary and three followers

  const OTHER := TokenRow(Token("b", "c", []))
  const SECOND := Op(2, OpCreate, OTHER)
  const BOTH := Tables(map[], map[], map["a" := TOKEN.token, "b" := OTHER.token])
  const ALL := Store(BOTH, map[1 := FIRST, 2 := SECOND], 2)

  // Loaded from a snapshot at 2 by a node that had logged only operation 1.
  const HOLED := Store(BOTH, map[1 := FIRST], 2)

  function Quiet(s: Store): Node {
    Node(s, None, Idle)
  }

  function Four(p: Node, a: Node, b: Node, c: Node, hist: seq<Op>): Cluster {
    Cluster(0, map[0 := p, 1 := a, 2 := b, 3 := c], hist)
  }

  lemma {:induction false} FourWith(p: Node, a: Node, b: Node, c: Node, hist: seq<Op>, n: Node)
    ensures WithNode(Four(p, a, b, c, hist), 0, n) == Four(n, a, b, c, hist)
    ensures WithNode(Four(p, a, b, c, hist), 1, n) == Four(p, n, b, c, hist)
    ensures WithNode(Four(p, a, b, c, hist), 2, n) == Four(p, a, n, c, hist)
    ensures WithNode(Four(p, a, b, c, hist), 3, n) == Four(p, a, b, n, hist)
  {
    var cl := Four(p, a, b, c, hist);
    assert cl.nodes[0 := n] == Four(n, a, b, c, hist).nodes;
    assert cl.nodes[1 := n] == Four(p, n, b, c, hist).nodes;
    assert cl.nodes[2 := n] == Four(p, a, n, c, hist).nodes;
    assert cl.nodes[3 := n] == Four(p, a, b, n, hist).nodes;
  }

  lemma {:induction false} FourSubscribers(p: Node, a: Node, b: Node, c: Node, hist: seq<Op>, id: NodeId)
    requires !FollowsFrom(p, id) && !FollowsFrom(a, id) && !FollowsFrom(b, id) && !FollowsFrom(c, id)
    ensures Subscribers(Four(p, a, b, c, hist), id) == {}
  {
  }

  lemma {:induction false} WritesOther()
    ensures SinkApply(DONE, Op(0, OpCreate, OTHER), false) == Ok((ALL, SECOND))
    ensures SinkApply(DONE, SECOND, true) == Ok((ALL, SECOND))
  {
    assert DONE.tables.tokens["b" := OTHER.token] == BOTH.tokens;
    assert DONE.log[2 := SECOND] == ALL.log;
  }

  lemma {:induction false} Queries()
    ensures Since(DONE.log, 1) == [FIRST] && Since(DONE.log, 2) == []
    ensures Since(ALL.log, 1) == [FIRST, SECOND]
  {
    hide Since;
    SinceEnd(DONE.log, 2);
    SinceStep(DONE.log, 1, 1);
    SinceEnd(ALL.log, 3);
    SinceStep(ALL.log, 2, 2);
    SinceStep(ALL.log, 1, 1);
    assert [FIRST] + [] == [FIRST] && [FIRST] + ([SECOND] + []) == [FIRST, SECOND];
  }

  const FRESH_FOUR := Four(FRESH, FRESH, FRESH, FRESH, [])

  // The primary writes operation 1, and node 1 takes it and disconnects.
  const PREFIX: seq<Event> :=
    [Write(OpCreate, TOKEN), Commit(0)] + [Subscribe(1, 0)] +
    [PumpPreload(1), Receive(1), Commit(1)] + [Disconnect(1)]

  lemma {:induction false} AfterPrefix()
    ensures Init(EMPTY, FRESH_FOUR) && Run(FRESH_FOUR, PREFIX)
    ensures After(FRESH_FOUR, PREFIX) == Four(Quiet(DONE), Quiet(DONE), FRESH, FRESH, [FIRST])
  {
    hide Run, After, Enabled, Next, Since, SinkApply;
    WritesToken();
    FirstWritten();
    var es := [Write(OpCreate, TOKEN), Commit(0)] + [Subscribe(1, 0)];
    var following := FRESH.(follow := Following(Sub(0, [], [FIRST], [])));
    var caughtUp := Node(DONE, None, Following(Sub(0, [], [], [])));
    var cl2 := Four(Quiet(DONE), following, FRESH, FRESH, [FIRST]);
    FourSubscribers(Quiet(DONE), following, FRESH, FRESH, [FIRST], 1);
    TakeOne(cl2, 1, DONE);
    FourWith(Quiet(DONE), following, FRESH, FRESH, [FIRST], caughtUp);
    assert [FIRST][1..] == [];
    RunConcat(FRESH_FOUR, es, [PumpPreload(1), Receive(1), Commit(1)]);
    var cl3 := Four(Quiet(DONE), caughtUp, FRESH, FRESH, [FIRST]);
    Leaves(cl3, 1);
    FourWith(Quiet(DONE), caughtUp, FRESH, FRESH, [FIRST], Quiet(DONE));
    RunConcat(FRESH_FOUR, es + [PumpPreload(1), Receive(1), Commit(1)], [Disconnect(1)]);
  }

  lemma {:induction false} FirstWritten()
    ensures
      var es := [Write(OpCreate, TOKEN), Commit(0)] + [Subscribe(1, 0)];
      var following := FRESH.(follow := Following(Sub(0, [], [FIRST], [])));
      Run(FRESH_FOUR, es) && After(FRESH_FOUR, es) == Four(Quiet(DONE), following, FRESH, FRESH, [FIRST])
  {
    hide Run, After, Enabled, Next, Since, SinkApply;
    WritesToken();
    Queries();
    var following := FRESH.(follow := Following(Sub(0, [], [FIRST], [])));
    FourSubscribers(FRESH, FRESH, FRESH, FRESH, [], 0);
    WriteOne(FRESH_FOUR, TOKEN, DONE, FIRST);
    FourWith(FRESH, FRESH, FRESH, FRESH, [], Quiet(DONE));
    assert [] + [FIRST] == [FIRST];
    var cl1 := Four(Quiet(DONE), FRESH, FRESH, FRESH, [FIRST]);
    assert After(FRESH_FOUR, [Write(OpCreate, TOKEN), Commit(0)]) == cl1;
    Joins(cl1, 1, 0, [FIRST]);
    FourWith(Quiet(DONE), FRESH, FRESH, FRESH, [FIRST], following);
    RunConcat(FRESH_FOUR, [Write(OpCreate, TOKEN), Commit(0)], [Subscribe(1, 0)]);
  }

  lemma {:induction false} Leaves(cl: Cluster, id: NodeId)
    requires IsFollowing(cl, id)
    ensures Run(cl, [Disconnect(id)])
    ensures After(cl, [Disconnect(id)]) == WithNode(cl, id, cl.nodes[id].(follow := Idle))
  {
    RunSingle(cl, Disconnect(id));
  }

  lemma {:induction false} IsAhead(cl: Cluster, id: NodeId, source: NodeId)
    requires id in cl.nodes && source in cl.nodes && id != source && id != cl.primary
    requires cl.nodes[id].follow.Idle? && cl.nodes[id].tx.None? && cl.nodes[source].tx.None?
    requires cl.nodes[id].store.seqNum > cl.nodes[source].store.seqNum
    ensures Run(cl, [Subscribe(id, source)])
    ensures After(cl, [Subscribe(id, source)]) == WithNode(cl, id, cl.nodes[id].(follow := Ahead(source)))
  {
    hide Since;
    RunSingle(cl, Subscribe(id, source));
  }

  // Take a snapshot of the source and load it.
  lemma {:induction false} Reloads(cl: Cluster, id: NodeId, source: NodeId, items: seq<Row>, s: Store)
    requires id in cl.nodes && source in cl.nodes && id != cl.primary && id != source
    requires cl.nodes[id].follow == Ahead(source) && cl.nodes[id].tx.None? && cl.nodes[source].tx.None?
    requires Listing(items, cl.nodes[source].store.tables)
    requires SinkLoad(cl.nodes[id].store, Snapshot(cl.nodes[source].store.seqNum, items)) == Ok(s)
    ensures
      var es := [TakeSnapshot(id, source, items), LoadSnapshot(id)];
      Run(cl, es) && After(cl, es) == WithNode(cl, id, Node(s, None, Idle))
  {
    hide SinkLoad, Listing, Since;
    var e0, e1 := TakeSnapshot(id, source, items), LoadSnapshot(id);
    RunSingle(cl, e0);
    var mid := Next(cl, e0);
    RunSingle(mid, e1);
    RunConcat(cl, [e0], [e1]);
    assert [e0] + [e1] == [e0, e1];
    assert Next(mid, e1).nodes == WithNode(cl, id, Node(s, None, Idle)).nodes;
  }

  // ---------------------------------------------------------------- a source with a hole

  // Node 1 is at 1 and asks node 2, which is at 0: past the horizon. Before the
  // snapshot is taken, node 2 catches up to 2. Node 1 then stands at 2 over a
  // log that ends at 1. Node 3 follows node 1 and never gets operation 2.
  const HOLE_RUN: seq<Event> :=
    PREFIX + [Subscribe(1, 2)] + [Write(OpCreate, OTHER), Commit(0)] + [Subscribe(2, 0)] +
    [PumpPreload(2), Receive(2), Commit(2)] + [PumpPreload(2), Receive(2), Commit(2)] +
    [TakeSnapshot(1, 2, [TOKEN, OTHER]), LoadSnapshot(1)] + [Subscribe(3, 1)] +
    [PumpPreload(3), Receive(3), Commit(3)]

  const SYNCED := Node(ALL, None, Following(Sub(0, [], [], [])))

  lemma {:induction false} SnapshotSourceServesGap()
    ensures Init(EMPTY, FRESH_FOUR) && Run(FRESH_FOUR, HOLE_RUN)
    ensures
      var end := After(FRESH_FOUR, HOLE_RUN);
      var last := Node(DONE, None, Following(Sub(1, [], [], [])));
      && end == Four(Quiet(ALL), Quiet(HOLED), SYNCED, last, [FIRST, SECOND])
      && Undelivered(3, last.follow.sub, end.nodes[1]) == [] && last.store.seqNum < end.nodes[1].store.seqNum
      && !Inv(EMPTY, end)
  {
    hide Run, After, Enabled, Next, Since, SinkApply, Init, Inv;
    AfterPrefix();
    SourceCatchesUp();
    HoleServed();
    var first, second := PREFIX, [Subscribe(1, 2)] + [Write(OpCreate, OTHER), Commit(0)] + [Subscribe(2, 0)] +
      [PumpPreload(2), Receive(2), Commit(2)] + [PumpPreload(2), Receive(2), Commit(2)];
    var third := [TakeSnapshot(1, 2, [TOKEN, OTHER]), LoadSnapshot(1)] + [Subscribe(3, 1)] +
      [PumpPreload(3), Receive(3), Commit(3)];
    RunConcat(FRESH_FOUR, first, second);
    RunConcat(FRESH_FOUR, first + second, third);
    assert HOLE_RUN == first + second + third;
    GapBreaks();
  }

  lemma {:induction false} GapBreaks()
    ensures
      var last := Node(DONE, None, Following(Sub(1, [], [], [])));
      !Inv(EMPTY, Four(Quiet(ALL), Quiet(HOLED), SYNCED, last, [FIRST, SECOND]))
  {
    var last := Node(DONE, None, Following(Sub(1, [], [], [])));
    var cl := Four(Quiet(ALL), Quiet(HOLED), SYNCED, last, [FIRST, SECOND]);
    assert IsFollowing(cl, 3);
    assert |Undelivered(3, last.follow.sub, Quiet(HOLED))| == 0 && |cl.hist[1..2]| == 1;
    assert !LinkOk(cl, 3);
  }

  lemma {:induction false} SourceCatchesUp()
    ensures
      var es := [Subscribe(1, 2)] + [Write(OpCreate, OTHER), Commit(0)] + [Subscribe(2, 0)] +
        [PumpPreload(2), Receive(2), Commit(2)] + [PumpPreload(2), Receive(2), Commit(2)];
      var cl := Four(Quiet(DONE), Quiet(DONE), FRESH, FRESH, [FIRST]);
      && Run(cl, es)
      && After(cl, es) == Four(Quiet(ALL), Quiet(DONE).(follow := Ahead(2)), SYNCED, FRESH, [FIRST, SECOND])
  {
    hide Run, After, Enabled, Next, Since, SinkApply;
    WritesToken();
    WritesOther();
    SecondWritten();
    var ahead := Quiet(DONE).(follow := Ahead(2));
    var cl := Four(Quiet(DONE), Quiet(DONE), FRESH, FRESH, [FIRST]);
    var es := [Subscribe(1, 2)] + [Write(OpCreate, OTHER), Commit(0)] + [Subscribe(2, 0)];
    var joined := FRESH.(follow := Following(Sub(0, [], [FIRST, SECOND], [])));
    var cl3 := Four(Quiet(ALL), ahead, joined, FRESH, [FIRST, SECOND]);
    FourSubscribers(Quiet(ALL), ahead, joined, FRESH, [FIRST, SECOND], 2);
    TakeOne(cl3, 2, DONE);
    assert [FIRST, SECOND][1..] == [SECOND] && [SECOND][1..] == [];
    var half := Node(DONE, None, Following(Sub(0, [], [SECOND], [])));
    FourWith(Quiet(ALL), ahead, joined, FRESH, [FIRST, SECOND], half);
    var take := [PumpPreload(2), Receive(2), Commit(2)];
    RunConcat(cl, es, take);
    var cl4 := Four(Quiet(ALL), ahead, half, FRESH, [FIRST, SECOND]);
    FourSubscribers(Quiet(ALL), ahead, half, FRESH, [FIRST, SECOND], 2);
    TakeOne(cl4, 2, ALL);
    FourWith(Quiet(ALL), ahead, half, FRESH, [FIRST, SECOND], SYNCED);
    RunConcat(cl, es + take, take);
  }

  lemma {:induction false} SecondWritten()
    ensures
      var es := [Subscribe(1, 2)] + [Write(OpCreate, OTHER), Commit(0)] + [Subscribe(2, 0)];
      var cl := Four(Quiet(DONE), Quiet(DONE), FRESH, FRESH, [FIRST]);
      var joined := FRESH.(follow := Following(Sub(0, [], [FIRST, SECOND], [])));
      && Run(cl, es)
      && After(cl, es) == Four(Quiet(ALL), Quiet(DONE).(follow := Ahead(2)), joined, FRESH, [FIRST, SECOND])
  {
    hide Run, After, Enabled, Next, Since, SinkApply;
    WritesOther();
    Queries();
    var ahead := Quiet(DONE).(follow := Ahead(2));
    var cl := Four(Quiet(DONE), Quiet(DONE), FRESH, FRESH, [FIRST]);
    var es1, es2 := [Subscribe(1, 2)], [Write(OpCreate, OTHER), Commit(0)];
    IsAhead(cl, 1, 2);
    FourWith(Quiet(DONE), Quiet(DONE), FRESH, FRESH, [FIRST], ahead);
    var cl1 := Four(Quiet(DONE), ahead, FRESH, FRESH, [FIRST]);
    FourSubscribers(Quiet(DONE), ahead, FRESH, FRESH, [FIRST], 0);
    WriteOne(cl1, OTHER, ALL, SECOND);
    FourWith(Quiet(DONE), ahead, FRESH, FRESH, [FIRST], Quiet(ALL));
    assert [FIRST] + [SECOND] == [FIRST, SECOND];
    var cl2 := Four(Quiet(ALL), ahead, FRESH, FRESH, [FIRST, SECOND]);
    assert After(cl1, es2) == cl2;
    RunConcat(cl, es1, es2);
    var joined := FRESH.(follow := Following(Sub(0, [], [FIRST, SECOND], [])));
    Joins(cl2, 2, 0, [FIRST, SECOND]);
    FourWith(Quiet(ALL), ahead, FRESH, FRESH, [FIRST, SECOND], joined);
    RunConcat(cl, es1 + es2, [Subscribe(2, 0)]);
  }

  lemma {:induction false} LoadsBoth()
    ensures Listing([TOKEN, OTHER], BOTH)
    ensures SinkLoad(DONE, Snapshot(2, [TOKEN, OTHER])) == Ok(HOLED)
  {
    assert [TOKEN, OTHER][..1] == [TOKEN] && [TOKEN][..0] == [];
    assert LoadItems(EMPTY, [TOKEN]) == Ok(WITH_TOKEN);
    assert WITH_TOKEN.tokens["b" := OTHER.token] == BOTH.tokens;
  }

  lemma {:induction false} HoleServed()
    ensures
      var es := [TakeSnapshot(1, 2, [TOKEN, OTHER]), LoadSnapshot(1)] + [Subscribe(3, 1)] +
        [PumpPreload(3), Receive(3), Commit(3)];
      var cl := Four(Quiet(ALL), Quiet(DONE).(follow := Ahead(2)), SYNCED, FRESH, [FIRST, SECOND]);
      var last := Node(DONE, None, Following(Sub(1, [], [], [])));
      Run(cl, es) && After(cl, es) == Four(Quiet(ALL), Quiet(HOLED), SYNCED, last, [FIRST, SECOND])
  {
    hide Run, After, Enabled, Next, Since, SinkApply, Listing, SinkLoad;
    WritesToken();
    Queries();
    LoadsBoth();
    var ahead := Quiet(DONE).(follow := Ahead(2));
    var hist := [FIRST, SECOND];
    var cl := Four(Quiet(ALL), ahead, SYNCED, FRESH, hist);
    var es1 := [TakeSnapshot(1, 2, [TOKEN, OTHER]), LoadSnapshot(1)];
    Reloads(cl, 1, 2, [TOKEN, OTHER], HOLED);
    FourWith(Quiet(ALL), ahead, SYNCED, FRESH, hist, Quiet(HOLED));
    var cl1 := Four(Quiet(ALL), Quiet(HOLED), SYNCED, FRESH, hist);
    var joined := FRESH.(follow := Following(Sub(1, [], [FIRST], [])));
    Joins(cl1, 3, 1, [FIRST]);
    FourWith(Quiet(ALL), Quiet(HOLED), SYNCED, FRESH, hist, joined);
    RunConcat(cl, es1, [Subscribe(3, 1)]);
    var cl2 := Four(Quiet(ALL), Quiet(HOLED), SYNCED, joined, hist);
    FourSubscribers(Quiet(ALL), Quiet(HOLED), SYNCED, joined, hist, 3);
    TakeOne(cl2, 3, DONE);
    assert [FIRST][1..] == [];
    FourWith(Quiet(ALL), Quiet(HOLED), SYNCED, joined, hist, Node(DONE, None, Following(Sub(1, [], [], []))));
    RunConcat(cl, es1 + [Subscribe(3, 1)], [PumpPreload(3), Receive(3), Commit(3)]);
  }

  // ---------------------------------------------------------------- a rewound source

  // Node 3 follows node 1, both at 1. Node 1 then asks node 2, which is at 0,
  // and loads its empty snapshot: its subscriber is left ahead of it.
  const REWIND_RUN: seq<Event> :=
    PREFIX + [Subscribe(3, 1)] + [PumpPreload(3), Receive(3), Commit(3)] + [Subscribe(1, 2)] +
    [TakeSnapshot(1, 2, []), LoadSnapshot(1)]

  const REWOUND := Store(EMPTY, map[1 := FIRST], 0)

  lemma {:induction false} SnapshotRewindsUnderSubscriber()
    ensures Init(EMPTY, FRESH_FOUR) && Run(FRESH_FOUR, REWIND_RUN)
    ensures
      var end := After(FRESH_FOUR, REWIND_RUN);
      var sub := Node(DONE, None, Following(Sub(1, [], [], [])));
      && end == Four(Quiet(DONE), Quiet(REWOUND), FRESH, sub, [FIRST])
      && end.nodes[1].store.seqNum < end.nodes[3].store.seqNum
      && !Inv(EMPTY, end)
  {
    hide Run, After, Enabled, Next, Since, SinkApply, Init, Inv;
    AfterPrefix();
    Rewind();
    var rest := [Subscribe(3, 1)] + [PumpPreload(3), Receive(3), Commit(3)] + [Subscribe(1, 2)] +
      [TakeSnapshot(1, 2, []), LoadSnapshot(1)];
    RunConcat(FRESH_FOUR, PREFIX, rest);
    assert REWIND_RUN == PREFIX + rest;
    RewindBreaks();
  }

  lemma {:induction false} RewindBreaks()
    ensures
      var sub := Node(DONE, None, Following(Sub(1, [], [], [])));
      !Inv(EMPTY, Four(Quiet(DONE), Quiet(REWOUND), FRESH, sub, [FIRST]))
  {
    var cl := Four(Quiet(DONE), Quiet(REWOUND), FRESH, Node(DONE, None, Following(Sub(1, [], [], []))), [FIRST]);
    assert IsFollowing(cl, 3) && !LinkOk(cl, 3);
  }

  lemma {:induction false} Rewind()
    ensures
      var es := [Subscribe(3, 1)] + [PumpPreload(3), Receive(3), Commit(3)] + [Subscribe(1, 2)] +
        [TakeSnapshot(1, 2, []), LoadSnapshot(1)];
      var cl := Four(Quiet(DONE), Quiet(DONE), FRESH, FRESH, [FIRST]);
      var sub := Node(DONE, None, Following(Sub(1, [], [], [])));
      Run(cl, es) && After(cl, es) == Four(Quiet(DONE), Quiet(REWOUND), FRESH, sub, [FIRST])
  {
    hide Run, After, Enabled, Next, Since, SinkApply, Listing, SinkLoad;
    WritesToken();
    Queries();
    LoadsNothing();
    var cl := Four(Quiet(DONE), Quiet(DONE), FRESH, FRESH, [FIRST]);
    var joined := FRESH.(follow := Following(Sub(1, [], [FIRST], [])));
    var sub := Node(DONE, None, Following(Sub(1, [], [], [])));
    var take := [PumpPreload(3), Receive(3), Commit(3)];
    Joins(cl, 3, 1, [FIRST]);
    FourWith(Quiet(DONE), Quiet(DONE), FRESH, FRESH, [FIRST], joined);
    var cl1 := Four(Quiet(DONE), Quiet(DONE), FRESH, joined, [FIRST]);
    FourSubscribers(Quiet(DONE), Quiet(DONE), FRESH, joined, [FIRST], 3);
    TakeOne(cl1, 3, DONE);
    assert [FIRST][1..] == [];
    FourWith(Quiet(DONE), Quiet(DONE), FRESH, joined, [FIRST], sub);
    RunConcat(cl, [Subscribe(3, 1)], take);
    var cl2 := Four(Quiet(DONE), Quiet(DONE), FRESH, sub, [FIRST]);
    var ahead := Quiet(DONE).(follow := Ahead(2));
    IsAhead(cl2, 1, 2);
    FourWith(Quiet(DONE), Quiet(DONE), FRESH, sub, [FIRST], ahead);
    RunConcat(cl, [Subscribe(3, 1)] + take, [Subscribe(1, 2)]);
    var cl3 := Four(Quiet(DONE), ahead, FRESH, sub, [FIRST]);
    Reloads(cl3, 1, 2, [], REWOUND);
    FourWith(Quiet(DONE), ahead, FRESH, sub, [FIRST], Quiet(REWOUND));
    RunConcat(cl, [Subscribe(3, 1)] + take + [Subscribe(1, 2)], [TakeSnapshot(1, 2, []), LoadSnapshot(1)]);
  }

  lemma {:induction false} LoadsNothing()
    ensures Listing([], EMPTY)
    ensures SinkLoad(DONE, Snapshot(0, [])) == Ok(REWOUND)
  {
  }

  // ---------------------------------------------------------------- a blocked follower

  // The rewound node goes back to the primary. Its own entry for operation 1 is
  // in the way, and it is where it was: it can try again for ever.
  const RETRY: seq<Event> := [Subscribe(1, 0)] + [PumpPreload(1), RefuseReceive(1)]

  lemma {:induction false} RewoundFollowerBlocked()
    ensures Run(FRESH_FOUR, REWIND_RUN) && Run(FRESH_FOUR, REWIND_RUN + RETRY)
    ensures
      var end := After(FRESH_FOUR, REWIND_RUN + RETRY);
      var sub := Node(DONE, None, Following(Sub(1, [], [], [])));
      && end == After(FRESH_FOUR, REWIND_RUN) == Four(Quiet(DONE), Quiet(REWOUND), FRESH, sub, [FIRST])
      && SinkApply(REWOUND, FIRST, true) == Err(SequenceConflict)
  {
    hide Run, After, Enabled, Next, Since, SinkApply, Init, Inv;
    SnapshotRewindsUnderSubscriber();
    Queries();
    OwnEntryInTheWay();
    var sub := Node(DONE, None, Following(Sub(1, [], [], [])));
    var cl := Four(Quiet(DONE), Quiet(REWOUND), FRESH, sub, [FIRST]);
    var joined := Quiet(REWOUND).(follow := Following(Sub(0, [], [FIRST], [])));
    Joins(cl, 1, 0, [FIRST]);
    FourWith(Quiet(DONE), Quiet(REWOUND), FRESH, sub, [FIRST], joined);
    var cl1 := Four(Quiet(DONE), joined, FRESH, sub, [FIRST]);
    Refuses(cl1, 1);
    FourWith(Quiet(DONE), joined, FRESH, sub, [FIRST], Quiet(REWOUND));
    RunConcat(cl, [Subscribe(1, 0)], [PumpPreload(1), RefuseReceive(1)]);
    RunConcat(FRESH_FOUR, REWIND_RUN, RETRY);
  }

  lemma {:induction false} OwnEntryInTheWay()
    ensures SinkApply(REWOUND, FIRST, true) == Err(SequenceConflict)
  {
  }

  // A follower that cannot apply what it receives leaves.
  lemma {:induction false} Refuses(cl: Cluster, id: NodeId)
    requires IsFollowing(cl, id) && cl.nodes[id].tx.None?
    requires cl.nodes[id].follow.sub.out == [] && cl.nodes[id].follow.sub.preload != []
    requires SinkApply(cl.nodes[id].store, cl.nodes[id].follow.sub.preload[0], true).Err?
    ensures
      var es := [PumpPreload(id), RefuseReceive(id)];
      Run(cl, es) && After(cl, es) == WithNode(cl, id, cl.nodes[id].(follow := Idle))
  {
    hide SinkApply, Since;
    var e0, e1 := PumpPreload(id), RefuseReceive(id);
    RunSingle(cl, e0);
    var mid := Next(cl, e0);
    RunSingle(mid, e1);
    RunConcat(cl, [e0], [e1]);
    assert [e0] + [e1] == [e0, e1];
    assert Next(mid, e1).nodes == WithNode(cl, id, cl.nodes[id].(follow := Idle)).nodes;
  }
}
