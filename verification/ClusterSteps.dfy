// Exactly which steps of the protocol keep the invariant.
module ClusterSteps {
  import opened Wrappers
  import opened Tables
  import opened LogStore
  import opened Snapshots
  import opened Cluster

  // ---------------------------------------------------------------- soundness of a step

  // No node other than `id` has got hold of the operation of its open transaction.
  ghost predicate Unseen(cl: Cluster, id: NodeId)
    requires id in cl.nodes && cl.nodes[id].tx.Some?
  {
    && Subscribers(cl, id) <= cl.nodes[id].tx.value.pending
    && (id == cl.primary ==>
        forall other :: other in cl.nodes && other != id ==> Behind(cl.nodes[other], |cl.hist|))
  }

  // The node knows nothing of operation number `top`.
  ghost predicate Behind(n: Node, top: nat) {
    Emitted(n) < top && top !in n.store.log && (n.follow.Holding? ==> n.follow.snap.seqNum < top)
  }

  // The condition under which a step keeps the invariant; it can be read off
  // the state before the step. The code checks none of it.
  ghost predicate Sound(cl: Cluster, e: Event)
    requires Enabled(cl, e)
  {
    match e
    case Subscribe(node, source) =>
      var n, s := cl.nodes[node].store, cl.nodes[source].store;
      n.seqNum <= s.seqNum ==> Covers(s, n.seqNum + 1)
    case LoadSnapshot(node) =>
      var n := cl.nodes[node];
      InterfacesFirst(n.follow.snap.items) && n.follow.snap.seqNum != n.store.seqNum ==> Subscribers(cl, node) == {}
    case Abort(node) => Unseen(cl, node)
    case _ => true
  }

  // ---------------------------------------------------------------- changing where a node stands

  // A step that changes only one follower's follow state.
  lemma {:induction false} RefollowIff(base: Tables, cl: Cluster, id: NodeId, f: Follow)
    requires Inv(base, cl)
    requires id in cl.nodes && id != cl.primary
    requires !f.Holding? || f == cl.nodes[id].follow
    requires f.Following? ==> f.sub.source in cl.nodes && f.sub.source != id
    ensures Inv(base, WithNode(cl, id, cl.nodes[id].(follow := f))) <==>
      (f.Following? ==> StreamOk(cl.hist, id, cl.nodes[id].(follow := f), cl.nodes[f.sub.source]))
  {
    hide StateAt, HistOk, Agrees, Listing, Covers;
    var n' := cl.nodes[id].(follow := f);
    var cl' := WithNode(cl, id, n');
    forall other | IsFollowing(cl', other) && other != id ensures LinkOk(cl', other) {
      assert IsFollowing(cl, other);
    }
    assert NodeOk(base, cl.hist, n');
    if f.Following? {
      assert IsFollowing(cl', id);
      assert LinkOk(cl', id) <==> StreamOk(cl.hist, id, n', cl.nodes[f.sub.source]);
    }
  }

  lemma {:induction false} SubscribeIff(base: Tables, cl: Cluster, e: Event)
    requires Inv(base, cl)
    requires e.Subscribe? && Enabled(cl, e)
    ensures Inv(base, Next(cl, e)) <==> Sound(cl, e)
  {
    hide StateAt, Since, SinkApply, Replays, Integrity, Listing;
    var n, s := cl.nodes[e.node], cl.nodes[e.source];
    var n' := Subscribed(n, e.source, s);
    RefollowIff(base, cl, e.node, n'.follow);
    assert Next(cl, e) == WithNode(cl, e.node, n'.(follow := n'.follow));
    assert NodeOk(base, cl.hist, s);
    if n.store.seqNum <= s.store.seqNum {
      PreloadExactIff(s.store, cl.hist, n.store.seqNum + 1);
      assert Undelivered(e.node, n'.follow.sub, s) == Since(s.store.log, n.store.seqNum + 1);
    }
  }

  lemma {:induction false} PumpKeeps(base: Tables, cl: Cluster, e: Event)
    requires Inv(base, cl)
    requires (e.PumpPreload? || e.PumpLive?) && Enabled(cl, e)
    ensures Inv(base, Next(cl, e))
  {
    hide StateAt, Since, SinkApply, HistOk, Agrees, Listing, Covers;
    assert LinkOk(cl, e.node);
    PumpLink(cl, e);
    RefollowIff(base, cl, e.node, Next(cl, e).nodes[e.node].follow);
  }

  lemma {:induction false} PumpLink(cl: Cluster, e: Event)
    requires (e.PumpPreload? || e.PumpLive?) && Enabled(cl, e) && LinkOk(cl, e.node)
    ensures
      var sub := cl.nodes[e.node].follow.sub;
      Undelivered(e.node, Next(cl, e).nodes[e.node].follow.sub, cl.nodes[sub.source]) ==
      Undelivered(e.node, sub, cl.nodes[sub.source])
  {
    var sub := cl.nodes[e.node].follow.sub;
    var sub' := Next(cl, e).nodes[e.node].follow.sub;
    assert sub.out + sub.preload + sub.live == sub'.out + sub'.preload + sub'.live;
  }

  lemma {:induction false} LeaveKeeps(base: Tables, cl: Cluster, e: Event)
    requires Inv(base, cl)
    requires (e.Disconnect? || e.RefuseReceive?) && Enabled(cl, e)
    ensures Inv(base, Next(cl, e))
  {
    hide StateAt, Since;
    RefollowIff(base, cl, e.node, Idle);
  }

  lemma {:induction false} TakeSnapshotKeeps(base: Tables, cl: Cluster, e: Event)
    requires Inv(base, cl)
    requires e.TakeSnapshot? && Enabled(cl, e)
    ensures Inv(base, Next(cl, e))
  {
    hide StateAt, Since, SinkApply, HistOk, Agrees, Listing, Covers;
    var cl' := Next(cl, e);
    assert NodeOk(base, cl.hist, cl.nodes[e.node]);
    assert NodeOk(base, cl.hist, cl.nodes[e.source]);
    assert NodeOk(base, cl'.hist, cl'.nodes[e.node]);
    forall other | IsFollowing(cl', other) ensures LinkOk(cl', other) {
      assert IsFollowing(cl, other);
    }
  }

  // Loading a snapshot rewinds a node under its own subscribers.
  lemma {:induction false} LoadSnapshotIff(base: Tables, cl: Cluster, e: Event)
    requires Inv(base, cl)
    requires e.LoadSnapshot? && Enabled(cl, e)
    ensures Inv(base, Next(cl, e)) <==> Sound(cl, e)
  {
    hide StateAt, Since, SinkLoad, Loaded, Listing, InterfacesFirst, HistOk, Agrees, LinkOk, Covers;
    var n := cl.nodes[e.node];
    var cl' := Next(cl, e);
    assert NodeOk(base, cl.hist, n);
    LoadedNode(base, cl.hist, n);
    forall other | IsFollowing(cl', other)
      ensures LinkOk(cl', other) <==>
        (FollowsFrom(cl.nodes[other], e.node) ==> cl'.nodes[e.node].store.seqNum == n.store.seqNum)
    {
      assert IsFollowing(cl, other);
      LoadLinkIff(cl, e, other);
    }
    if Inv(base, cl') {
      forall other | other in Subscribers(cl, e.node) ensures cl'.nodes[e.node].store.seqNum == n.store.seqNum {
        assert IsFollowing(cl', other);
      }
    }
    if Sound(cl, e) {
      forall other | IsFollowing(cl', other) ensures LinkOk(cl', other) {
        assert FollowsFrom(cl.nodes[other], e.node) ==> other in Subscribers(cl, e.node);
      }
    }
  }

  lemma {:induction false} LoadLinkIff(cl: Cluster, e: Event, id: NodeId)
    requires e.LoadSnapshot? && Enabled(cl, e)
    requires IsFollowing(cl, id) && LinkOk(cl, id) && id != e.node
    requires
      var n' := Loaded(cl.nodes[e.node]);
      n'.tx.None? && n'.store.seqNum <= |cl.hist|
    ensures IsFollowing(Next(cl, e), id)
    ensures LinkOk(Next(cl, e), id) <==>
      (FollowsFrom(cl.nodes[id], e.node) ==> Loaded(cl.nodes[e.node]).store.seqNum == cl.nodes[e.node].store.seqNum)
  {
    hide Loaded, Since, SinkApply, Listing;
    var n, n' := cl.nodes[e.node], Loaded(cl.nodes[e.node]);
    var sub := cl.nodes[id].follow.sub;
    if sub.source == e.node {
      assert Undelivered(id, sub, n) == Undelivered(id, sub, n');
      assert |Undelivered(id, sub, n)| == n.store.seqNum - Emitted(cl.nodes[id]);
    }
  }

  lemma {:induction false} LoadedNode(base: Tables, hist: seq<Op>, n: Node)
    requires HistOk(base, hist) && NodeOk(base, hist, n) && n.follow.Holding? && n.tx.None?
    ensures NodeOk(base, hist, Loaded(n))
    ensures Loaded(n).store.seqNum ==
      if InterfacesFirst(n.follow.snap.items) then n.follow.snap.seqNum else n.store.seqNum
    ensures Loaded(n).tx.None? && Loaded(n).follow.Idle?
  {
    ReplayKeepsIntegrity(base, hist, n.follow.snap.seqNum);
    LoadRestoresIff(StateAt(base, hist, n.follow.snap.seqNum), n.follow.snap.items);
  }

  // ---------------------------------------------------------------- transactions

  lemma {:induction false} CommitKeeps(base: Tables, cl: Cluster, e: Event)
    requires Inv(base, cl)
    requires e.Commit? && Enabled(cl, e)
    ensures Inv(base, Next(cl, e))
  {
    hide StateAt, Since, SinkApply, LinkOk, StreamOk, Listing, Replays, Integrity;
    var cl' := Next(cl, e);
    assert NodeOk(base, cl.hist, cl.nodes[e.node]);
    CommittedNode(base, cl.hist, cl.nodes[e.node]);
    forall other | IsFollowing(cl', other) ensures LinkOk(cl', other) {
      assert IsFollowing(cl, other);
      CommitLink(cl, e, other);
    }
  }

  lemma {:induction false} CommittedNode(base: Tables, hist: seq<Op>, n: Node)
    requires HistOk(base, hist) && NodeOk(base, hist, n) && n.tx.Some?
    ensures
      var n' := n.(store := n.tx.value.next, tx := None);
      && NodeOk(base, hist, n') && Emitted(n') == Emitted(n)
      && (Covers(n.store, 1) ==> Covers(n'.store, 1))
  {
    hide StateAt, Replays;
  }

  lemma {:induction false} CommitLink(cl: Cluster, e: Event, id: NodeId)
    requires e.Commit? && Enabled(cl, e)
    requires cl.nodes[e.node].tx.value.next.seqNum == cl.nodes[e.node].store.seqNum + 1
    requires IsFollowing(cl, id) && LinkOk(cl, id)
    ensures IsFollowing(Next(cl, e), id) && LinkOk(Next(cl, e), id)
  {
    assert FollowsFrom(cl.nodes[id], e.node) ==> id in Subscribers(cl, e.node);
  }

  lemma {:induction false} SendKeeps(base: Tables, cl: Cluster, e: Event)
    requires Inv(base, cl)
    requires e.Send? && Enabled(cl, e)
    ensures Inv(base, Next(cl, e))
  {
    hide StateAt, Since, SinkApply, LinkOk, StreamOk, Agrees, Listing, HistOk, Covers;
    var cl' := Next(cl, e);
    assert NodeOk(base, cl.hist, cl.nodes[e.source]);
    assert NodeOk(base, cl.hist, cl.nodes[e.node]);
    assert NodeOk(base, cl'.hist, cl'.nodes[e.source]);
    assert NodeOk(base, cl'.hist, cl'.nodes[e.node]);
    forall other | IsFollowing(cl', other) ensures LinkOk(cl', other) {
      assert IsFollowing(cl, other);
      SendLink(cl, e, other);
    }
  }

  lemma {:induction false} SendLink(cl: Cluster, e: Event, id: NodeId)
    requires e.Send? && Enabled(cl, e)
    requires IsFollowing(cl, id) && LinkOk(cl, id)
    ensures IsFollowing(Next(cl, e), id) && LinkOk(Next(cl, e), id)
  {
    var cl' := Next(cl, e);
    var source := cl.nodes[id].follow.sub.source;
    assert Undelivered(id, cl.nodes[id].follow.sub, cl.nodes[source]) ==
           Undelivered(id, cl'.nodes[id].follow.sub, cl'.nodes[source]);
  }

  // The next operation of the history opens a transaction at a follower, and
  // becomes pending for all of that follower's own subscribers.
  lemma {:induction false} ReceiveKeeps(base: Tables, cl: Cluster, e: Event)
    requires Inv(base, cl)
    requires e.Receive? && Enabled(cl, e)
    ensures Inv(base, Next(cl, e))
  {
    hide StateAt, Since, SinkApply, LinkOk, StreamOk, Listing, Covers, Integrity;
    var cl' := Next(cl, e);
    var n := cl.nodes[e.node];
    NextInLine(base, cl, e.node);
    assert NodeOk(base, cl.hist, n);
    FollowerApply(base, n.store, cl.hist);
    assert NodeOk(base, cl.hist, cl'.nodes[e.node]);
    forall other | IsFollowing(cl', other) ensures LinkOk(cl', other) {
      assert IsFollowing(cl, other);
      ReceiveLink(cl, e, other);
    }
  }

  lemma {:induction false} ReceiveLink(cl: Cluster, e: Event, id: NodeId)
    requires e.Receive? && Enabled(cl, e)
    requires
      var n := cl.nodes[e.node];
      && n.store.seqNum < |cl.hist| && n.follow.sub.out[0] == cl.hist[n.store.seqNum]
      && SinkApply(n.store, n.follow.sub.out[0], true).value.1 == n.follow.sub.out[0]
    requires IsFollowing(cl, id) && LinkOk(cl, id)
    ensures IsFollowing(Next(cl, e), id) && LinkOk(Next(cl, e), id)
  {
    hide Since, SinkApply;
    var cl' := Next(cl, e);
    var n, n' := cl.nodes[id], cl'.nodes[id];
    var s := cl.nodes[n.follow.sub.source];
    if id == e.node {
      var op := n.follow.sub.out[0];
      assert n.follow.sub.out == [op] + n'.follow.sub.out;
      assert Undelivered(id, n.follow.sub, s) == [op] + Undelivered(id, n'.follow.sub, s);
      assert Undelivered(id, n'.follow.sub, s) == cl.hist[Emitted(n)..Emitted(s)][1..];
    } else if n.follow.sub.source == e.node {
      assert id in Subscribers(cl, e.node);
      SliceGrows(cl.hist, Emitted(n), Emitted(s));
    }
  }

  lemma {:induction false} SliceGrows(hist: seq<Op>, from: nat, top: nat)
    requires from <= top < |hist|
    ensures hist[from..top + 1] == hist[from..top] + [hist[top]]
  {
  }

  // What a follower finds in its output channel is the next operation of the history.
  lemma {:induction false} NextInLine(base: Tables, cl: Cluster, id: NodeId)
    requires Inv(base, cl)
    requires IsFollowing(cl, id) && cl.nodes[id].tx.None? && cl.nodes[id].follow.sub.out != []
    ensures cl.nodes[id].store.seqNum < |cl.hist|
    ensures cl.nodes[id].follow.sub.out[0] == cl.hist[cl.nodes[id].store.seqNum]
  {
    hide StateAt, Since;
    assert LinkOk(cl, id);
    var n := cl.nodes[id];
    assert Undelivered(id, n.follow.sub, cl.nodes[n.follow.sub.source])[0] == n.follow.sub.out[0];
  }

  // A channel takes exactly 1000 operations: the one registered with the source's
  // publisher, and the one the follower reads from.
  lemma {:induction false} ChannelRoom(cl: Cluster, id: NodeId)
    requires IsFollowing(cl, id)
    ensures
      var sub := cl.nodes[id].follow.sub;
      && (Enabled(cl, Send(sub.source, id)) <==>
          && sub.source in cl.nodes && sub.source != id && cl.nodes[sub.source].tx.Some?
          && id in cl.nodes[sub.source].tx.value.pending && |sub.live| < 1000)
      && (Enabled(cl, PumpPreload(id)) <==> sub.preload != [] && |sub.out| < 1000)
      && (Enabled(cl, PumpLive(id)) <==> sub.preload == [] && sub.live != [] && |sub.out| < 1000)
  {
  }

  // A received operation is taken or refused by its keys and its number. Every
  // open transaction can fail to commit, every connection can be lost, and a
  // follower that is ahead can take any listing of its source and load it.
  lemma {:induction false} FollowerEnabledIff(base: Tables, cl: Cluster, id: NodeId, items: seq<Row>)
    requires Inv(base, cl) && id in cl.nodes
    ensures
      var n := cl.nodes[id];
      && (Enabled(cl, Abort(id)) <==> n.tx.Some?)
      && (Enabled(cl, Disconnect(id)) <==> n.follow.Following?)
      && (Enabled(cl, LoadSnapshot(id)) <==> n.follow.Holding? && n.tx.None?)
      && (n.follow.Ahead? && n.follow.source in cl.nodes && id != cl.primary ==>
          var s := cl.nodes[n.follow.source];
          (Enabled(cl, TakeSnapshot(id, n.follow.source, items)) <==> s.tx.None? && Listing(items, s.store.tables)))
      && (n.follow.Following? && n.tx.None? && n.follow.sub.out != [] ==>
          var op := n.follow.sub.out[0];
          && (Enabled(cl, Receive(id)) <==> !Refused(n.store.tables, op) && op.seqNum !in n.store.log)
          && (Enabled(cl, RefuseReceive(id)) <==> Refused(n.store.tables, op) || op.seqNum in n.store.log))
  {
    hide SinkApply, Refused, HistOk, LinkOk, Listing;
    assert NodeOk(base, cl.hist, cl.nodes[id]);
    if cl.nodes[id].follow.Following? && cl.nodes[id].follow.sub.out != [] {
      AcceptedIff(cl.nodes[id].store, cl.nodes[id].follow.sub.out[0], true);
    }
  }

  // A write can begin if and only if none is open and the tables do not refuse
  // it, and is refused if and only if none is open and they do.
  lemma {:induction false} WriteEnabledIff(base: Tables, cl: Cluster, typ: OpType, row: Row)
    requires Inv(base, cl)
    ensures
      var p, op := cl.nodes[cl.primary], Op(0, typ, row);
      && (Enabled(cl, Write(typ, row)) <==> p.tx.None? && !Refused(p.store.tables, op))
      && (Enabled(cl, RefuseWrite(typ, row)) <==> p.tx.None? && Refused(p.store.tables, op))
  {
    hide SinkApply, Refused, HistOk, NodeOk, LinkOk;
    AcceptedIff(cl.nodes[cl.primary].store, Op(0, typ, row), false);
  }

  lemma {:induction false} WriteKeeps(base: Tables, cl: Cluster, e: Event)
    requires Inv(base, cl)
    requires e.Write? && Enabled(cl, e)
    ensures Inv(base, Next(cl, e))
    ensures Next(cl, e).hist == cl.hist + [Op(|cl.hist| + 1, e.typ, e.row)]
  {
    var p := cl.nodes[cl.primary];
    assert NodeOk(base, cl.hist, p);
    PrimaryTx(base, p.store, cl.hist, Op(0, e.typ, e.row));
    WriteFrame(base, cl, e, Op(|cl.hist| + 1, e.typ, e.row));
  }

  lemma {:induction false} PrimaryTx(base: Tables, s: Store, hist: seq<Op>, op: Op)
    requires HistOk(base, hist)
    requires s.seqNum == |hist| && s.tables == StateAt(base, hist, |hist|) && Agrees(s.log, hist)
    requires SinkApply(s, op, false).Ok?
    ensures
      var op' := op.(seqNum := |hist| + 1);
      && HistOk(base, hist + [op'])
      && (forall k :: 0 <= k <= |hist| ==> StateAt(base, hist + [op'], k) == StateAt(base, hist, k))
      && SinkApply(s, op, false).value ==
         (Store(StateAt(base, hist + [op'], |hist| + 1), s.log[|hist| + 1 := op'], |hist| + 1), op')
  {
    ReplayExtends(base, hist, op.(seqNum := |hist| + 1));
  }

  lemma {:induction false} WriteFrame(base: Tables, cl: Cluster, e: Event, op: Op)
    requires Inv(base, cl)
    requires e.Write? && Enabled(cl, e)
    requires
      var s := cl.nodes[cl.primary].store;
      && HistOk(base, cl.hist + [op])
      && (forall k :: 0 <= k <= |cl.hist| ==> StateAt(base, cl.hist + [op], k) == StateAt(base, cl.hist, k))
      && SinkApply(s, Op(0, e.typ, e.row), false).value ==
         (Store(StateAt(base, cl.hist + [op], |cl.hist| + 1), s.log[|cl.hist| + 1 := op], |cl.hist| + 1), op)
    ensures Inv(base, Next(cl, e))
    ensures Next(cl, e).hist == cl.hist + [op]
  {
    hide StateAt, Since, SinkApply, Replays, LinkOk, StreamOk, Listing, Integrity;
    var cl' := Next(cl, e);
    forall id | id in cl'.nodes ensures NodeOk(base, cl'.hist, cl'.nodes[id]) {
      assert NodeOk(base, cl.hist, cl.nodes[id]);
    }
    forall id | IsFollowing(cl', id) ensures LinkOk(cl', id) {
      assert IsFollowing(cl, id);
      WriteLink(cl, e, op, id);
    }
  }

  lemma {:induction false} WriteLink(cl: Cluster, e: Event, op: Op, id: NodeId)
    requires e.Write? && Enabled(cl, e) && PrimaryOk(cl)
    requires SinkApply(cl.nodes[cl.primary].store, Op(0, e.typ, e.row), false).value.1 == op
    requires IsFollowing(cl, id) && LinkOk(cl, id)
    ensures IsFollowing(Next(cl, e), id) && LinkOk(Next(cl, e), id)
  {
    hide Since, SinkApply;
    var cl' := Next(cl, e);
    var n := cl.nodes[id];
    var s := cl.nodes[n.follow.sub.source];
    assert cl'.hist[Emitted(n)..Emitted(s)] == cl.hist[Emitted(n)..Emitted(s)];
    if n.follow.sub.source == cl.primary {
      assert id in Subscribers(cl, cl.primary);
      SliceGrows(cl'.hist, Emitted(n), Emitted(s));
    }
  }

  // ---------------------------------------------------------------- a commit that fails

  // Emit comes before Commit. If the commit then fails, the protocol survives
  // exactly when nobody has received the operation yet.
  lemma {:induction false} AbortIff(base: Tables, cl: Cluster, e: Event)
    requires Inv(base, cl)
    requires e.Abort? && Enabled(cl, e)
    ensures Inv(base, Next(cl, e)) <==> Sound(cl, e)
  {
    if Sound(cl, e) {
      AbortUnseen(base, cl, e);
    }
    if Inv(base, Next(cl, e)) {
      AbortSeen(base, cl, e);
    }
  }

  lemma {:induction false} AbortSeen(base: Tables, cl: Cluster, e: Event)
    requires Inv(base, cl)
    requires e.Abort? && Enabled(cl, e)
    requires Inv(base, Next(cl, e))
    ensures Unseen(cl, e.node)
  {
    hide StateAt, Since, SinkApply, HistOk, Listing, Covers;
    var n := cl.nodes[e.node];
    var cl' := Next(cl, e);
    forall other | other in Subscribers(cl, e.node) ensures other in n.tx.value.pending {
      assert IsFollowing(cl, other) && LinkOk(cl, other);
      assert IsFollowing(cl', other) && LinkOk(cl', other);
      var sub := cl.nodes[other].follow.sub;
      assert |Undelivered(other, sub, n)| == Emitted(n) - Emitted(cl.nodes[other]);
      assert |Undelivered(other, sub, cl'.nodes[e.node])| == Emitted(n) - 1 - Emitted(cl.nodes[other]);
    }
    if e.node == cl.primary {
      forall other | other in cl.nodes && other != e.node ensures Behind(cl.nodes[other], |cl.hist|) {
        assert cl'.nodes[other] == cl.nodes[other];
        assert NodeOk(base, cl'.hist, cl.nodes[other]);
      }
    }
  }

  lemma {:induction false} AbortUnseen(base: Tables, cl: Cluster, e: Event)
    requires Inv(base, cl)
    requires e.Abort? && Enabled(cl, e)
    requires Unseen(cl, e.node)
    ensures Inv(base, Next(cl, e))
  {
    hide StateAt, Since, Replays, LinkOk, StreamOk, NodeOk;
    var cl' := Next(cl, e);
    HistShrinks(base, cl.hist, |cl'.hist|);
    assert cl'.hist == cl.hist[..|cl'.hist|];
    forall id | id in cl'.nodes ensures NodeOk(base, cl'.hist, cl'.nodes[id]) {
      assert NodeOk(base, cl.hist, cl.nodes[id]);
      AbortNode(base, cl, e, id);
    }
    assert NodeOk(base, cl.hist, cl.nodes[e.node]);
    OpenTx(base, cl.hist, cl.nodes[e.node]);
    forall id | IsFollowing(cl', id) ensures LinkOk(cl', id) {
      assert IsFollowing(cl, id);
      AbortLink(cl, e, id);
    }
  }

  lemma {:induction false} OpenTx(base: Tables, hist: seq<Op>, n: Node)
    requires NodeOk(base, hist, n) && n.tx.Some?
    ensures n.store.seqNum < |hist| && n.tx.value.op == hist[n.store.seqNum]
  {
  }

  lemma {:induction false} AbortNode(base: Tables, cl: Cluster, e: Event, id: NodeId)
    requires e.Abort? && Enabled(cl, e) && Unseen(cl, e.node)
    requires PrimaryOk(cl) && id in cl.nodes && NodeOk(base, cl.hist, cl.nodes[id])
    requires forall i :: 0 <= i <= |Next(cl, e).hist| ==>
      StateAt(base, Next(cl, e).hist, i) == StateAt(base, cl.hist, i)
    ensures NodeOk(base, Next(cl, e).hist, Next(cl, e).nodes[id])
  {
    hide StateAt;
  }

  lemma {:induction false} AbortLink(cl: Cluster, e: Event, id: NodeId)
    requires e.Abort? && Enabled(cl, e) && Unseen(cl, e.node) && id != e.node
    requires PrimaryOk(cl) && IsFollowing(cl, id) && LinkOk(cl, id)
    requires cl.nodes[e.node].store.seqNum < |cl.hist|
    requires cl.nodes[e.node].tx.value.op == cl.hist[cl.nodes[e.node].store.seqNum]
    ensures IsFollowing(Next(cl, e), id) && LinkOk(Next(cl, e), id)
  {
    hide Since, SinkApply, Listing;
    var cl' := Next(cl, e);
    var n := cl.nodes[id];
    var source := n.follow.sub.source;
    var s, s' := cl.nodes[source], cl'.nodes[source];
    if source == e.node {
      assert id in Subscribers(cl, e.node);
      var sub := n.follow.sub;
      DropLast(sub.out + sub.preload + sub.live, s.tx.value.op, cl.hist, Emitted(n), Emitted(s));
      assert Undelivered(id, sub, s') == sub.out + sub.preload + sub.live;
    }
    assert cl'.hist[Emitted(n)..Emitted(s')] == cl.hist[Emitted(n)..Emitted(s')];
  }

  lemma {:induction false} DropLast(rest: seq<Op>, op: Op, hist: seq<Op>, from: nat, top: nat)
    requires from <= top <= |hist| && rest + [op] == hist[from..top]
    ensures from < top && rest == hist[from..top - 1]
  {
    assert |rest + [op]| == top - from;
    assert rest == (rest + [op])[..|rest|];
  }

  lemma {:induction false} HistShrinks(base: Tables, hist: seq<Op>, k: nat)
    requires HistOk(base, hist) && k <= |hist|
    ensures HistOk(base, hist[..k])
    ensures forall i :: 0 <= i <= k ==> StateAt(base, hist[..k], i) == StateAt(base, hist, i)
  {
    hide StateAt;
    ReplayPrefix(base, hist, k);
  }

  // ---------------------------------------------------------------- all steps

  // Every step of the protocol keeps the invariant if and only if it is sound.
  lemma {:induction false} StepKeepsInvIff(base: Tables, cl: Cluster, e: Event)
    requires Inv(base, cl)
    requires Enabled(cl, e)
    ensures Inv(base, Next(cl, e)) <==> Sound(cl, e)
  {
    hide StateAt, Since, SinkApply, Inv;
    match e
    case Write(_, _) => WriteKeeps(base, cl, e);
    case RefuseWrite(_, _) =>
    case Send(_, _) => SendKeeps(base, cl, e);
    case Commit(_) => CommitKeeps(base, cl, e);
    case Abort(_) => AbortIff(base, cl, e);
    case Subscribe(_, _) => SubscribeIff(base, cl, e);
    case TakeSnapshot(_, _, _) => TakeSnapshotKeeps(base, cl, e);
    case LoadSnapshot(_) => LoadSnapshotIff(base, cl, e);
    case PumpPreload(_) => PumpKeeps(base, cl, e);
    case PumpLive(_) => PumpKeeps(base, cl, e);
    case Receive(_) => ReceiveKeeps(base, cl, e);
    case RefuseReceive(_) => LeaveKeeps(base, cl, e);
    case Disconnect(_) => LeaveKeeps(base, cl, e);
  }
}
