// Safety of replication over whole runs.
module ClusterRuns {
  import opened Tables
  import opened LogStore
  import opened Snapshots
  import opened Cluster
  import opened ClusterSteps

  lemma {:induction false} InitKeeps(base: Tables, cl: Cluster)
    requires Init(base, cl)
    ensures Inv(base, cl)
  {
  }

  // ---------------------------------------------------------------- any topology

  ghost predicate SoundRun(cl: Cluster, es: seq<Event>)
    requires Run(cl, es)
    decreases |es|
  {
    es == [] || (Sound(cl, es[0]) && SoundRun(Next(cl, es[0]), es[1..]))
  }

  // Followers may change source, take snapshots and lose connections at any
  // point: as long as every step is sound, each node's tables are the replay
  // of the history up to its counter and every stream is gap free.
  lemma {:induction false} SoundRunKeepsInv(base: Tables, cl: Cluster, es: seq<Event>)
    requires Inv(base, cl)
    requires Run(cl, es) && SoundRun(cl, es)
    ensures Inv(base, After(cl, es))
    decreases |es|
  {
    hide Inv, Enabled, Next, Sound;
    if es != [] {
      StepKeepsInvIff(base, cl, es[0]);
      SoundRunKeepsInv(base, Next(cl, es[0]), es[1..]);
    }
  }

  // ---------------------------------------------------------------- what a step does to a node

  lemma {:induction false} SameNodes(cl: Cluster, e: Event)
    requires Enabled(cl, e)
    ensures Next(cl, e).nodes.Keys == cl.nodes.Keys && Next(cl, e).primary == cl.primary
  {
    hide Since, SinkApply, SinkLoad, Listing;
  }

  // By how much a step other than loading a snapshot moves a node.
  function Move(cl: Cluster, e: Event, id: NodeId): int {
    match e
    case Write(_, _) => if id == cl.primary then 1 else 0
    case Receive(node) => if id == node then 1 else 0
    case Abort(node) => if id == node then -1 else 0
    case _ => 0
  }

  lemma {:induction false} PlaceAfter(base: Tables, cl: Cluster, e: Event, id: NodeId)
    requires Enabled(cl, e) && id in cl.nodes && id in Next(cl, e).nodes
    requires NodeOk(base, cl.hist, cl.nodes[id])
    requires e.LoadSnapshot? ==> id != e.node
    ensures Emitted(Next(cl, e).nodes[id]) == Emitted(cl.nodes[id]) + Move(cl, e, id)
  {
    hide Since, SinkApply, SinkLoad, Listing, StateAt, Agrees;
  }

  // The store changes by a commit or a load only.
  lemma {:induction false} StoreAfter(cl: Cluster, e: Event, id: NodeId)
    requires Enabled(cl, e) && id in cl.nodes && id in Next(cl, e).nodes
    requires e.Commit? || e.LoadSnapshot? ==> id != e.node
    ensures Next(cl, e).nodes[id].store == cl.nodes[id].store
  {
    hide Since, SinkApply, SinkLoad, Listing;
  }

  // How a node comes to follow, to be ahead or to hold a snapshot.
  lemma {:induction false} FollowAfter(cl: Cluster, e: Event, id: NodeId)
    requires Enabled(cl, e) && id in cl.nodes && id in Next(cl, e).nodes
    ensures
      var n, f := cl.nodes[id], Next(cl, e).nodes[id].follow;
      var subscribes := e.Subscribe? && e.node == id;
      && (f.Following? ==>
          || (n.follow.Following? && f.sub.source == n.follow.sub.source)
          || (subscribes && f.sub.source == e.source))
      && (f.Ahead? ==> n.follow.Ahead? || (subscribes && n.store.seqNum > cl.nodes[e.source].store.seqNum))
      && (f.Holding? ==> n.follow.Holding? || n.follow.Ahead?)
  {
    hide Since, SinkApply, SinkLoad, Listing, Opened;
  }

  // What an event says of the nodes it names.
  lemma {:induction false} EventNodes(cl: Cluster, e: Event)
    requires Enabled(cl, e)
    ensures e.Subscribe? ==>
      && e.node in cl.nodes && e.source in cl.nodes && e.node != cl.primary
      && cl.nodes[e.node].tx.None? && cl.nodes[e.source].tx.None?
    ensures e.TakeSnapshot? ==> e.node in cl.nodes && cl.nodes[e.node].follow.Ahead?
    ensures e.LoadSnapshot? ==> e.node in cl.nodes && cl.nodes[e.node].follow.Holding?
    ensures e.Abort? || e.Commit? ==> e.node in cl.nodes && cl.nodes[e.node].tx.Some?
    ensures e.Receive? ==> IsFollowing(cl, e.node) && cl.nodes[e.node].follow.sub.out != []
  {
    hide SinkApply, Listing;
  }

  // A follower that receives is behind its source.
  lemma {:induction false} ReceiverBehind(cl: Cluster, id: NodeId)
    requires IsFollowing(cl, id) && LinkOk(cl, id) && cl.nodes[id].follow.sub.out != []
    ensures Emitted(cl.nodes[id]) < Emitted(cl.nodes[cl.nodes[id].follow.sub.source])
  {
    var sub := cl.nodes[id].follow.sub;
    assert |Undelivered(id, sub, cl.nodes[sub.source])| > 0;
  }

  // ---------------------------------------------------------------- one link

  // A follower that is not ahead of its source, and follows it or nobody.
  ghost predicate Linked(cl: Cluster, id: NodeId, source: NodeId) {
    && id in cl.nodes && source in cl.nodes && id != source && id != cl.primary
    && Emitted(cl.nodes[id]) <= Emitted(cl.nodes[source])
    && match cl.nodes[id].follow
       case Idle => true
       case Following(sub) => sub.source == source
       case _ => false
  }

  // The follower subscribes to that source only, and the source does not go back.
  ghost predicate KeepsLink(id: NodeId, source: NodeId, e: Event) {
    && (e.Subscribe? && e.node == id ==> e.source == source)
    && ((e.LoadSnapshot? || e.Abort?) ==> e.node != source)
  }

  lemma {:induction false} LinkStep(base: Tables, cl: Cluster, e: Event, id: NodeId, source: NodeId)
    requires Inv(base, cl) && Linked(cl, id, source)
    requires Enabled(cl, e) && KeepsLink(id, source, e)
    ensures Linked(Next(cl, e), id, source)
    ensures !(e.TakeSnapshot? && e.node == id) && !(e.LoadSnapshot? && e.node == id)
  {
    hide Enabled, Next, HistOk, NodeOk, LinkOk, PrimaryOk;
    SameNodes(cl, e);
    EventNodes(cl, e);
    PlaceAfter(base, cl, e, id);
    PlaceAfter(base, cl, e, source);
    FollowAfter(cl, e, id);
    if e.Receive? && e.node == id {
      ReceiverBehind(cl, id);
    }
    if e.Write? {
      assert id != cl.primary;
    }
  }

  // Whatever the rest of the cluster does, snapshots and failing commits
  // included: a follower that keeps to a source which does not go back is never
  // past its horizon, and never takes a snapshot.
  lemma {:induction false} LinkNeverPastHorizon(base: Tables, cl: Cluster, es: seq<Event>, id: NodeId, source: NodeId)
    requires Inv(base, cl) && Linked(cl, id, source)
    requires Run(cl, es) && SoundRun(cl, es)
    requires forall e :: e in es ==> KeepsLink(id, source, e)
    ensures Linked(After(cl, es), id, source)
    ensures forall e :: e in es ==> !(e.TakeSnapshot? && e.node == id) && !(e.LoadSnapshot? && e.node == id)
    decreases |es|
  {
    hide Inv, Enabled, Next, Sound, Linked, KeepsLink;
    if es != [] {
      assert es[0] in es && forall e :: e in es[1..] ==> e in es;
      StepKeepsInvIff(base, cl, es[0]);
      LinkStep(base, cl, es[0], id, source);
      LinkNeverPastHorizon(base, Next(cl, es[0]), es[1..], id, source);
      assert es == [es[0]] + es[1..];
    }
  }

  // ---------------------------------------------------------------- a fixed tree

  // Every follower has one source, which is a node.
  ghost predicate Topology(cl: Cluster, parent: map<NodeId, NodeId>) {
    forall id :: id in cl.nodes && id != cl.primary ==>
      id in parent && parent[id] in cl.nodes && parent[id] != id
  }

  // Followers keep to their source.
  ghost predicate KeepsSource(parent: map<NodeId, NodeId>, e: Event) {
    e.Subscribe? ==> e.node in parent && e.source == parent[e.node]
  }

  // Nobody has got hold of the operation whose commit fails, and no child that
  // is not connected has it from before.
  ghost predicate AbortFits(cl: Cluster, parent: map<NodeId, NodeId>, node: NodeId)
    requires node in cl.nodes && cl.nodes[node].tx.Some?
  {
    && Unseen(cl, node)
    && forall id :: id in cl.nodes && id != cl.primary && id in parent && parent[id] == node ==>
         Emitted(cl.nodes[id]) < Emitted(cl.nodes[node])
  }

  // Followers keep to their source, and commits fail only where it does no harm.
  ghost predicate OnTree(cl: Cluster, parent: map<NodeId, NodeId>, e: Event)
    requires Enabled(cl, e)
  {
    KeepsSource(parent, e) && (e.Abort? ==> AbortFits(cl, parent, e.node))
  }

  ghost predicate RunOnTree(cl: Cluster, parent: map<NodeId, NodeId>, es: seq<Event>)
    requires Run(cl, es)
    decreases |es|
  {
    es == [] || (OnTree(cl, parent, es[0]) && RunOnTree(Next(cl, es[0]), parent, es[1..]))
  }

  // The follow loop stays with its source; it is never past the horizon.
  ghost predicate FollowOnTree(cl: Cluster, parent: map<NodeId, NodeId>, id: NodeId)
    requires id in cl.nodes && (id != cl.primary ==> id in parent)
  {
    match cl.nodes[id].follow
    case Idle => true
    case Following(sub) => id != cl.primary && sub.source == parent[id]
    case _ => false
  }

  ghost predicate TreeOk(cl: Cluster, parent: map<NodeId, NodeId>) {
    && Topology(cl, parent)
    && (forall id :: id in cl.nodes ==> Covers(cl.nodes[id].store, 1) && FollowOnTree(cl, parent, id))
    && (forall id :: id in cl.nodes && id != cl.primary ==>
        Emitted(cl.nodes[id]) <= Emitted(cl.nodes[parent[id]]))
  }

  // The steps that only happen when something went wrong.
  predicate Trouble(e: Event) {
    e.TakeSnapshot? || e.LoadSnapshot? || e.RefuseReceive?
  }

  // On a tree, a follower is never ahead of its source when it subscribes, its
  // source's log covers what it misses, and what it receives always applies.
  lemma {:induction false} TreeStepSound(base: Tables, cl: Cluster, parent: map<NodeId, NodeId>, e: Event)
    requires Inv(base, cl) && TreeOk(cl, parent)
    requires Enabled(cl, e) && OnTree(cl, parent, e)
    ensures Sound(cl, e)
    ensures !Trouble(e)
    ensures e.Subscribe? ==> cl.nodes[e.node].store.seqNum <= cl.nodes[e.source].store.seqNum
  {
    hide StateAt, Since, SinkApply, LinkOk;
    if e.RefuseReceive? {
      NextInLine(base, cl, e.node);
      assert NodeOk(base, cl.hist, cl.nodes[e.node]);
      FollowerApply(base, cl.nodes[e.node].store, cl.hist);
      assert false;
    }
  }

  lemma {:induction false} TreeStepKeeps(base: Tables, cl: Cluster, parent: map<NodeId, NodeId>, e: Event)
    requires Inv(base, cl) && TreeOk(cl, parent)
    requires Enabled(cl, e) && OnTree(cl, parent, e)
    ensures TreeOk(Next(cl, e), parent)
  {
    hide Enabled, Next, Inv, Covers, Emitted, FollowOnTree, KeepsSource, AbortFits, Trouble;
    TreeStepSound(base, cl, parent, e);
    if e.Abort? {
      AbortKeepsTree(base, cl, parent, e);
      return;
    }
    var cl' := Next(cl, e);
    SameNodes(cl, e);
    forall id | id in cl'.nodes
      ensures Covers(cl'.nodes[id].store, 1) && FollowOnTree(cl', parent, id)
      ensures Emitted(cl.nodes[id]) <= Emitted(cl'.nodes[id])
    {
      TreeNodeKeeps(base, cl, parent, e, id);
    }
    forall id | id in cl'.nodes && id != cl.primary
      ensures Emitted(cl'.nodes[id]) <= Emitted(cl'.nodes[parent[id]])
    {
      if Emitted(cl'.nodes[id]) > Emitted(cl.nodes[id]) {
        TreeNodeAdvances(base, cl, parent, e, id);
      }
    }
  }

  lemma {:induction false} AbortKeepsTree(base: Tables, cl: Cluster, parent: map<NodeId, NodeId>, e: Event)
    requires Inv(base, cl) && TreeOk(cl, parent)
    requires Enabled(cl, e) && e.Abort? && AbortFits(cl, parent, e.node)
    ensures TreeOk(Next(cl, e), parent)
  {
    hide Enabled, Next, HistOk, NodeOk, LinkOk, PrimaryOk, Covers, Emitted, Unseen;
    var cl' := Next(cl, e);
    SameNodes(cl, e);
    forall id | id in cl.nodes
      ensures cl'.nodes[id].store == cl.nodes[id].store
      ensures Emitted(cl'.nodes[id]) == Emitted(cl.nodes[id]) - if id == e.node then 1 else 0
      ensures FollowOnTree(cl', parent, id)
    {
      PlaceAfter(base, cl, e, id);
      StoreAfter(cl, e, id);
      FollowAfter(cl, e, id);
      assert FollowOnTree(cl, parent, id);
    }
  }

  // On a tree, a failing commit does no harm if and only if nobody has got hold
  // of the operation.
  lemma {:induction false} TreeAbortIff(base: Tables, cl: Cluster, parent: map<NodeId, NodeId>, e: Event)
    requires Inv(base, cl) && TreeOk(cl, parent)
    requires Enabled(cl, e) && e.Abort?
    ensures Inv(base, Next(cl, e)) && TreeOk(Next(cl, e), parent) <==> AbortFits(cl, parent, e.node)
  {
    hide Enabled, Next, Unseen, Covers, Emitted, FollowOnTree, HistOk, NodeOk, LinkOk, PrimaryOk;
    AbortIff(base, cl, e);
    EventNodes(cl, e);
    SameNodes(cl, e);
    if AbortFits(cl, parent, e.node) {
      AbortKeepsTree(base, cl, parent, e);
    }
    if Inv(base, Next(cl, e)) && TreeOk(Next(cl, e), parent) {
      forall id | id in cl.nodes && id != cl.primary && id in parent && parent[id] == e.node
        ensures Emitted(cl.nodes[id]) < Emitted(cl.nodes[e.node])
      {
        PlaceAfter(base, cl, e, id);
        PlaceAfter(base, cl, e, e.node);
      }
    }
  }

  lemma {:induction false} TreeNodeKeeps(base: Tables, cl: Cluster, parent: map<NodeId, NodeId>, e: Event, id: NodeId)
    requires Inv(base, cl) && TreeOk(cl, parent)
    requires Enabled(cl, e) && KeepsSource(parent, e) && !e.Abort? && !Trouble(e)
    requires e.Subscribe? ==> cl.nodes[e.node].store.seqNum <= cl.nodes[e.source].store.seqNum
    requires id in cl.nodes
    ensures Covers(Next(cl, e).nodes[id].store, 1)
    ensures FollowOnTree(Next(cl, e), parent, id)
    ensures Emitted(cl.nodes[id]) <= Emitted(Next(cl, e).nodes[id])
  {
    hide Enabled, Next, HistOk, NodeOk, LinkOk, PrimaryOk, Covers, Emitted;
    SameNodes(cl, e);
    EventNodes(cl, e);
    FollowAfter(cl, e, id);
    assert FollowOnTree(cl, parent, id);
    assert e.Subscribe? ==> FollowOnTree(cl, parent, e.node);
    PlaceAfter(base, cl, e, id);
    if e.Commit? && e.node == id {
      CommitCovers(base, cl, e);
    } else {
      StoreAfter(cl, e, id);
    }
  }

  lemma {:induction false} CommitCovers(base: Tables, cl: Cluster, e: Event)
    requires Enabled(cl, e) && e.Commit? && HistOk(base, cl.hist)
    requires NodeOk(base, cl.hist, cl.nodes[e.node]) && Covers(cl.nodes[e.node].store, 1)
    ensures Covers(Next(cl, e).nodes[e.node].store, 1)
  {
    hide HistOk, NodeOk;
    CommittedNode(base, cl.hist, cl.nodes[e.node]);
  }

  // Only receiving advances a follower, and only up to its source.
  lemma {:induction false} TreeNodeAdvances(base: Tables, cl: Cluster, parent: map<NodeId, NodeId>, e: Event, id: NodeId)
    requires Inv(base, cl) && TreeOk(cl, parent)
    requires Enabled(cl, e) && KeepsSource(parent, e) && !e.Abort? && !Trouble(e)
    requires id in cl.nodes && id != cl.primary && id in Next(cl, e).nodes
    requires Emitted(Next(cl, e).nodes[id]) > Emitted(cl.nodes[id])
    ensures Emitted(Next(cl, e).nodes[id]) == Emitted(cl.nodes[id]) + 1 <= Emitted(cl.nodes[parent[id]])
  {
    hide Enabled, Next, HistOk, NodeOk, LinkOk, PrimaryOk, Covers, Emitted;
    PlaceAfter(base, cl, e, id);
    EventNodes(cl, e);
    assert FollowOnTree(cl, parent, id);
    ReceiverBehind(cl, id);
  }

  // ---------------------------------------------------------------- what users get

  // The operations a node has emitted, read back from its own log.
  function EmittedLog(n: Node): seq<Op> {
    LogSeq(n.store) + if n.tx.Some? then [n.tx.value.op] else []
  }

  // Every node holds the replay of a prefix of the primary's log, which is also
  // its own log; keys and foreign keys hold; nodes at the same number are equal.
  ghost predicate Replicated(base: Tables, cl: Cluster, parent: map<NodeId, NodeId>)
    requires cl.primary in cl.nodes && Topology(cl, parent)
  {
    var hist := EmittedLog(cl.nodes[cl.primary]);
    && (forall id :: id in cl.nodes ==>
        var n := cl.nodes[id];
        && Emitted(n) <= |hist| && EmittedLog(n) == hist[..Emitted(n)]
        && n.store.tables == StateAt(base, hist, n.store.seqNum) && Integrity(n.store.tables)
        && (id != cl.primary ==> EmittedLog(n) <= EmittedLog(cl.nodes[parent[id]])))
    && (forall a, b :: a in cl.nodes && b in cl.nodes && cl.nodes[a].store.seqNum == cl.nodes[b].store.seqNum ==>
        cl.nodes[a].store == cl.nodes[b].store)
  }

  // Each open stream holds exactly the operations its follower has not taken
  // yet, in order, up to the last one its source has emitted; a follower with
  // nothing left to receive from an idle source has the same database.
  ghost predicate StreamsExact(cl: Cluster) {
    forall id :: IsFollowing(cl, id) ==>
      var n := cl.nodes[id];
      && n.follow.sub.source in cl.nodes
      && var s := cl.nodes[n.follow.sub.source];
         && EmittedLog(n) + Undelivered(id, n.follow.sub, s) == EmittedLog(s)
         && (Undelivered(id, n.follow.sub, s) == [] && n.tx.None? && s.tx.None? ==> n.store == s.store)
  }

  lemma {:induction false} FullLog(base: Tables, hist: seq<Op>, n: Node)
    requires HistOk(base, hist) && NodeOk(base, hist, n) && Covers(n.store, 1)
    ensures LogSeq(n.store) == hist[..n.store.seqNum]
    ensures EmittedLog(n) == hist[..Emitted(n)]
  {
    hide StateAt, Replays;
    SinceSlice(n.store.log, hist, 1, n.store.seqNum);
    assert hist[0..n.store.seqNum] == hist[..n.store.seqNum];
    if n.tx.Some? {
      SliceGrows(hist, 0, n.store.seqNum);
    }
  }

  lemma {:induction false} EqualStores(base: Tables, hist: seq<Op>, a: Store, b: Store)
    requires Agrees(a.log, hist) && Agrees(b.log, hist) && Covers(a, 1) && Covers(b, 1)
    requires a.seqNum == b.seqNum <= |hist|
    requires a.tables == StateAt(base, hist, a.seqNum) && b.tables == StateAt(base, hist, b.seqNum)
    ensures a == b
  {
    hide StateAt;
    assert forall k :: k in a.log <==> k in b.log;
    assert a.log == b.log;
  }

  lemma {:induction false} TreeIsReplicated(base: Tables, cl: Cluster, parent: map<NodeId, NodeId>)
    requires Inv(base, cl) && TreeOk(cl, parent)
    ensures EmittedLog(cl.nodes[cl.primary]) == cl.hist
    ensures Replicated(base, cl, parent)
  {
    hide StateAt, HistOk, NodeOk, LinkOk, EmittedLog, Covers, FollowOnTree, Integrity, Emitted;
    forall id | id in cl.nodes
      ensures Emitted(cl.nodes[id]) <= |cl.hist| && cl.nodes[id].store.seqNum <= |cl.hist|
      ensures EmittedLog(cl.nodes[id]) == cl.hist[..Emitted(cl.nodes[id])]
      ensures cl.nodes[id].store.tables == StateAt(base, cl.hist, cl.nodes[id].store.seqNum)
      ensures Integrity(cl.nodes[id].store.tables)
    {
      NodeReplicated(base, cl.hist, cl.nodes[id]);
    }
    assert cl.hist[..|cl.hist|] == cl.hist;
    forall a, b | a in cl.nodes && b in cl.nodes && cl.nodes[a].store.seqNum == cl.nodes[b].store.seqNum
      ensures cl.nodes[a].store == cl.nodes[b].store
    {
      EqualNodes(base, cl.hist, cl.nodes[a], cl.nodes[b]);
    }
  }

  lemma {:induction false} NodeReplicated(base: Tables, hist: seq<Op>, n: Node)
    requires HistOk(base, hist) && NodeOk(base, hist, n) && Covers(n.store, 1)
    ensures Emitted(n) <= |hist| && n.store.seqNum <= |hist| && EmittedLog(n) == hist[..Emitted(n)]
    ensures n.store.tables == StateAt(base, hist, n.store.seqNum) && Integrity(n.store.tables)
  {
    hide StateAt, Agrees, Listing, Replays, LogSeq, EmittedLog, Covers;
    FullLog(base, hist, n);
    ReplayKeepsIntegrity(base, hist, n.store.seqNum);
  }

  lemma {:induction false} EqualNodes(base: Tables, hist: seq<Op>, a: Node, b: Node)
    requires NodeOk(base, hist, a) && NodeOk(base, hist, b) && Covers(a.store, 1) && Covers(b.store, 1)
    requires a.store.seqNum == b.store.seqNum
    ensures a.store == b.store
  {
    hide StateAt, Agrees, Listing, Covers;
    EqualStores(base, hist, a.store, b.store);
  }

  lemma {:induction false} TreeStreamsExact(base: Tables, cl: Cluster, parent: map<NodeId, NodeId>)
    requires Inv(base, cl) && TreeOk(cl, parent)
    ensures StreamsExact(cl)
  {
    hide EmittedLog, Undelivered, HistOk, PrimaryOk, NodeOk, LinkOk, TreeOk, Replicated;
    TreeIsReplicated(base, cl, parent);
    assert Topology(cl, parent) && cl.primary in cl.nodes by {
      TreeHasPrimary(base, cl, parent);
    }
    forall id | IsFollowing(cl, id)
      ensures
        var n := cl.nodes[id];
        && n.follow.sub.source in cl.nodes
        && var s := cl.nodes[n.follow.sub.source];
           && EmittedLog(n) + Undelivered(id, n.follow.sub, s) == EmittedLog(s)
           && (Undelivered(id, n.follow.sub, s) == [] && n.tx.None? && s.tx.None? ==> n.store == s.store)
    {
      StreamEnds(base, cl, parent, id);
      LinkExact(cl, id);
    }
  }

  lemma {:induction false} TreeHasPrimary(base: Tables, cl: Cluster, parent: map<NodeId, NodeId>)
    requires Inv(base, cl) && TreeOk(cl, parent)
    ensures Topology(cl, parent) && cl.primary in cl.nodes
  {
  }

  // What is known of the two ends of a stream.
  lemma {:induction false} StreamEnds(base: Tables, cl: Cluster, parent: map<NodeId, NodeId>, id: NodeId)
    requires cl.primary in cl.nodes && Topology(cl, parent) && Replicated(base, cl, parent)
    requires EmittedLog(cl.nodes[cl.primary]) == cl.hist
    requires IsFollowing(cl, id) && LinkOk(cl, id)
    ensures
      var n, s := cl.nodes[id], cl.nodes[cl.nodes[id].follow.sub.source];
      && Emitted(n) <= |cl.hist| && EmittedLog(n) == cl.hist[..Emitted(n)]
      && Emitted(s) <= |cl.hist| && EmittedLog(s) == cl.hist[..Emitted(s)]
      && (n.store.seqNum == s.store.seqNum ==> n.store == s.store)
  {
    hide StateAt, EmittedLog, Integrity, Emitted, StreamOk;
  }

  lemma {:induction false} LinkExact(cl: Cluster, id: NodeId)
    requires IsFollowing(cl, id) && LinkOk(cl, id)
    requires
      var n, s := cl.nodes[id], cl.nodes[cl.nodes[id].follow.sub.source];
      && Emitted(n) <= |cl.hist| && EmittedLog(n) == cl.hist[..Emitted(n)]
      && Emitted(s) <= |cl.hist| && EmittedLog(s) == cl.hist[..Emitted(s)]
      && (n.store.seqNum == s.store.seqNum ==> n.store == s.store)
    ensures
      var n := cl.nodes[id];
      && n.follow.sub.source in cl.nodes
      && var s := cl.nodes[n.follow.sub.source];
         && EmittedLog(n) + Undelivered(id, n.follow.sub, s) == EmittedLog(s)
         && (Undelivered(id, n.follow.sub, s) == [] && n.tx.None? && s.tx.None? ==> n.store == s.store)
  {
    hide EmittedLog, Undelivered;
    var n := cl.nodes[id];
    var s := cl.nodes[n.follow.sub.source];
    assert cl.hist[..Emitted(s)] == cl.hist[..Emitted(n)] + cl.hist[Emitted(n)..Emitted(s)];
    assert |cl.hist[Emitted(n)..Emitted(s)]| == Emitted(s) - Emitted(n);
  }

  // The main theorem. Start all nodes of any tree from the same base. In every
  // run, with writes accepted and refused, connections lost and reopened,
  // transactions open while others run, and commits that fail before anybody
  // has the operation: all nodes replicate the primary, all streams are exact,
  // and nobody ever needs a snapshot or fails to apply.
  lemma {:induction false} TreeReplication(
    base: Tables, cl: Cluster, parent: map<NodeId, NodeId>, es: seq<Event>)
    requires Init(base, cl) && Topology(cl, parent)
    requires Run(cl, es) && RunOnTree(cl, parent, es)
    ensures
      var end := After(cl, es);
      && end.primary in end.nodes && Topology(end, parent)
      && Replicated(base, end, parent) && StreamsExact(end)
    ensures forall e :: e in es ==> !Trouble(e)
  {
    hide StateAt, Since, Enabled, Next, Replicated, StreamsExact;
    InitKeeps(base, cl);
    assert TreeOk(cl, parent);
    TreeRun(base, cl, parent, es);
    TreeIsReplicated(base, After(cl, es), parent);
    TreeStreamsExact(base, After(cl, es), parent);
  }

  lemma {:induction false} TreeRun(base: Tables, cl: Cluster, parent: map<NodeId, NodeId>, es: seq<Event>)
    requires Inv(base, cl) && TreeOk(cl, parent)
    requires Run(cl, es) && RunOnTree(cl, parent, es)
    ensures Inv(base, After(cl, es)) && TreeOk(After(cl, es), parent)
    ensures forall e :: e in es ==> !Trouble(e)
    decreases |es|
  {
    hide Inv, TreeOk, Enabled, Next, OnTree, Sound, Trouble;
    if es != [] {
      TreeStepSound(base, cl, parent, es[0]);
      TreeStepKeeps(base, cl, parent, es[0]);
      StepKeepsInvIff(base, cl, es[0]);
      TreeRun(base, Next(cl, es[0]), parent, es[1..]);
      assert es == [es[0]] + es[1..];
    }
  }
}
