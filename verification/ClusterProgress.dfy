// What is sent arrives: delivery never gets stuck and always ends, and a tree
// of datastores can always come to agree.
module ClusterProgress {
  import opened Wrappers
  import opened Tables
  import opened LogStore
  import opened Snapshots
  import opened Cluster
  import opened ClusterSteps
  import opened ClusterRuns

  // Sources form a tree: each is nearer to the primary than its followers.
  ghost predicate Acyclic(cl: Cluster, parent: map<NodeId, NodeId>, depth: NodeId -> nat) {
    Topology(cl, parent) &&
    forall id :: id in cl.nodes && id != cl.primary ==> depth(parent[id]) < depth(id)
  }

  // A step that brings operations on their way.
  predicate Delivers(e: Event) {
    e.Send? || e.Commit? || e.PumpPreload? || e.PumpLive? || e.Receive?
  }

  // A transaction is open, or something is on its way to the node.
  ghost predicate Busy(cl: Cluster, id: NodeId) {
    && id in cl.nodes
    && var n := cl.nodes[id];
       || n.tx.Some?
       || (n.follow.Following? && n.follow.sub.source in cl.nodes &&
           Undelivered(id, n.follow.sub, cl.nodes[n.follow.sub.source]) != [])
  }

  // ---------------------------------------------------------------- never stuck

  lemma {:induction false} Deepest(ids: set<NodeId>, depth: NodeId -> nat) returns (id: NodeId)
    requires ids != {}
    ensures id in ids && forall other :: other in ids ==> depth(other) <= depth(id)
  {
    id :| id in ids;
    if ids != {id} {
      var other := Deepest(ids - {id}, depth);
      if depth(other) > depth(id) {
        id := other;
      }
    }
  }

  // While a transaction is open or something is on its way, some step of
  // delivery can be taken, however full the channels are.
  lemma {:induction false} NeverStuck(base: Tables, cl: Cluster, parent: map<NodeId, NodeId>, depth: NodeId -> nat)
    returns (e: Event)
    requires Inv(base, cl) && TreeOk(cl, parent) && Acyclic(cl, parent, depth)
    requires exists id :: Busy(cl, id)
    ensures Delivers(e) && Enabled(cl, e)
  {
    hide Inv, TreeOk, Enabled, Busy;
    var busy := set id | id in cl.nodes && Busy(cl, id);
    BusyKnown(cl);
    var some :| Busy(cl, some);
    assert some in busy;
    var id := Deepest(busy, depth);
    if cl.nodes[id].tx.Some? {
      CommitReady(base, cl, parent, depth, id);
      e := Commit(id);
    } else {
      e := NextDelivery(base, cl, parent, id);
    }
  }

  lemma {:induction false} BusyKnown(cl: Cluster)
    ensures forall id :: Busy(cl, id) ==> id in cl.nodes
  {
  }

  // The deepest busy node has no follower left to serve.
  lemma {:induction false} CommitReady(
    base: Tables, cl: Cluster, parent: map<NodeId, NodeId>, depth: NodeId -> nat, id: NodeId)
    requires TreeOk(cl, parent) && Acyclic(cl, parent, depth)
    requires id in cl.nodes && cl.nodes[id].tx.Some?
    requires forall other :: other in cl.nodes && Busy(cl, other) ==> depth(other) <= depth(id)
    ensures Enabled(cl, Commit(id))
  {
    hide Covers, Emitted;
    forall other | other in Subscribers(cl, id) ensures other !in cl.nodes[id].tx.value.pending {
      assert FollowOnTree(cl, parent, other) && depth(id) < depth(other);
      assert other in cl.nodes[id].tx.value.pending ==> Busy(cl, other);
    }
  }

  // What is next on its way to a node with no open transaction can move.
  lemma {:induction false} NextDelivery(base: Tables, cl: Cluster, parent: map<NodeId, NodeId>, id: NodeId)
    returns (e: Event)
    requires Inv(base, cl) && TreeOk(cl, parent)
    requires Busy(cl, id) && cl.nodes[id].tx.None?
    ensures Delivers(e) && Enabled(cl, e)
  {
    hide HistOk, NodeOk, Covers, Emitted, PrimaryOk, StreamOk, SinkApply;
    var sub := cl.nodes[id].follow.sub;
    assert IsFollowing(cl, id) && LinkOk(cl, id);
    if sub.out != [] {
      ReceiveReady(base, cl, parent, id);
      e := Receive(id);
    } else if sub.preload != [] {
      e := PumpPreload(id);
    } else if sub.live != [] {
      e := PumpLive(id);
    } else {
      e := Send(sub.source, id);
    }
  }

  lemma {:induction false} ReceiveReady(base: Tables, cl: Cluster, parent: map<NodeId, NodeId>, id: NodeId)
    requires Inv(base, cl) && TreeOk(cl, parent)
    requires IsFollowing(cl, id) && cl.nodes[id].tx.None? && cl.nodes[id].follow.sub.out != []
    ensures Enabled(cl, Receive(id))
  {
    hide StateAt, LinkOk, SinkApply;
    NextInLine(base, cl, id);
    assert NodeOk(base, cl.hist, cl.nodes[id]);
    FollowerApply(base, cl.nodes[id].store, cl.hist);
  }

  // ---------------------------------------------------------------- always ends

  // The steps that are still to be taken for one node, at most.
  function NodeWork(factor: nat, top: nat, n: Node): nat {
    factor * (if Emitted(n) <= top then top - Emitted(n) else 0) +
    (if n.tx.Some? then 1 + 3 * |n.tx.value.pending| else 0) +
    (if n.follow.Following? then 2 * |n.follow.sub.live| + |n.follow.sub.preload| else 0)
  }

  // Summed over all nodes below a bound.
  function Sum(factor: nat, top: nat, nodes: map<NodeId, Node>, bound: nat): nat {
    if bound == 0 then 0
    else Sum(factor, top, nodes, bound - 1) +
         if bound - 1 in nodes then NodeWork(factor, top, nodes[bound - 1]) else 0
  }

  lemma {:induction false} SumWith(factor: nat, top: nat, nodes: map<NodeId, Node>, id: NodeId, n: Node, bound: nat)
    requires id in nodes
    ensures Sum(factor, top, nodes[id := n], bound) + (if id < bound then NodeWork(factor, top, nodes[id]) else 0) ==
      Sum(factor, top, nodes, bound) + if id < bound then NodeWork(factor, top, n) else 0
  {
    hide NodeWork;
    if bound > 0 {
      SumWith(factor, top, nodes, id, n, bound - 1);
    }
  }

  function Work(cl: Cluster, bound: nat): nat {
    Sum(2 + 3 * |cl.nodes|, |cl.hist|, cl.nodes, bound)
  }

  ghost predicate Bounded(cl: Cluster, bound: nat) {
    forall id :: id in cl.nodes ==> id < bound
  }

  // Every step of delivery leaves less to do.
  lemma {:induction false} DeliveryShrinks(base: Tables, cl: Cluster, e: Event, bound: nat)
    requires Inv(base, cl) && Enabled(cl, e) && Delivers(e) && Bounded(cl, bound)
    ensures Next(cl, e).hist == cl.hist && Next(cl, e).primary == cl.primary && Next(cl, e).nodes.Keys == cl.nodes.Keys
    ensures Work(Next(cl, e), bound) < Work(cl, bound)
  {
    hide Inv, Enabled, Next, Sum, NodeWork;
    SameNodes(cl, e);
    SameHist(cl, e);
    SameSize(cl.nodes.Keys, Next(cl, e).nodes.Keys);
    var factor, top := 2 + 3 * |cl.nodes|, |cl.hist|;
    if e.Send? {
      SendShrinks(base, cl, e, factor, top);
      var (a, c) := SendChanges(cl, e);
      SumWith(factor, top, cl.nodes, e.source, a, bound);
      SumWith(factor, top, cl.nodes[e.source := a], e.node, c, bound);
    } else {
      var n := OneNodeShrinks(base, cl, e, factor, top);
      SumWith(factor, top, cl.nodes, e.node, n, bound);
    }
  }

  lemma {:induction false} SameSize(a: set<NodeId>, b: set<NodeId>)
    requires a == b
    ensures |a| == |b|
  {
  }

  lemma {:induction false} SameHist(cl: Cluster, e: Event)
    requires Enabled(cl, e) && Delivers(e)
    ensures Next(cl, e).hist == cl.hist
  {
    hide Since, SinkApply;
  }

  // Pumping, receiving and committing change one node.
  lemma {:induction false} OneNodeShrinks(base: Tables, cl: Cluster, e: Event, factor: nat, top: nat) returns (n: Node)
    requires Inv(base, cl) && Enabled(cl, e) && Delivers(e) && !e.Send?
    requires factor == 2 + 3 * |cl.nodes| && top == |cl.hist|
    ensures e.node in cl.nodes && Next(cl, e).nodes == cl.nodes[e.node := n]
    ensures NodeWork(factor, top, n) < NodeWork(factor, top, cl.nodes[e.node])
  {
    hide Inv, SinkApply, NodeWork;
    n := Next(cl, e).nodes[e.node];
    if e.Receive? {
      ReceiveShrinks(base, cl, e, factor, top);
    } else if e.Commit? {
      CommitShrinks(base, cl, e, factor, top);
    } else {
      PumpShrinks(cl, e, factor, top);
    }
  }

  lemma {:induction false} PumpShrinks(cl: Cluster, e: Event, factor: nat, top: nat)
    requires Enabled(cl, e) && (e.PumpPreload? || e.PumpLive?)
    ensures NodeWork(factor, top, Next(cl, e).nodes[e.node]) < NodeWork(factor, top, cl.nodes[e.node])
  {
  }

  lemma {:induction false} CommitShrinks(base: Tables, cl: Cluster, e: Event, factor: nat, top: nat)
    requires Inv(base, cl) && Enabled(cl, e) && e.Commit?
    ensures NodeWork(factor, top, Next(cl, e).nodes[e.node]) < NodeWork(factor, top, cl.nodes[e.node])
  {
    hide HistOk, LinkOk, PrimaryOk, StateAt, Agrees, Listing;
    assert NodeOk(base, cl.hist, cl.nodes[e.node]);
    assert Emitted(Next(cl, e).nodes[e.node]) == Emitted(cl.nodes[e.node]);
  }

  // An operation received opens a transaction for at most all other nodes.
  lemma {:induction false} ReceiveShrinks(base: Tables, cl: Cluster, e: Event, factor: nat, top: nat)
    requires Inv(base, cl) && Enabled(cl, e) && e.Receive?
    requires factor == 2 + 3 * |cl.nodes| && top == |cl.hist|
    ensures NodeWork(factor, top, Next(cl, e).nodes[e.node]) < NodeWork(factor, top, cl.nodes[e.node])
  {
    hide Inv, SinkApply;
    var n, n' := cl.nodes[e.node], Next(cl, e).nodes[e.node];
    NextInLine(base, cl, e.node);
    SubscribersKnown(cl, e.node);
    assert n'.tx.value.pending == Subscribers(cl, e.node);
    assert Emitted(n') == Emitted(n) + 1 <= top;
    OneLess(factor, top - Emitted(n));
  }

  lemma {:induction false} OneLess(factor: nat, k: nat)
    requires k > 0
    ensures factor * k == factor * (k - 1) + factor
  {
  }

  lemma {:induction false} SubscribersKnown(cl: Cluster, id: NodeId)
    ensures |Subscribers(cl, id)| <= |cl.nodes|
  {
    var rest := cl.nodes.Keys - Subscribers(cl, id);
    assert cl.nodes.Keys == Subscribers(cl, id) + rest;
  }

  // Sending changes the source and the follower.
  ghost function SendChanges(cl: Cluster, e: Event): (Node, Node)
    requires Enabled(cl, e) && e.Send?
  {
    var s, n := cl.nodes[e.source], cl.nodes[e.node];
    (s.(tx := Some(s.tx.value.(pending := s.tx.value.pending - {e.node}))),
     n.(follow := Following(n.follow.sub.(live := n.follow.sub.live + [s.tx.value.op]))))
  }

  lemma {:induction false} SendShrinks(base: Tables, cl: Cluster, e: Event, factor: nat, top: nat)
    requires Enabled(cl, e) && e.Send?
    ensures
      var (a, c) := SendChanges(cl, e);
      && e.source in cl.nodes && e.node in cl.nodes && e.source != e.node
      && Next(cl, e).nodes == cl.nodes[e.source := a][e.node := c]
      && NodeWork(factor, top, a) + NodeWork(factor, top, c) <
         NodeWork(factor, top, cl.nodes[e.source]) + NodeWork(factor, top, cl.nodes[e.node])
  {
    var s, n := cl.nodes[e.source], cl.nodes[e.node];
    var (a, c) := SendChanges(cl, e);
    assert |a.tx.value.pending| == |s.tx.value.pending| - 1;
    assert Emitted(a) == Emitted(s) && Emitted(c) == Emitted(n);
    assert |c.follow.sub.live| == |n.follow.sub.live| + 1;
  }

  // A run of delivery alone is never longer than the work there is.
  lemma {:induction false} DeliveryEnds(base: Tables, cl: Cluster, es: seq<Event>, bound: nat)
    requires Inv(base, cl) && Bounded(cl, bound)
    requires Run(cl, es) && forall e :: e in es ==> Delivers(e)
    ensures |es| <= Work(cl, bound)
    decreases |es|
  {
    hide Inv, Enabled, Next, Work, Delivers, Sound;
    if es != [] {
      assert es[0] in es && forall e :: e in es[1..] ==> e in es;
      DeliveryShrinks(base, cl, es[0], bound);
      DeliverySound(cl, es[0]);
      StepKeepsInvIff(base, cl, es[0]);
      DeliveryEnds(base, Next(cl, es[0]), es[1..], bound);
    }
  }

  lemma {:induction false} DeliverySound(cl: Cluster, e: Event)
    requires Enabled(cl, e) && Delivers(e)
    ensures Sound(cl, e)
  {
    hide Enabled;
  }

  // ---------------------------------------------------------------- coming to agree

  ghost predicate Quiet(cl: Cluster) {
    forall id :: !Busy(cl, id)
  }

  // Steps of a run that only delivers and connects.
  ghost predicate Mends(parent: map<NodeId, NodeId>, e: Event) {
    Delivers(e) || (e.Subscribe? && e.node in parent && e.source == parent[e.node])
  }

  // A state that some mending run leads to.
  ghost predicate Leads(cl: Cluster, parent: map<NodeId, NodeId>, es: seq<Event>, end: Cluster) {
    && Run(cl, es) && (forall e :: e in es ==> Mends(parent, e))
    && end == After(cl, es) && end.hist == cl.hist && end.primary == cl.primary && end.nodes.Keys == cl.nodes.Keys
  }

  lemma {:induction false} LeadsFurther(
    cl: Cluster, parent: map<NodeId, NodeId>, e: Event, es: seq<Event>, end: Cluster)
    requires Enabled(cl, e) && Mends(parent, e) && Leads(Next(cl, e), parent, es, end)
    requires Next(cl, e).hist == cl.hist && Next(cl, e).primary == cl.primary && Next(cl, e).nodes.Keys == cl.nodes.Keys
    ensures Leads(cl, parent, [e] + es, end)
  {
    hide Enabled, Next, Mends;
    assert ([e] + es)[1..] == es;
  }

  lemma {:induction false} LeadsOn(
    cl: Cluster, parent: map<NodeId, NodeId>, es: seq<Event>, mid: Cluster, more: seq<Event>, end: Cluster)
    requires Leads(cl, parent, es, mid) && Leads(mid, parent, more, end)
    ensures Leads(cl, parent, es + more, end)
    decreases |es|
  {
    hide Enabled, Next, Mends;
    if es == [] {
      assert es + more == more;
    } else {
      assert (es + more)[1..] == es[1..] + more && (es + more)[0] == es[0];
      RunConcat(cl, es, more);
    }
  }

  // One mending step keeps the tree, and everybody connected.
  lemma {:induction false} MendStep(
    base: Tables, cl: Cluster, parent: map<NodeId, NodeId>, depth: NodeId -> nat, e: Event)
    requires Inv(base, cl) && TreeOk(cl, parent) && Acyclic(cl, parent, depth) && Enabled(cl, e) && Mends(parent, e)
    ensures
      var cl' := Next(cl, e);
      && Inv(base, cl') && TreeOk(cl', parent) && Acyclic(cl', parent, depth)
      && cl'.hist == cl.hist && cl'.primary == cl.primary && cl'.nodes.Keys == cl.nodes.Keys
      && (forall id :: IsFollowing(cl, id) ==> IsFollowing(cl', id))
  {
    hide Inv, TreeOk, Enabled, Next, Sound, Trouble;
    assert OnTree(cl, parent, e);
    TreeStepSound(base, cl, parent, e);
    TreeStepKeeps(base, cl, parent, e);
    StepKeepsInvIff(base, cl, e);
    SameNodes(cl, e);
    MendKeepsHist(cl, parent, e);
    forall id | IsFollowing(cl, id) ensures IsFollowing(Next(cl, e), id) {
      StaysConnected(cl, parent, e, id);
    }
  }

  lemma {:induction false} MendKeepsHist(cl: Cluster, parent: map<NodeId, NodeId>, e: Event)
    requires Enabled(cl, e) && Mends(parent, e)
    ensures Next(cl, e).hist == cl.hist
  {
    hide Since, SinkApply;
  }

  lemma {:induction false} StaysConnected(cl: Cluster, parent: map<NodeId, NodeId>, e: Event, id: NodeId)
    requires Enabled(cl, e) && Mends(parent, e) && IsFollowing(cl, id)
    ensures IsFollowing(Next(cl, e), id)
  {
    hide Since, SinkApply;
  }

  // All that is on its way can be delivered.
  lemma {:induction false} Drain(
    base: Tables, cl: Cluster, parent: map<NodeId, NodeId>, depth: NodeId -> nat, bound: nat)
    returns (es: seq<Event>, end: Cluster)
    requires Inv(base, cl) && TreeOk(cl, parent) && Acyclic(cl, parent, depth) && Bounded(cl, bound)
    ensures Leads(cl, parent, es, end) && Quiet(end)
    ensures Inv(base, end) && TreeOk(end, parent) && Acyclic(end, parent, depth)
    ensures forall id :: IsFollowing(cl, id) ==> IsFollowing(end, id)
    decreases Work(cl, bound)
  {
    hide Inv, TreeOk, Enabled, Next, Work, Acyclic, Busy, IsFollowing;
    if Quiet(cl) {
      es, end := [], cl;
    } else {
      var e := NeverStuck(base, cl, parent, depth);
      MendStep(base, cl, parent, depth, e);
      DeliveryShrinks(base, cl, e, bound);
      es, end := Drain(base, Next(cl, e), parent, depth, bound);
      LeadsFurther(cl, parent, e, es, end);
      es := [e] + es;
    }
  }

  // Followers of a quiet tree that are not connected.
  ghost function Loose(cl: Cluster): set<NodeId> {
    set id | id in cl.nodes && id != cl.primary && !IsFollowing(cl, id)
  }

  // Everybody can connect to their source.
  lemma {:induction false} Connect(base: Tables, cl: Cluster, parent: map<NodeId, NodeId>, depth: NodeId -> nat)
    returns (es: seq<Event>, end: Cluster)
    requires Inv(base, cl) && TreeOk(cl, parent) && Acyclic(cl, parent, depth)
    requires forall id :: id in cl.nodes ==> cl.nodes[id].tx.None?
    ensures Leads(cl, parent, es, end) && Loose(end) == {}
    ensures Inv(base, end) && TreeOk(end, parent) && Acyclic(end, parent, depth)
    decreases |Loose(cl)|
  {
    hide Inv, TreeOk, Enabled, Next, Acyclic, IsFollowing;
    if Loose(cl) == {} {
      es, end := [], cl;
    } else {
      var id :| id in Loose(cl);
      LooseReady(base, cl, parent, depth, id);
      var e := Subscribe(id, parent[id]);
      MendStep(base, cl, parent, depth, e);
      Connected(base, cl, parent, depth, id);
      var fewer := Loose(Next(cl, e));
      assert fewer <= Loose(cl) - {id};
      Smaller(fewer, Loose(cl), id);
      es, end := Connect(base, Next(cl, e), parent, depth);
      LeadsFurther(cl, parent, e, es, end);
      es := [e] + es;
    }
  }

  lemma {:induction false} Smaller(a: set<NodeId>, b: set<NodeId>, x: NodeId)
    requires a <= b - {x} && x in b
    ensures |a| < |b|
  {
    assert b - {x} == a + (b - {x} - a);
    assert b == (b - {x}) + {x};
  }

  // A follower that is not connected can connect now.
  lemma {:induction false} LooseReady(
    base: Tables, cl: Cluster, parent: map<NodeId, NodeId>, depth: NodeId -> nat, id: NodeId)
    requires TreeOk(cl, parent) && Acyclic(cl, parent, depth)
    requires (forall n :: n in cl.nodes ==> cl.nodes[n].tx.None?) && id in Loose(cl)
    ensures id in parent && Enabled(cl, Subscribe(id, parent[id]))
  {
    hide Covers, Emitted;
    assert FollowOnTree(cl, parent, id);
  }

  lemma {:induction false} Connected(
    base: Tables, cl: Cluster, parent: map<NodeId, NodeId>, depth: NodeId -> nat, id: NodeId)
    requires Inv(base, cl) && TreeOk(cl, parent) && Acyclic(cl, parent, depth)
    requires (forall n :: n in cl.nodes ==> cl.nodes[n].tx.None?) && id in Loose(cl)
    requires id in parent && Enabled(cl, Subscribe(id, parent[id]))
    ensures
      var cl' := Next(cl, Subscribe(id, parent[id]));
      IsFollowing(cl', id) && forall n :: n in cl'.nodes ==> cl'.nodes[n].tx.None?
  {
    hide Since, Covers, HistOk, NodeOk, LinkOk, PrimaryOk;
    assert Emitted(cl.nodes[id]) <= Emitted(cl.nodes[parent[id]]);
  }

  // In a quiet tree in which everybody is connected, all databases are equal.
  lemma {:induction false} QuietAgrees(
    base: Tables, cl: Cluster, parent: map<NodeId, NodeId>, depth: NodeId -> nat, id: NodeId)
    requires Inv(base, cl) && TreeOk(cl, parent) && Acyclic(cl, parent, depth)
    requires Quiet(cl) && Loose(cl) == {} && id in cl.nodes
    ensures cl.primary in cl.nodes && cl.nodes[id].store == cl.nodes[cl.primary].store
    decreases depth(id)
  {
    TreeHasPrimary(base, cl, parent);
    if id != cl.primary {
      TreeStreamsExact(base, cl, parent);
      assert id !in Loose(cl);
      SameAsParent(base, cl, parent, id);
      QuietAgrees(base, cl, parent, depth, parent[id]);
    }
  }

  lemma {:induction false} SameAsParent(base: Tables, cl: Cluster, parent: map<NodeId, NodeId>, id: NodeId)
    requires TreeOk(cl, parent) && StreamsExact(cl) && Quiet(cl) && IsFollowing(cl, id) && id != cl.primary
    ensures id in parent && parent[id] in cl.nodes && cl.nodes[id].store == cl.nodes[parent[id]].store
  {
    hide Covers, Emitted, Undelivered, EmittedLog;
    assert FollowOnTree(cl, parent, id);
    assert !Busy(cl, id) && !Busy(cl, parent[id]);
  }

  lemma {:induction false} QuietHasNoTx(cl: Cluster)
    requires Quiet(cl)
    ensures forall id :: id in cl.nodes ==> cl.nodes[id].tx.None?
  {
    forall id | id in cl.nodes ensures cl.nodes[id].tx.None? {
      assert !Busy(cl, id);
    }
  }

  // From every state of a tree of datastores, delivering what is on its way and
  // connecting those who are not leads to a state in which every node has the
  // database of the primary, with all that has been written.
  lemma {:induction false} AgreeFrom(base: Tables, now: Cluster, parent: map<NodeId, NodeId>, depth: NodeId -> nat)
    returns (es: seq<Event>, end: Cluster)
    requires Inv(base, now) && TreeOk(now, parent) && Acyclic(now, parent, depth)
    ensures Leads(now, parent, es, end)
    ensures end.primary in end.nodes && end.nodes[end.primary].store.seqNum == |now.hist|
    ensures forall id :: id in end.nodes ==>
      end.nodes[id].store == end.nodes[end.primary].store && end.nodes[id].tx.None?
  {
    hide Inv, TreeOk, Enabled, Next, Quiet, Leads, Acyclic, Loose, Run, After, Mends;
    var bound := HasBound(now.nodes.Keys);
    var es1, mid := Drain(base, now, parent, depth, bound);
    QuietHasNoTx(mid);
    LeadsShape(now, parent, es1, mid);
    var es2, linked := Connect(base, mid, parent, depth);
    LeadsShape(mid, parent, es2, linked);
    var es3, done := Drain(base, linked, parent, depth, bound);
    LeadsOn(now, parent, es1, mid, es2, linked);
    LeadsOn(now, parent, es1 + es2, linked, es3, done);
    es, end := es1 + es2 + es3, done;
    LeadsShape(linked, parent, es3, end);
    NobodyLoose(linked, end);
    QuietHasNoTx(end);
    PrimaryAtEnd(base, end);
    forall id | id in end.nodes ensures end.nodes[id].store == end.nodes[end.primary].store {
      QuietAgrees(base, end, parent, depth, id);
    }
  }

  lemma {:induction false} LeadsShape(cl: Cluster, parent: map<NodeId, NodeId>, es: seq<Event>, end: Cluster)
    requires Leads(cl, parent, es, end)
    ensures end.hist == cl.hist && end.primary == cl.primary && end.nodes.Keys == cl.nodes.Keys
  {
  }

  lemma {:induction false} NobodyLoose(cl: Cluster, end: Cluster)
    requires Loose(cl) == {} && end.primary == cl.primary && end.nodes.Keys == cl.nodes.Keys
    requires forall id :: IsFollowing(cl, id) ==> IsFollowing(end, id)
    ensures Loose(end) == {}
  {
    hide IsFollowing;
    forall id ensures id !in Loose(end) {
      assert id !in Loose(cl);
    }
  }

  // So it does from every state that a run can reach.
  lemma {:induction false} CanAgree(
    base: Tables, cl: Cluster, parent: map<NodeId, NodeId>, depth: NodeId -> nat, run: seq<Event>)
    returns (es: seq<Event>, end: Cluster)
    requires Init(base, cl) && Acyclic(cl, parent, depth)
    requires Run(cl, run) && RunOnTree(cl, parent, run)
    ensures Leads(After(cl, run), parent, es, end)
    ensures end.primary in end.nodes && end.nodes[end.primary].store.seqNum == |After(cl, run).hist|
    ensures forall id :: id in end.nodes ==>
      end.nodes[id].store == end.nodes[end.primary].store && end.nodes[id].tx.None?
  {
    hide Inv, TreeOk, Enabled, Next, Leads;
    InitTree(base, cl, parent);
    TreeRun(base, cl, parent, run);
    RunKeepsShape(cl, run);
    assert Acyclic(After(cl, run), parent, depth);
    es, end := AgreeFrom(base, After(cl, run), parent, depth);
  }

  lemma {:induction false} InitTree(base: Tables, cl: Cluster, parent: map<NodeId, NodeId>)
    requires Init(base, cl) && Topology(cl, parent)
    ensures Inv(base, cl) && TreeOk(cl, parent)
  {
    InitKeeps(base, cl);
  }

  lemma {:induction false} PrimaryAtEnd(base: Tables, cl: Cluster)
    requires Inv(base, cl) && forall id :: id in cl.nodes ==> cl.nodes[id].tx.None?
    ensures cl.primary in cl.nodes && cl.nodes[cl.primary].store.seqNum == |cl.hist|
  {
  }

  lemma {:induction false} RunKeepsShape(cl: Cluster, es: seq<Event>)
    requires Run(cl, es)
    ensures After(cl, es).nodes.Keys == cl.nodes.Keys && After(cl, es).primary == cl.primary
    decreases |es|
  {
    hide Enabled, Next;
    if es != [] {
      SameNodes(cl, es[0]);
      RunKeepsShape(Next(cl, es[0]), es[1..]);
    }
  }

  lemma {:induction false} HasBound(ids: set<NodeId>) returns (bound: nat)
    ensures forall id :: id in ids ==> id < bound
  {
    bound := 0;
    if ids != {} {
      var id :| id in ids;
      bound := HasBound(ids - {id});
      assert forall other :: other in ids ==> other == id || other in ids - {id};
      if bound <= id {
        bound := id + 1;
      }
    }
  }
}
