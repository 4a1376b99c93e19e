// The replication protocol as a transition system. One primary takes writes;
// any number of followers subscribe to any node, receive a preload from its log
// and then live operations over bounded channels, apply and re-emit them.
// A transaction emits before it commits, and it emits to one subscriber at a
// time, so other nodes run while it is open.
module Cluster {
  import opened Wrappers
  import opened Tables
  import opened LogStore
  import opened Snapshots

  const CHAN_BUF_SIZE: nat := 1000

  type NodeId = nat

  // An open transaction that has reached Emit: the database to commit, the
  // operation, and the subscribers it has still to be sent to.
  datatype Tx = Tx(next: Store, op: Op, pending: set<NodeId>)

  // A subscription: the source, the output channel, the rest of the preload,
  // and the channel registered with the source's pubsub.
  datatype Sub = Sub(source: NodeId, out: seq<Op>, preload: seq<Op>, live: seq<Op>)

  // Where a node's follow loop stands.
  datatype Follow =
    | Idle
    | Ahead(source: NodeId)
    | Holding(from: NodeId, snap: Snapshot)
    | Following(sub: Sub)

  datatype Node = Node(store: Store, tx: Option<Tx>, follow: Follow)

  // `hist` records, in order, what the primary has emitted and not rolled back.
  datatype Cluster = Cluster(primary: NodeId, nodes: map<NodeId, Node>, hist: seq<Op>)

  datatype Event =
    | Write(typ: OpType, row: Row)
    | RefuseWrite(typ: OpType, row: Row)
    | Send(source: NodeId, node: NodeId)
    | Commit(node: NodeId)
    | Abort(node: NodeId)
    | Subscribe(node: NodeId, source: NodeId)
    | TakeSnapshot(node: NodeId, source: NodeId, items: seq<Row>)
    | LoadSnapshot(node: NodeId)
    | PumpPreload(node: NodeId)
    | PumpLive(node: NodeId)
    | Receive(node: NodeId)
    | RefuseReceive(node: NodeId)
    | Disconnect(node: NodeId)

  function Subscribers(cl: Cluster, source: NodeId): set<NodeId> {
    set id | id in cl.nodes && FollowsFrom(cl.nodes[id], source)
  }

  predicate FollowsFrom(n: Node, source: NodeId) {
    n.follow.Following? && n.follow.sub.source == source
  }

  function WithNode(cl: Cluster, id: NodeId, n: Node): Cluster {
    cl.(nodes := cl.nodes[id := n])
  }

  predicate IsFollowing(cl: Cluster, id: NodeId) {
    id in cl.nodes && cl.nodes[id].follow.Following?
  }

  // ---------------------------------------------------------------- enabling

  // When an event can happen. A node's database lock is held while its
  // transaction is open, so every other transaction on it waits.
  ghost predicate Enabled(cl: Cluster, e: Event) {
    match e
    case Write(typ, row) =>
      cl.primary in cl.nodes && cl.nodes[cl.primary].tx.None? &&
      SinkApply(cl.nodes[cl.primary].store, Op(0, typ, row), false).Ok?
    case RefuseWrite(typ, row) =>
      cl.primary in cl.nodes && cl.nodes[cl.primary].tx.None? &&
      SinkApply(cl.nodes[cl.primary].store, Op(0, typ, row), false).Err?
    case Send(source, node) =>
      source in cl.nodes && cl.nodes[source].tx.Some? && node in cl.nodes[source].tx.value.pending &&
      IsFollowing(cl, node) && node != source && cl.nodes[node].follow.sub.source == source &&
      |cl.nodes[node].follow.sub.live| < CHAN_BUF_SIZE
    case Commit(node) =>
      node in cl.nodes && cl.nodes[node].tx.Some? &&
      cl.nodes[node].tx.value.pending !! Subscribers(cl, node)
    case Abort(node) =>
      node in cl.nodes && cl.nodes[node].tx.Some? && (node == cl.primary ==> cl.hist != [])
    case Subscribe(node, source) =>
      node in cl.nodes && source in cl.nodes && node != source && node != cl.primary &&
      cl.nodes[node].follow.Idle? && cl.nodes[node].tx.None? && cl.nodes[source].tx.None?
    case TakeSnapshot(node, source, items) =>
      node in cl.nodes && source in cl.nodes && node != cl.primary &&
      cl.nodes[node].follow == Ahead(source) && cl.nodes[source].tx.None? &&
      Listing(items, cl.nodes[source].store.tables)
    case LoadSnapshot(node) =>
      node in cl.nodes && cl.nodes[node].follow.Holding? && cl.nodes[node].tx.None?
    case PumpPreload(node) =>
      IsFollowing(cl, node) && cl.nodes[node].follow.sub.preload != [] &&
      |cl.nodes[node].follow.sub.out| < CHAN_BUF_SIZE
    case PumpLive(node) =>
      IsFollowing(cl, node) && cl.nodes[node].follow.sub.preload == [] &&
      cl.nodes[node].follow.sub.live != [] && |cl.nodes[node].follow.sub.out| < CHAN_BUF_SIZE
    case Receive(node) =>
      IsFollowing(cl, node) && cl.nodes[node].tx.None? && cl.nodes[node].follow.sub.out != [] &&
      SinkApply(cl.nodes[node].store, cl.nodes[node].follow.sub.out[0], true).Ok?
    case RefuseReceive(node) =>
      IsFollowing(cl, node) && cl.nodes[node].tx.None? && cl.nodes[node].follow.sub.out != [] &&
      SinkApply(cl.nodes[node].store, cl.nodes[node].follow.sub.out[0], true).Err?
    case Disconnect(node) =>
      IsFollowing(cl, node)
  }

  // ---------------------------------------------------------------- effects

  // Subscribe: past the horizon if the caller is ahead, else preload from the log.
  function Subscribed(n: Node, source: NodeId, s: Node): Node {
    if n.store.seqNum + 1 > s.store.seqNum + 1 then n.(follow := Ahead(source))
    else n.(follow := Following(Sub(source, [], Since(s.store.log, n.store.seqNum + 1), [])))
  }

  function Loaded(n: Node): Node
    requires n.follow.Holding?
  {
    match SinkLoad(n.store, n.follow.snap)
    case Err(_) => n.(follow := Idle)
    case Ok(s) => n.(store := s, follow := Idle)
  }

  // Reach Emit with an operation: the transaction is open, nothing is sent yet.
  function Opened(cl: Cluster, id: NodeId, op: Op, fromLog: bool): Tx
    requires id in cl.nodes && SinkApply(cl.nodes[id].store, op, fromLog).Ok?
  {
    var r := SinkApply(cl.nodes[id].store, op, fromLog).value;
    Tx(r.0, r.1, Subscribers(cl, id))
  }

  function Next(cl: Cluster, e: Event): Cluster
    requires Enabled(cl, e)
  {
    match e
    case Write(typ, row) =>
      var tx := Opened(cl, cl.primary, Op(0, typ, row), false);
      WithNode(cl, cl.primary, cl.nodes[cl.primary].(tx := Some(tx))).(hist := cl.hist + [tx.op])
    case RefuseWrite(_, _) => cl
    case Send(source, node) =>
      var s, n := cl.nodes[source], cl.nodes[node];
      var cl' := WithNode(cl, source, s.(tx := Some(s.tx.value.(pending := s.tx.value.pending - {node}))));
      WithNode(cl', node, n.(follow := Following(n.follow.sub.(live := n.follow.sub.live + [s.tx.value.op]))))
    case Commit(node) =>
      WithNode(cl, node, cl.nodes[node].(store := cl.nodes[node].tx.value.next, tx := None))
    case Abort(node) =>
      var cl' := WithNode(cl, node, cl.nodes[node].(tx := None, follow := Idle));
      if node == cl.primary then cl'.(hist := cl.hist[..|cl.hist| - 1]) else cl'
    case Subscribe(node, source) =>
      WithNode(cl, node, Subscribed(cl.nodes[node], source, cl.nodes[source]))
    case TakeSnapshot(node, source, items) =>
      WithNode(cl, node, cl.nodes[node].(follow :=
        Holding(source, Snapshot(cl.nodes[source].store.seqNum, items))))
    case LoadSnapshot(node) =>
      WithNode(cl, node, Loaded(cl.nodes[node]))
    case PumpPreload(node) =>
      var sub := cl.nodes[node].follow.sub;
      WithNode(cl, node, cl.nodes[node].(follow :=
        Following(sub.(out := sub.out + [sub.preload[0]], preload := sub.preload[1..]))))
    case PumpLive(node) =>
      var sub := cl.nodes[node].follow.sub;
      WithNode(cl, node, cl.nodes[node].(follow :=
        Following(sub.(out := sub.out + [sub.live[0]], live := sub.live[1..]))))
    case Receive(node) =>
      var sub := cl.nodes[node].follow.sub;
      WithNode(cl, node, cl.nodes[node].(tx := Some(Opened(cl, node, sub.out[0], true)),
                                         follow := Following(sub.(out := sub.out[1..]))))
    case RefuseReceive(node) => WithNode(cl, node, cl.nodes[node].(follow := Idle))
    case Disconnect(node) => WithNode(cl, node, cl.nodes[node].(follow := Idle))
  }

  // ---------------------------------------------------------------- runs

  ghost predicate Run(cl: Cluster, es: seq<Event>)
    decreases |es|
  {
    es == [] || (Enabled(cl, es[0]) && Run(Next(cl, es[0]), es[1..]))
  }

  ghost function After(cl: Cluster, es: seq<Event>): Cluster
    requires Run(cl, es)
    decreases |es|
  {
    if es == [] then cl else After(Next(cl, es[0]), es[1..])
  }

  lemma {:induction false} RunConcat(cl: Cluster, es: seq<Event>, more: seq<Event>)
    requires Run(cl, es) && Run(After(cl, es), more)
    ensures Run(cl, es + more) && After(cl, es + more) == After(After(cl, es), more)
    decreases |es|
  {
    hide Enabled, Next;
    if es == [] {
      assert es + more == more;
    } else {
      RunConcat(Next(cl, es[0]), es[1..], more);
      assert (es + more)[1..] == es[1..] + more;
    }
  }

  // All nodes start from the same base, with an empty log.
  ghost predicate Init(base: Tables, cl: Cluster) {
    && Integrity(base) && cl.hist == []
    && cl.primary in cl.nodes
    && forall id :: id in cl.nodes ==> cl.nodes[id] == Node(Store(base, map[], 0), None, Idle)
  }

  // ---------------------------------------------------------------- invariant

  // How many operations a node has emitted; one more than it has committed
  // while its transaction is open.
  function Emitted(n: Node): nat {
    n.store.seqNum + if n.tx.Some? then 1 else 0
  }

  // A node's database is the replay of the history up to its counter, its log
  // agrees with the history, and its open transaction is the next operation.
  ghost predicate NodeOk(base: Tables, hist: seq<Op>, n: Node) {
    && Emitted(n) <= |hist|
    && n.store.tables == StateAt(base, hist, n.store.seqNum)
    && Agrees(n.store.log, hist)
    && (n.tx.Some? ==>
        var seqNum := n.store.seqNum + 1;
        && n.tx.value.op == hist[seqNum - 1]
        && n.tx.value.next == Store(StateAt(base, hist, seqNum), n.store.log[seqNum := hist[seqNum - 1]], seqNum))
    && (n.follow.Holding? ==>
        n.follow.snap.seqNum <= |hist| &&
        Listing(n.follow.snap.items, StateAt(base, hist, n.follow.snap.seqNum)))
  }

  // What a follower has still to receive, in the order it will arrive.
  function Undelivered(id: NodeId, sub: Sub, s: Node): seq<Op> {
    sub.out + sub.preload + sub.live + if s.tx.Some? && id in s.tx.value.pending then [s.tx.value.op] else []
  }

  // It is exactly the part of the history between follower and source.
  ghost predicate StreamOk(hist: seq<Op>, id: NodeId, n: Node, s: Node)
    requires n.follow.Following?
  {
    && Emitted(n) <= Emitted(s) <= |hist|
    && Undelivered(id, n.follow.sub, s) == hist[Emitted(n)..Emitted(s)]
  }

  ghost predicate LinkOk(cl: Cluster, id: NodeId)
    requires IsFollowing(cl, id)
  {
    var source := cl.nodes[id].follow.sub.source;
    source in cl.nodes && source != id && StreamOk(cl.hist, id, cl.nodes[id], cl.nodes[source])
  }

  ghost predicate PrimaryOk(cl: Cluster) {
    && cl.primary in cl.nodes
    && cl.nodes[cl.primary].follow.Idle?
    && Emitted(cl.nodes[cl.primary]) == |cl.hist|
    && Covers(cl.nodes[cl.primary].store, 1)
  }

  ghost predicate HistOk(base: Tables, hist: seq<Op>) {
    Integrity(base) && Numbered(hist) && Replays(base, hist)
  }

  ghost predicate Inv(base: Tables, cl: Cluster) {
    && HistOk(base, cl.hist)
    && PrimaryOk(cl)
    && (forall id :: id in cl.nodes ==> NodeOk(base, cl.hist, cl.nodes[id]))
    && (forall id :: IsFollowing(cl, id) ==> LinkOk(cl, id))
  }
}
