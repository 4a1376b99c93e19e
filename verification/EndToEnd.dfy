// Datastores and gateways together. A gateway follows a datastore with the same
// follow loop as a datastore does, and nobody follows a gateway. One that is
// restarted begins with empty maps, beside whatever devices it finds.
module EndToEnd {
  import opened Wrappers
  import opened Tables
  import opened LogStore
  import opened Cluster
  import opened ClusterSteps
  import opened ClusterRuns
  import opened ClusterProgress
  import Gateway
  import GatewayRefinement
  import opened GatewayRestart

  // A gateway: what it has made of the log, the devices it found when it last
  // started, and the furthest it had been before that.
  datatype Seat = Seat(outcome: Gateway.Outcome, kept: map<string, Gateway.Device>, peak: nat)

  // Gateways are leaves of the cluster. The cluster keeps a gateway's place in
  // the log and its streams, `gws` the gateway itself.
  datatype Fleet = Fleet(cl: Cluster, gws: map<NodeId, Seat>)

  datatype Step = Protocol(event: Event) | Restart(gateway: NodeId, clean: bool)

  // A gateway that has failed or crashed receives nothing until it is
  // restarted. Only one that has not crashed is closed before.
  ghost predicate StepEnabled(f: Fleet, s: Step) {
    match s
    case Protocol(e) => Enabled(f.cl, e) && (e.Receive? && e.node in f.gws ==> f.gws[e.node].outcome.Applied?)
    case Restart(g, clean) => g in f.gws && g in f.cl.nodes && (clean ==> !f.gws[g].outcome.Panicked?)
  }

  function Received(parse: Gateway.Parser, seat: Seat, op: Op): Seat
    requires seat.outcome.Applied?
  {
    seat.(outcome := Gateway.Apply(parse, seat.outcome.gw, op))
  }

  // Closing stops the interfaces the gateway knows; being killed stops none.
  function Restarted(seat: Seat, place: nat, clean: bool): Seat {
    var gw := seat.outcome.gw;
    var kept := if clean then Gateway.Leftover(gw) else gw.devices;
    Seat(Gateway.Applied(Started(kept)), kept, if place < seat.peak then seat.peak else place)
  }

  function StepNext(parse: Gateway.Parser, base: Tables, f: Fleet, s: Step): Fleet
    requires StepEnabled(f, s)
  {
    match s
    case Protocol(e) =>
      Fleet(Next(f.cl, e),
            if e.Receive? && e.node in f.gws
            then f.gws[e.node := Received(parse, f.gws[e.node], f.cl.nodes[e.node].follow.sub.out[0])]
            else f.gws)
    case Restart(g, clean) =>
      Fleet(WithNode(f.cl, g, Node(Store(base, map[], 0), None, Idle)),
            f.gws[g := Restarted(f.gws[g], Emitted(f.cl.nodes[g]), clean)])
  }

  ghost predicate FleetRun(parse: Gateway.Parser, base: Tables, f: Fleet, ss: seq<Step>)
    decreases |ss|
  {
    ss == [] || (StepEnabled(f, ss[0]) && FleetRun(parse, base, StepNext(parse, base, f, ss[0]), ss[1..]))
  }

  ghost function FleetAfter(parse: Gateway.Parser, base: Tables, f: Fleet, ss: seq<Step>): Fleet
    requires FleetRun(parse, base, f, ss)
    decreases |ss|
  {
    if ss == [] then f else FleetAfter(parse, base, StepNext(parse, base, f, ss[0]), ss[1..])
  }

  // Gateways are nodes other than the primary, and nobody's source.
  ghost predicate Leaves(f: Fleet, parent: map<NodeId, NodeId>) {
    && f.gws.Keys <= f.cl.nodes.Keys && f.cl.primary !in f.gws
    && forall id :: id in parent ==> parent[id] !in f.gws
  }

  ghost predicate FleetInit(base: Tables, f: Fleet, parent: map<NodeId, NodeId>) {
    && Init(base, f.cl) && Topology(f.cl, parent) && Leaves(f, parent)
    && forall g :: g in f.gws ==> f.gws[g] == Seat(Gateway.Applied(NEW_GATEWAY), map[], 0)
  }

  ghost predicate StepOnTree(parent: map<NodeId, NodeId>, s: Step) {
    s.Protocol? ==> KeepsSource(parent, s.event) && !s.event.Abort?
  }

  // ---------------------------------------------------------------- invariant

  // Every gateway is what the log up to its place makes of one that starts
  // beside the devices it found, and the log has created all of those.
  ghost predicate FleetOk(parse: Gateway.Parser, base: Tables, f: Fleet, parent: map<NodeId, NodeId>) {
    && Inv(base, f.cl) && TreeOk(f.cl, parent) && Leaves(f, parent)
    && forall g :: g in f.gws ==> GatewayOk(parse, f, g)
  }

  ghost predicate GatewayOk(parse: Gateway.Parser, f: Fleet, g: NodeId) {
    && g in f.gws && g in f.cl.nodes && Emitted(f.cl.nodes[g]) <= |f.cl.hist| && f.gws[g].peak <= |f.cl.hist|
    && f.gws[g].outcome ==
       GatewayRefinement.GatewayAt(parse, Started(f.gws[g].kept), f.cl.hist, Emitted(f.cl.nodes[g]))
    && f.gws[g].kept.Keys <= Created(f.cl.hist, f.gws[g].peak)
  }

  lemma {:induction false} GatewayAtPrefix(parse: Gateway.Parser, gw: Gateway.State, hist: seq<Op>, more: seq<Op>, k: nat)
    requires k <= |hist|
    ensures GatewayRefinement.GatewayAt(parse, gw, hist + more, k) == GatewayRefinement.GatewayAt(parse, gw, hist, k)
  {
    hide Gateway.Apply;
    if k > 0 {
      GatewayAtPrefix(parse, gw, hist, more, k - 1);
    }
  }

  // On a tree the history only grows.
  lemma {:induction false} HistGrows(base: Tables, cl: Cluster, e: Event)
    requires Inv(base, cl) && Enabled(cl, e) && !e.Abort?
    ensures cl.hist <= Next(cl, e).hist
  {
    hide StateAt, Since, SinkApply, Inv;
  }

  // Only receiving moves a follower's place, by one.
  lemma {:induction false} PlaceMoves(base: Tables, cl: Cluster, parent: map<NodeId, NodeId>, e: Event, g: NodeId)
    requires Inv(base, cl) && TreeOk(cl, parent)
    requires Enabled(cl, e) && KeepsSource(parent, e) && !e.Abort? && !Trouble(e)
    requires g in cl.nodes && g != cl.primary
    ensures Next(cl, e).nodes.Keys == cl.nodes.Keys
    ensures Emitted(Next(cl, e).nodes[g]) == Emitted(cl.nodes[g]) + if e.Receive? && e.node == g then 1 else 0
  {
    hide Enabled, Next, HistOk, NodeOk, LinkOk, PrimaryOk, TreeOk;
    SameNodes(cl, e);
    PlaceAfter(base, cl, e, g);
  }

  lemma {:induction false} GatewayStep(
    parse: Gateway.Parser, base: Tables, f: Fleet, parent: map<NodeId, NodeId>, e: Event, g: NodeId)
    requires FleetOk(parse, base, f, parent) && g in f.gws
    requires StepEnabled(f, Protocol(e)) && KeepsSource(parent, e) && !e.Abort? && !Trouble(e)
    ensures GatewayOk(parse, StepNext(parse, base, f, Protocol(e)), g)
  {
    hide Inv, TreeOk, Enabled, Next, KeepsSource, Trouble, Gateway.Apply, GatewayRefinement.GatewayAt, Created;
    assert GatewayOk(parse, f, g);
    var place, hist, hist' := Emitted(f.cl.nodes[g]), f.cl.hist, Next(f.cl, e).hist;
    PlaceMoves(base, f.cl, parent, e, g);
    HistGrows(base, f.cl, e);
    assert hist' == hist + hist'[|hist|..];
    GatewayAtPrefix(parse, Started(f.gws[g].kept), hist, hist'[|hist|..], place);
    CreatedPrefix(hist, hist'[|hist|..], f.gws[g].peak);
    if e.Receive? && e.node == g {
      ReceivesNext(base, f.cl, e);
      GatewayAtNext(parse, Started(f.gws[g].kept), hist', place);
    }
  }

  lemma {:induction false} ReceivesNext(base: Tables, cl: Cluster, e: Event)
    requires Inv(base, cl) && Enabled(cl, e) && e.Receive?
    ensures e.node in cl.nodes && cl.nodes[e.node].follow.Following? && cl.nodes[e.node].follow.sub.out != []
    ensures Emitted(cl.nodes[e.node]) < |cl.hist|
    ensures cl.nodes[e.node].follow.sub.out[0] == cl.hist[Emitted(cl.nodes[e.node])]
  {
    hide Inv, SinkApply;
    NextInLine(base, cl, e.node);
  }

  lemma {:induction false} GatewayAtNext(parse: Gateway.Parser, gw: Gateway.State, hist: seq<Op>, k: nat)
    requires k < |hist| && GatewayRefinement.GatewayAt(parse, gw, hist, k).Applied?
    ensures GatewayRefinement.GatewayAt(parse, gw, hist, k + 1) ==
      Gateway.Apply(parse, GatewayRefinement.GatewayAt(parse, gw, hist, k).gw, hist[k])
  {
  }

  // Restarting a leaf keeps the cluster sound: nobody reads from it.
  lemma {:induction false} RestartKeeps(base: Tables, f: Fleet, parent: map<NodeId, NodeId>, g: NodeId)
    requires Inv(base, f.cl) && TreeOk(f.cl, parent) && Leaves(f, parent) && g in f.gws
    ensures
      var cl' := WithNode(f.cl, g, Node(Store(base, map[], 0), None, Idle));
      Inv(base, cl') && TreeOk(cl', parent)
  {
    hide Inv, TreeOk;
    RestartInv(base, f, parent, g);
    RestartTree(base, f, parent, g);
  }

  lemma {:induction false} RestartInv(base: Tables, f: Fleet, parent: map<NodeId, NodeId>, g: NodeId)
    requires Inv(base, f.cl) && TreeOk(f.cl, parent) && Leaves(f, parent) && g in f.gws
    ensures Inv(base, WithNode(f.cl, g, Node(Store(base, map[], 0), None, Idle)))
  {
    hide HistOk, NodeOk, LinkOk, Covers, FollowOnTree, Emitted;
    var cl' := WithNode(f.cl, g, Node(Store(base, map[], 0), None, Idle));
    NewNodeOk(base, f.cl.hist);
    forall id | IsFollowing(cl', id) ensures LinkOk(cl', id) {
      assert IsFollowing(f.cl, id) && FollowOnTree(f.cl, parent, id);
      LinkSurvives(f.cl, parent, g, id);
    }
  }

  lemma {:induction false} RestartTree(base: Tables, f: Fleet, parent: map<NodeId, NodeId>, g: NodeId)
    requires TreeOk(f.cl, parent) && Leaves(f, parent) && g in f.gws
    ensures TreeOk(WithNode(f.cl, g, Node(Store(base, map[], 0), None, Idle)), parent)
  {
    hide Covers, FollowOnTree, Emitted;
    var cl' := WithNode(f.cl, g, Node(Store(base, map[], 0), None, Idle));
    NewNodeOk(base, []);
    forall id | id in cl'.nodes && id != cl'.primary
      ensures Emitted(cl'.nodes[id]) <= Emitted(cl'.nodes[parent[id]])
    {
      assert parent[id] != g;
    }
    forall id | id in cl'.nodes ensures FollowOnTree(cl', parent, id) {
      assert FollowOnTree(f.cl, parent, id);
      PlaceSurvives(f.cl, parent, g, id, base);
    }
  }

  lemma {:induction false} LinkSurvives(cl: Cluster, parent: map<NodeId, NodeId>, g: NodeId, id: NodeId)
    requires IsFollowing(cl, id) && LinkOk(cl, id) && id != g
    requires (id != cl.primary ==> id in parent) && FollowOnTree(cl, parent, id)
    requires forall k :: k in parent ==> parent[k] != g
    ensures forall n: Node :: LinkOk(WithNode(cl, g, n), id)
  {
    hide StreamOk;
  }

  lemma {:induction false} PlaceSurvives(cl: Cluster, parent: map<NodeId, NodeId>, g: NodeId, id: NodeId, base: Tables)
    requires id in cl.nodes && (id != cl.primary ==> id in parent) && FollowOnTree(cl, parent, id)
    ensures FollowOnTree(WithNode(cl, g, Node(Store(base, map[], 0), None, Idle)), parent, id)
  {
  }

  lemma {:induction false} NewNodeOk(base: Tables, hist: seq<Op>)
    ensures NodeOk(base, hist, Node(Store(base, map[], 0), None, Idle))
    ensures Covers(Store(base, map[], 0), 1) && Emitted(Node(Store(base, map[], 0), None, Idle)) == 0
  {
  }

  lemma {:induction false} FleetStepKeeps(
    parse: Gateway.Parser, base: Tables, f: Fleet, parent: map<NodeId, NodeId>, s: Step)
    requires FleetOk(parse, base, f, parent)
    requires StepEnabled(f, s) && StepOnTree(parent, s)
    ensures FleetOk(parse, base, StepNext(parse, base, f, s), parent)
  {
    hide Inv, TreeOk, Enabled, Next, Sound, KeepsSource, Trouble, Gateway.Apply, GatewayOk;
    var f' := StepNext(parse, base, f, s);
    match s
    case Protocol(e) =>
      TreeStepSound(base, f.cl, parent, e);
      TreeStepKeeps(base, f.cl, parent, e);
      StepKeepsInvIff(base, f.cl, e);
      SameNodes(f.cl, e);
      forall g | g in f'.gws ensures GatewayOk(parse, f', g) {
        assert g in f.gws;
        GatewayStep(parse, base, f, parent, e, g);
      }
    case Restart(r, clean) =>
      RestartKeeps(base, f, parent, r);
      forall g | g in f'.gws ensures GatewayOk(parse, f', g) {
        GatewayRestarted(parse, base, f, r, clean, g);
      }
  }

  lemma {:induction false} GatewayRestarted(
    parse: Gateway.Parser, base: Tables, f: Fleet, r: NodeId, clean: bool, g: NodeId)
    requires StepEnabled(f, Restart(r, clean)) && GatewayOk(parse, f, r) && GatewayOk(parse, f, g)
    ensures GatewayOk(parse, StepNext(parse, base, f, Restart(r, clean)), g)
  {
    hide Gateway.Apply;
    if g == r {
      var seat, place, hist := f.gws[r], Emitted(f.cl.nodes[r]), f.cl.hist;
      var peak := Restarted(seat, place, clean).peak;
      DevicesCreated(parse, seat.kept, hist, place);
      CreatedGrows(hist, place, peak);
      CreatedGrows(hist, seat.peak, peak);
    }
  }

  lemma {:induction false} FleetRunKeeps(
    parse: Gateway.Parser, base: Tables, f: Fleet, parent: map<NodeId, NodeId>, ss: seq<Step>)
    requires FleetOk(parse, base, f, parent)
    requires FleetRun(parse, base, f, ss) && forall s :: s in ss ==> StepOnTree(parent, s)
    ensures FleetOk(parse, base, FleetAfter(parse, base, f, ss), parent)
    decreases |ss|
  {
    hide FleetOk, StepEnabled, StepNext, StepOnTree;
    if ss != [] {
      FleetStepKeeps(parse, base, f, parent, ss[0]);
      FleetRunKeeps(parse, base, StepNext(parse, base, f, ss[0]), parent, ss[1..]);
    }
  }

  // ---------------------------------------------------------------- devices over a restart

  // The devices a gateway has found are those it had when it was last
  // restarted: after a kill all of them, after a clean stop those of names it
  // did not know.
  lemma {:induction false} KeptSinceRestart(
    parse: Gateway.Parser, base: Tables, f: Fleet, ss: seq<Step>, i: nat, clean: bool, g: NodeId)
    requires FleetRun(parse, base, f, ss) && i < |ss| && ss[i] == Restart(g, clean)
    requires forall j :: i < j < |ss| ==> !(ss[j].Restart? && ss[j].gateway == g)
    ensures FleetRun(parse, base, f, ss[..i])
    ensures
      var before, end := FleetAfter(parse, base, f, ss[..i]), FleetAfter(parse, base, f, ss);
      && g in before.gws && g in end.gws
      && var gone, kept := before.gws[g].outcome.gw, end.gws[g].kept;
         && (forall name :: name in kept <==> name in gone.devices && (clean ==> name !in gone.intfs))
         && (forall name :: name in kept ==> kept[name] == gone.devices[name])
    decreases |ss|
  {
    hide StepEnabled, StepNext;
    if i == 0 {
      assert ss[..0] == [];
      RestartKeepsDevices(parse, base, f, g, clean);
      KeptUntilRestart(parse, base, StepNext(parse, base, f, ss[0]), ss[1..], g);
    } else {
      var rest := ss[1..];
      assert rest[i - 1] == ss[i] && forall j :: i - 1 < j < |rest| ==> rest[j] == ss[j + 1];
      KeptSinceRestart(parse, base, StepNext(parse, base, f, ss[0]), rest, i - 1, clean, g);
      assert ss[..i][0] == ss[0] && ss[..i][1..] == rest[..i - 1];
    }
  }

  lemma {:induction false} RestartKeepsDevices(parse: Gateway.Parser, base: Tables, f: Fleet, g: NodeId, clean: bool)
    requires StepEnabled(f, Restart(g, clean))
    ensures
      var f' := StepNext(parse, base, f, Restart(g, clean));
      && g in f.gws && g in f'.gws
      && var gone, kept := f.gws[g].outcome.gw, f'.gws[g].kept;
         && (forall name :: name in kept <==> name in gone.devices && (clean ==> name !in gone.intfs))
         && (forall name :: name in kept ==> kept[name] == gone.devices[name])
  {
  }

  lemma {:induction false} KeptUntilRestart(parse: Gateway.Parser, base: Tables, f: Fleet, ss: seq<Step>, g: NodeId)
    requires FleetRun(parse, base, f, ss) && g in f.gws
    requires forall j :: 0 <= j < |ss| ==> !(ss[j].Restart? && ss[j].gateway == g)
    ensures g in FleetAfter(parse, base, f, ss).gws && FleetAfter(parse, base, f, ss).gws[g].kept == f.gws[g].kept
    decreases |ss|
  {
    hide StepEnabled, StepNext;
    if ss != [] {
      StepKeepsFound(parse, base, f, ss[0], g);
      KeptUntilRestart(parse, base, StepNext(parse, base, f, ss[0]), ss[1..], g);
    }
  }

  lemma {:induction false} StepKeepsFound(parse: Gateway.Parser, base: Tables, f: Fleet, s: Step, g: NodeId)
    requires StepEnabled(f, s) && g in f.gws && !(s.Restart? && s.gateway == g)
    ensures g in StepNext(parse, base, f, s).gws && StepNext(parse, base, f, s).gws[g].kept == f.gws[g].kept
  {
    hide Enabled, Next, Gateway.Apply;
  }

  // ---------------------------------------------------------------- what users get

  // Every operation of the log is one a gateway that starts with it carries.
  ghost predicate LogCarried(parse: Gateway.Parser, base: Tables, hist: seq<Op>) {
    forall k :: 0 <= k < |hist| ==> GatewayRefinement.CarriedAt(parse, base, NEW_GATEWAY, hist, k)
  }

  // The gateway runs. Beside the devices left of those it found, of which none
  // is left once it is back where it had been, it shows the database as it was
  // at its number, and so the database of every datastore at that number; and
  // once nothing is on its way to it from an idle source, that of the source.
  ghost predicate GatewayServes(parse: Gateway.Parser, base: Tables, f: Fleet, g: NodeId)
    requires g in f.gws && g in f.cl.nodes && f.cl.primary in f.cl.nodes
  {
    var hist, n, seat := EmittedLog(f.cl.nodes[f.cl.primary]), f.cl.nodes[g], f.gws[g];
    && seat.outcome.Applied? && seat.outcome.gw.seqNum == Emitted(n) <= |hist|
    && var gw, left := seat.outcome.gw, Left(seat.kept, hist, Emitted(n));
       && (seat.peak <= gw.seqNum ==> left == map[])
       && ShowsBeside(parse, StateAt(base, hist, gw.seqNum), gw, left)
       && (forall id :: id in f.cl.nodes && f.cl.nodes[id].store.seqNum == gw.seqNum ==>
           ShowsBeside(parse, f.cl.nodes[id].store.tables, gw, left))
       && (n.follow.Following? && n.follow.sub.source in f.cl.nodes ==>
           var s := f.cl.nodes[n.follow.sub.source];
           Undelivered(g, n.follow.sub, s) == [] && s.tx.None? ==> ShowsBeside(parse, s.store.tables, gw, left))
  }

  // In every run of a tree of datastores with gateways at its leaves, with
  // connections lost and reopened and gateways closed, killed and restarted: if
  // gateways can carry the operations of the primary's log, every gateway serves
  // what the datastores hold.
  lemma {:induction false} GatewaysServe(
    parse: Gateway.Parser, base: Tables, f: Fleet, parent: map<NodeId, NodeId>, ss: seq<Step>, g: NodeId)
    requires FleetInit(base, f, parent) && base.interfaces == map[] && base.peers == map[]
    requires FleetRun(parse, base, f, ss) && forall s :: s in ss ==> StepOnTree(parent, s)
    requires
      var end := FleetAfter(parse, base, f, ss);
      && end.cl.primary in end.cl.nodes && g in end.gws
      && LogCarried(parse, base, EmittedLog(end.cl.nodes[end.cl.primary]))
    ensures
      var end := FleetAfter(parse, base, f, ss);
      g in end.cl.nodes && GatewayServes(parse, base, end, g)
  {
    hide FleetRun, FleetAfter, StepOnTree, LogCarried, GatewayServes, Inv, TreeOk;
    FleetStarts(parse, base, f, parent);
    FleetRunKeeps(parse, base, f, parent, ss);
    ServesWhenOk(parse, base, FleetAfter(parse, base, f, ss), parent, g);
  }

  lemma {:induction false} FleetStarts(parse: Gateway.Parser, base: Tables, f: Fleet, parent: map<NodeId, NodeId>)
    requires FleetInit(base, f, parent)
    ensures FleetOk(parse, base, f, parent)
  {
    hide Inv;
    InitKeeps(base, f.cl);
    assert TreeOk(f.cl, parent);
  }

  lemma {:induction false} ServesWhenOk(
    parse: Gateway.Parser, base: Tables, f: Fleet, parent: map<NodeId, NodeId>, g: NodeId)
    requires FleetOk(parse, base, f, parent) && base.interfaces == map[] && base.peers == map[]
    requires g in f.gws && f.cl.primary in f.cl.nodes && g in f.cl.nodes
    requires LogCarried(parse, base, EmittedLog(f.cl.nodes[f.cl.primary]))
    ensures GatewayServes(parse, base, f, g)
  {
    hide StateAt, EmittedLog, ShowsBeside, LogCarried, Replicated, LinkOk, NodeOk, HistOk, PrimaryOk, Undelivered;
    hide GatewayRefinement.GatewayAt, FollowOnTree, Created;
    var hist, n := f.cl.hist, f.cl.nodes[g];
    TreeIsReplicated(base, f.cl, parent);
    assert GatewayOk(parse, f, g);
    ShownAt(parse, base, f.gws[g].kept, hist, Emitted(n));
    if f.gws[g].peak <= Emitted(n) {
      CreatedGrows(hist, f.gws[g].peak, Emitted(n));
    }
    forall id | id in f.cl.nodes
      ensures f.cl.nodes[id].store.seqNum <= |hist|
      ensures f.cl.nodes[id].store.tables == StateAt(base, hist, f.cl.nodes[id].store.seqNum)
    {
      HoldsReplay(base, hist, f.cl.nodes[id]);
    }
    if n.follow.Following? {
      assert IsFollowing(f.cl, g);
      CaughtUp(f.cl, g);
    }
  }

  lemma {:induction false} HoldsReplay(base: Tables, hist: seq<Op>, n: Node)
    requires NodeOk(base, hist, n)
    ensures n.store.seqNum <= |hist| && n.store.tables == StateAt(base, hist, n.store.seqNum)
  {
  }

  lemma {:induction false} CaughtUp(cl: Cluster, g: NodeId)
    requires IsFollowing(cl, g) && LinkOk(cl, g)
    ensures
      var sub := cl.nodes[g].follow.sub;
      Undelivered(g, sub, cl.nodes[sub.source]) == [] && cl.nodes[sub.source].tx.None? ==>
        Emitted(cl.nodes[g]) == cl.nodes[sub.source].store.seqNum
  {
  }

  lemma {:induction false} ShownAt(
    parse: Gateway.Parser, base: Tables, kept: map<string, Gateway.Device>, hist: seq<Op>, k: nat)
    requires HistOk(base, hist) && LogCarried(parse, base, hist) && k <= |hist|
    requires base.interfaces == map[] && base.peers == map[]
    ensures
      var r := GatewayRefinement.GatewayAt(parse, Started(kept), hist, k);
      r.Applied? && r.gw.seqNum == k && ShowsBeside(parse, StateAt(base, hist, k), r.gw, Left(kept, hist, k))
  {
    hide Gateway.Shows, GatewayRefinement.CarriedAt, StateAt, GatewayRefinement.GatewayAt, ShowsBeside;
    GatewayRefinement.NewShows(parse, base);
    GatewayRefinement.GatewayRefinesIff(parse, base, NEW_GATEWAY, hist, |hist|);
    assert GatewayRefinement.ShowsAt(parse, base, NEW_GATEWAY, hist, k);
    GatewayCounts(parse, hist, k);
    KeptShowsIff(parse, base, kept, hist, k);
  }

  lemma {:induction false} GatewayCounts(parse: Gateway.Parser, hist: seq<Op>, k: nat)
    requires k <= |hist| && Numbered(hist) && GatewayRefinement.GatewayAt(parse, NEW_GATEWAY, hist, k).Applied?
    ensures GatewayRefinement.GatewayAt(parse, NEW_GATEWAY, hist, k).gw.seqNum == k
  {
    hide Gateway.ApplyPeer, Gateway.ApplyInterface;
  }

  // ---------------------------------------------------------------- coming to agree

  // A gateway can be killed at any time, and closed unless it has crashed.
  lemma {:induction false} RestartEnabledIff(
    parse: Gateway.Parser, base: Tables, f: Fleet, parent: map<NodeId, NodeId>, g: NodeId, clean: bool)
    requires FleetOk(parse, base, f, parent)
    ensures StepEnabled(f, Restart(g, clean)) <==> g in f.gws && (clean ==> !f.gws[g].outcome.Panicked?)
  {
    hide Inv, TreeOk;
  }

  function Protocols(es: seq<Event>): seq<Step> {
    if es == [] then [] else [Protocol(es[0])] + Protocols(es[1..])
  }

  // While gateways carry the log, nothing of the protocol waits for them.
  lemma {:induction false} GatewaysGoOn(
    parse: Gateway.Parser, base: Tables, f: Fleet, parent: map<NodeId, NodeId>, e: Event)
    requires FleetOk(parse, base, f, parent) && base.interfaces == map[] && base.peers == map[]
    requires LogCarried(parse, base, f.cl.hist) && Enabled(f.cl, e)
    ensures StepEnabled(f, Protocol(e))
  {
    hide TreeOk, Enabled, LogCarried, GatewayRefinement.GatewayAt, ShowsBeside, NodeOk, LinkOk, PrimaryOk, HistOk;
    if e.Receive? && e.node in f.gws {
      assert GatewayOk(parse, f, e.node);
      ShownAt(parse, base, f.gws[e.node].kept, f.cl.hist, Emitted(f.cl.nodes[e.node]));
    }
  }

  // A run that delivers and connects is one of the whole fleet.
  lemma {:induction false} MendingRun(
    parse: Gateway.Parser, base: Tables, f: Fleet, parent: map<NodeId, NodeId>, es: seq<Event>)
    requires FleetOk(parse, base, f, parent) && base.interfaces == map[] && base.peers == map[]
    requires LogCarried(parse, base, f.cl.hist)
    requires Run(f.cl, es) && forall e :: e in es ==> Mends(parent, e)
    ensures
      var ss := Protocols(es);
      && FleetRun(parse, base, f, ss)
      && var end := FleetAfter(parse, base, f, ss);
         FleetOk(parse, base, end, parent) && end.cl == After(f.cl, es) && end.gws.Keys == f.gws.Keys
    decreases |es|
  {
    hide FleetOk, Enabled, Next, LogCarried, Mends, StepEnabled, StepNext;
    if es != [] {
      assert es[0] in es && forall e :: e in es[1..] ==> e in es;
      GatewaysGoOn(parse, base, f, parent, es[0]);
      MendingStep(parse, base, f, parent, es[0]);
      MendingRun(parse, base, StepNext(parse, base, f, Protocol(es[0])), parent, es[1..]);
      var ss := Protocols(es);
      assert ss[0] == Protocol(es[0]) && ss[1..] == Protocols(es[1..]);
    }
  }

  lemma {:induction false} MendingStep(
    parse: Gateway.Parser, base: Tables, f: Fleet, parent: map<NodeId, NodeId>, e: Event)
    requires FleetOk(parse, base, f, parent) && StepEnabled(f, Protocol(e)) && Mends(parent, e)
    ensures
      var f' := StepNext(parse, base, f, Protocol(e));
      && FleetOk(parse, base, f', parent) && f'.cl == Next(f.cl, e) && f'.cl.hist == f.cl.hist
      && f'.gws.Keys == f.gws.Keys
  {
    hide FleetOk, Enabled, Next;
    FleetStepKeeps(parse, base, f, parent, Protocol(e));
    MendKeepsHist(f.cl, parent, e);
  }

  // From every state that a run of the fleet can reach: if gateways can carry
  // the log, delivering and connecting leads to a state in which every
  // datastore has the database of the primary and every gateway shows it.
  lemma {:induction false} FleetCanAgree(
    parse: Gateway.Parser, base: Tables, f: Fleet, parent: map<NodeId, NodeId>, depth: NodeId -> nat, run: seq<Step>)
    returns (ss: seq<Step>)
    requires FleetInit(base, f, parent) && base.interfaces == map[] && base.peers == map[]
    requires FleetRun(parse, base, f, run) && forall s :: s in run ==> StepOnTree(parent, s)
    requires Acyclic(FleetAfter(parse, base, f, run).cl, parent, depth)
    requires LogCarried(parse, base, FleetAfter(parse, base, f, run).cl.hist)
    ensures FleetRun(parse, base, FleetAfter(parse, base, f, run), ss) && forall s :: s in ss ==> s.Protocol?
    ensures
      var now := FleetAfter(parse, base, f, run);
      var end := FleetAfter(parse, base, now, ss);
      && end.cl.primary in end.cl.nodes && end.gws.Keys == now.gws.Keys
      && var top := end.cl.nodes[end.cl.primary].store;
         && top.seqNum == |now.cl.hist|
         && (forall id :: id in end.cl.nodes ==> end.cl.nodes[id].store == top)
         && (forall g :: g in end.gws ==>
             end.gws[g].outcome.Applied? && Gateway.Shows(parse, top.tables, end.gws[g].outcome.gw))
  {
    hide FleetRun, FleetAfter, StepOnTree, LogCarried, Inv, TreeOk, Acyclic;
    FleetStarts(parse, base, f, parent);
    FleetRunKeeps(parse, base, f, parent, run);
    var now := FleetAfter(parse, base, f, run);
    var es, done := AgreeFrom(base, now.cl, parent, depth);
    ss := Protocols(es);
    MendingRun(parse, base, now, parent, es);
    OnlyProtocol(es);
    var end := FleetAfter(parse, base, now, ss);
    forall g | g in end.gws
      ensures end.gws[g].outcome.Applied? &&
              Gateway.Shows(parse, end.cl.nodes[end.cl.primary].store.tables, end.gws[g].outcome.gw)
    {
      ShowsAtEnd(parse, base, end, parent, g);
    }
  }

  lemma {:induction false} OnlyProtocol(es: seq<Event>)
    ensures forall s :: s in Protocols(es) ==> s.Protocol?
  {
    if es != [] {
      OnlyProtocol(es[1..]);
    }
  }

  lemma {:induction false} ShowsAtEnd(
    parse: Gateway.Parser, base: Tables, f: Fleet, parent: map<NodeId, NodeId>, g: NodeId)
    requires FleetOk(parse, base, f, parent) && base.interfaces == map[] && base.peers == map[]
    requires LogCarried(parse, base, f.cl.hist) && g in f.gws && f.cl.primary in f.cl.nodes && g in f.cl.nodes
    requires f.cl.nodes[g].store == f.cl.nodes[f.cl.primary].store && f.cl.nodes[g].tx.None?
    requires f.cl.nodes[g].store.seqNum == |f.cl.hist|
    ensures f.gws[g].outcome.Applied? &&
            Gateway.Shows(parse, f.cl.nodes[f.cl.primary].store.tables, f.gws[g].outcome.gw)
  {
    hide StateAt, EmittedLog, Gateway.Shows, LogCarried, Replicated, LinkOk, NodeOk, HistOk, PrimaryOk;
    hide GatewayRefinement.GatewayAt, FollowOnTree, Created, TreeOk;
    assert GatewayOk(parse, f, g);
    HoldsReplay(base, f.cl.hist, f.cl.nodes[g]);
    ShownAt(parse, base, f.gws[g].kept, f.cl.hist, |f.cl.hist|);
    CreatedGrows(f.cl.hist, f.gws[g].peak, |f.cl.hist|);
  }
}
