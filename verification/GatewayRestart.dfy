// A gateway that starts beside devices it does not know. Devices belong to the
// kernel: a gateway that is killed leaves all of them, and one that is closed
// leaves those it does not know.
module GatewayRestart {
  import opened Wrappers
  import opened Tables
  import opened Gateway
  import opened GatewayRefinement

  function Started(kept: map<string, Device>): State {
    State(map[], map[], kept, 0)
  }

  const NEW_GATEWAY := Started(map[])

  // ---------------------------------------------------------------- interfaces the log creates

  function CreatedBy(op: Op): set<string> {
    if op.typ.OpCreate? && op.row.InterfaceRow? then {op.row.intf.name} else {}
  }

  function Created(hist: seq<Op>, k: nat): set<string>
    requires k <= |hist|
  {
    if k == 0 then {} else Created(hist, k - 1) + CreatedBy(hist[k - 1])
  }

  lemma {:induction false} CreatedGrows(hist: seq<Op>, k: nat, k': nat)
    requires k <= k' <= |hist|
    ensures Created(hist, k) <= Created(hist, k')
  {
    if k < k' {
      CreatedGrows(hist, k, k' - 1);
    }
  }

  lemma {:induction false} CreatedPrefix(hist: seq<Op>, more: seq<Op>, k: nat)
    requires k <= |hist|
    ensures Created(hist + more, k) == Created(hist, k)
  {
    if k > 0 {
      CreatedPrefix(hist, more, k - 1);
    }
  }

  // What is left of the devices a gateway found, after k operations.
  function Left(kept: map<string, Device>, hist: seq<Op>, k: nat): map<string, Device>
    requires k <= |hist|
  {
    kept - Created(hist, k)
  }

  // ---------------------------------------------------------------- where devices come from

  lemma {:induction false} ApplyDevices(parse: Parser, gw: State, op: Op)
    ensures Apply(parse, gw, op).gw.devices.Keys <= gw.devices.Keys + CreatedBy(op)
  {
  }

  // Every device was found at the start or is made by the log.
  lemma {:induction false} DevicesCreated(parse: Parser, kept: map<string, Device>, hist: seq<Op>, k: nat)
    requires k <= |hist|
    ensures GatewayAt(parse, Started(kept), hist, k).gw.devices.Keys <= kept.Keys + Created(hist, k)
  {
    hide Apply;
    if k > 0 {
      DevicesCreated(parse, kept, hist, k - 1);
      var before := GatewayAt(parse, Started(kept), hist, k - 1);
      if before.Applied? {
        ApplyDevices(parse, before.gw, hist[k - 1]);
      }
    }
  }

  // ---------------------------------------------------------------- beside other devices

  // The same gateway beside more devices.
  function With(gw: State, left: map<string, Device>): State {
    gw.(devices := left + gw.devices)
  }

  function Beside(r: Outcome, left: map<string, Device>): Outcome {
    match r
    case Applied(gw) => Applied(With(gw, left))
    case Failed(gw) => Failed(With(gw, left))
    case Panicked(gw) => Panicked(With(gw, left))
  }

  // The gateway has one device for each interface, and the others are not among them.
  predicate Apart(gw: State, left: map<string, Device>) {
    gw.intfs.Keys == gw.devices.Keys && left.Keys !! gw.devices.Keys
  }

  lemma {:induction false} InterfaceBeside(parse: Parser, gw: State, left: map<string, Device>, typ: OpType, i: Interface)
    requires Apart(gw, left)
    ensures
      var r, left' := ApplyInterface(parse, gw, typ, i), if typ.OpCreate? then left - {i.name} else left;
      && ApplyInterface(parse, With(gw, left), typ, i) == Beside(r, left')
      && (r.Applied? ==> Apart(r.gw, left'))
  {
    hide Start, Stop;
    if typ.OpCreate? {
      CreateBeside(parse, gw, left, i);
    } else if i.name in gw.intfs {
      StopBeside(gw, left, i.name);
    }
  }

  lemma {:induction false} CreateBeside(parse: Parser, gw: State, left: map<string, Device>, i: Interface)
    requires Apart(gw, left)
    ensures
      var r, left' := ApplyInterface(parse, gw, OpCreate, i), left - {i.name};
      && ApplyInterface(parse, With(gw, left), OpCreate, i) == Beside(r, left')
      && (r.Applied? ==> Apart(r.gw, left'))
  {
    var left' := left - {i.name};
    if i.name in gw.intfs {
      assert left' == left;
    } else {
      assert (left + gw.devices)[i.name := map[]] == left' + gw.devices[i.name := map[]];
    }
  }

  lemma {:induction false} StopBeside(gw: State, left: map<string, Device>, name: string)
    requires Apart(gw, left) && name in gw.intfs
    ensures Stop(With(gw, left), name) == With(Stop(gw, name), left)
    ensures Stop(gw, name).intfs == gw.intfs && Stop(gw, name).devices.Keys == gw.devices.Keys - {name}
    ensures name !in Stop(With(gw, left), name).devices
  {
    assert (left + gw.devices) - {name} == left + (gw.devices - {name});
  }

  lemma {:induction false} PushBeside(gw: State, left: map<string, Device>, name: string, cfg: PeerConfig)
    requires Apart(gw, left) && name in gw.intfs
    ensures Push(With(gw, left), name, cfg) == With(Push(gw, name, cfg), left) && Apart(Push(gw, name, cfg), left)
  {
    var d := Configure(gw.devices[name], cfg);
    assert (left + gw.devices)[name := d] == left + gw.devices[name := d];
  }

  lemma {:induction false} FinishBeside(gw: State, left: map<string, Device>, name: string, cfg: Option<PeerConfig>)
    requires Apart(gw, left)
    ensures
      var r := Finish(gw, name, cfg);
      Finish(With(gw, left), name, cfg) == Beside(r, left) && (r.Applied? ==> Apart(r.gw, left))
  {
    hide Push;
    if cfg.Some? && name in gw.intfs {
      PushBeside(gw, left, name, cfg.value);
    }
  }

  lemma {:induction false} PeerBeside(parse: Parser, gw: State, left: map<string, Device>, typ: OpType, p: Peer)
    requires Apart(gw, left)
    ensures
      var r := ApplyPeer(parse, gw, typ, p);
      ApplyPeer(parse, With(gw, left), typ, p) == Beside(r, left) && (r.Applied? ==> Apart(r.gw, left))
  {
    hide Push, Finish;
    var index := gw.peerIndex[p.publicKey := p.iface];
    match typ
    case OpCreate => FinishBeside(gw.(peerIndex := index), left, p.iface, PeerToConfig(parse, p, false, false));
    case OpUpdate =>
      var prev := Indexed(gw, p.publicKey);
      if p.iface in gw.intfs && !(Moves(gw, p) && prev !in gw.intfs) {
        var moved := if Moves(gw, p) then Deconfigured(parse, gw, p, prev) else gw;
        if Moves(gw, p) {
          DeconfiguredBeside(parse, gw, left, p, prev);
        }
        FinishBeside(moved.(peerIndex := index), left, p.iface, PeerToConfig(parse, p, true, false));
      }
    case OpDelete => FinishBeside(gw, left, Indexed(gw, p.publicKey), PeerToConfig(parse, p, false, true));
    case OpUnknown =>
  }

  lemma {:induction false} DeconfiguredBeside(parse: Parser, gw: State, left: map<string, Device>, p: Peer, prev: string)
    requires Apart(gw, left) && prev in gw.intfs
    ensures Deconfigured(parse, With(gw, left), p, prev) == With(Deconfigured(parse, gw, p, prev), left)
    ensures Apart(Deconfigured(parse, gw, p, prev), left)
  {
    hide Push;
    forall cfg: PeerConfig
      ensures Push(With(gw, left), prev, cfg) == With(Push(gw, prev, cfg), left) && Apart(Push(gw, prev, cfg), left)
    {
      PushBeside(gw, left, prev, cfg);
    }
  }

  // An operation does the same beside other devices, and takes over the one of
  // an interface it creates.
  lemma {:induction false} ApplyBeside(parse: Parser, gw: State, left: map<string, Device>, op: Op)
    requires Apart(gw, left)
    ensures
      var r, left' := Apply(parse, gw, op), left - CreatedBy(op);
      Apply(parse, With(gw, left), op) == Beside(r, left') && (r.Applied? ==> Apart(r.gw, left'))
  {
    hide ApplyInterface, ApplyPeer;
    assert left - {} == left;
    match op.row
    case InterfaceRow(i) => InterfaceBeside(parse, gw, left, op.typ, i);
    case PeerRow(p) => PeerBeside(parse, gw, left, op.typ, p);
    case _ =>
  }

  // A gateway that found devices is at every point a new gateway beside what
  // is left of them.
  lemma {:induction false} KeptBeside(parse: Parser, kept: map<string, Device>, hist: seq<Op>, k: nat)
    requires k <= |hist|
    ensures
      var r := GatewayAt(parse, NEW_GATEWAY, hist, k);
      && (r.Applied? ==>
          && GatewayAt(parse, Started(kept), hist, k) == Beside(r, Left(kept, hist, k))
          && Apart(r.gw, Left(kept, hist, k)))
      && (GatewayAt(parse, Started(kept), hist, k).Applied? <==> r.Applied?)
  {
    hide Apply;
    if k == 0 {
      assert kept - {} == kept && kept + map[] == kept;
    } else {
      KeptBeside(parse, kept, hist, k - 1);
      var before, left := GatewayAt(parse, NEW_GATEWAY, hist, k - 1), Left(kept, hist, k - 1);
      if before.Applied? {
        ApplyBeside(parse, before.gw, left, hist[k - 1]);
        assert left - CreatedBy(hist[k - 1]) == Left(kept, hist, k);
      }
    }
  }

  // ---------------------------------------------------------------- what it shows

  // Without the devices left over the gateway shows the database; with them, if
  // and only if there are none.
  ghost predicate ShowsBeside(parse: Parser, t: Tables, gw: State, left: map<string, Device>) {
    && Shows(parse, t, gw.(devices := gw.devices - left.Keys))
    && left.Keys <= gw.devices.Keys && left.Keys !! t.interfaces.Keys
    && (Shows(parse, t, gw) <==> left == map[])
  }

  lemma {:induction false} WithShows(parse: Parser, t: Tables, gw: State, left: map<string, Device>)
    requires Shows(parse, t, gw) && Apart(gw, left)
    ensures ShowsBeside(parse, t, With(gw, left), left)
  {
    hide AllServed, AllBacked;
    assert (left + gw.devices) - left.Keys == gw.devices;
    if left == map[] {
      assert With(gw, left) == gw;
    } else {
      var name :| name in left;
      assert name in With(gw, left).devices && name !in t.interfaces;
    }
  }

  // A gateway that found devices, on a log that a new one carries.
  lemma {:induction false} KeptShowsIff(parse: Parser, base: Tables, kept: map<string, Device>, hist: seq<Op>, k: nat)
    requires k <= |hist| && ShowsAt(parse, base, NEW_GATEWAY, hist, k)
    ensures
      var r := GatewayAt(parse, Started(kept), hist, k);
      && r.Applied? && r.gw.seqNum == GatewayAt(parse, NEW_GATEWAY, hist, k).gw.seqNum
      && ShowsBeside(parse, StateAt(base, hist, k), r.gw, Left(kept, hist, k))
  {
    hide Apply, StateAt, Shows, ShowsBeside, GatewayAt, Left;
    KeptBeside(parse, kept, hist, k);
    WithShows(parse, StateAt(base, hist, k), GatewayAt(parse, NEW_GATEWAY, hist, k).gw, Left(kept, hist, k));
  }
}
