// The gateway object, and loading it from a snapshot.
module GatewayNode {
  import opened Wrappers
  import opened Tables
  import opened Snapshots
  import opened Gateway
  import opened GatewayRefinement

  // ---------------------------------------------------------------- reading a snapshot

  function InterfacesIn(items: seq<Row>): seq<Interface> {
    if items == [] then []
    else
      var front, last := InterfacesIn(items[..|items| - 1]), items[|items| - 1];
      if last.InterfaceRow? then front + [last.intf] else front
  }

  function PeersIn(items: seq<Row>, name: string): seq<Peer> {
    if items == [] then []
    else
      var front, last := PeersIn(items[..|items| - 1], name), items[|items| - 1];
      if last.PeerRow? && last.peer.iface == name then front + [last.peer] else front
  }

  lemma {:induction false} InterfacesInContents(items: seq<Row>, i: Interface)
    ensures i in InterfacesIn(items) <==> InterfaceRow(i) in items
  {
    if items != [] {
      InterfacesInContents(items[..|items| - 1], i);
      assert items == items[..|items| - 1] + [items[|items| - 1]];
    }
  }

  lemma {:induction false} PeersInContents(items: seq<Row>, name: string, p: Peer)
    ensures p in PeersIn(items, name) <==> PeerRow(p) in items && p.iface == name
  {
    if items != [] {
      PeersInContents(items[..|items| - 1], name, p);
      assert items == items[..|items| - 1] + [items[|items| - 1]];
    }
  }

  // ---------------------------------------------------------------- building devices

  // The device for a list of peers, pushed in order onto an empty one.
  function DeviceOf(parse: Parser, peers: seq<Peer>): Option<Device> {
    if peers == [] then Some(map[])
    else
      match (DeviceOf(parse, peers[..|peers| - 1]), PeerToConfig(parse, peers[|peers| - 1], false, false))
      case (Some(d), Some(cfg)) => Some(Configure(d, cfg))
      case _ => None
  }

  function IndexOf(index: map<string, string>, peers: seq<Peer>, name: string): map<string, string> {
    index + map p | p in peers :: p.publicKey := name
  }

  datatype Built = Built(intfs: map<string, Interface>, index: map<string, string>, devices: map<string, Device>)

  // How far a load got: through, or stopped with some devices made.
  datatype Progress = Complete(built: Built) | Broken(devices: map<string, Device>)

  // The state built from the first n interfaces of the snapshot. A device is
  // there, empty, before its private key and its peers are looked at.
  function Build(parse: Parser, items: seq<Row>, n: nat): Progress
    requires n <= |InterfacesIn(items)|
  {
    if n == 0 then Complete(Built(map[], map[], map[]))
    else
      var i := InterfacesIn(items)[n - 1];
      var peers := PeersIn(items, i.name);
      match Build(parse, items, n - 1)
      case Broken(devices) => Broken(devices)
      case Complete(b) =>
        match DeviceOf(parse, peers)
        case Some(d) =>
          if parse(i.privateKey).None? then Broken(b.devices[i.name := map[]])
          else Complete(Built(b.intfs[i.name := i], IndexOf(b.index, peers, i.name), b.devices[i.name := d]))
        case None => Broken(b.devices[i.name := map[]])
  }

  // What loading a snapshot does.
  function Load(parse: Parser, gw: State, snap: Snapshot): Outcome {
    match Build(parse, snap.items, |InterfacesIn(snap.items)|)
    case Broken(devices) => Failed(gw.(devices := Leftover(gw) + devices))
    case Complete(b) => Applied(State(b.intfs, b.index, Leftover(gw) + b.devices, snap.seqNum))
  }

  // A device holds the listed peers and no others, provided those with the same
  // key have the same addresses; the peer listed last it holds in any case.
  lemma {:induction false} DeviceOfContents(parse: Parser, peers: seq<Peer>)
    ensures DeviceOf(parse, peers).Some? <==> forall p :: p in peers ==> Servable(parse, p)
    ensures DeviceOf(parse, peers).Some? ==> HoldsOnly(parse, DeviceOf(parse, peers).value, peers)
    ensures DeviceOf(parse, peers).Some? && peers != [] ==>
      Holds(parse, DeviceOf(parse, peers).value, peers[|peers| - 1])
    ensures DeviceOf(parse, peers).Some? && PeersAgree(parse, peers) ==>
      forall p :: p in peers ==> Holds(parse, DeviceOf(parse, peers).value, p)
  {
    hide Holds, HoldsOnly, Servable;
    if peers != [] {
      var front, last := peers[..|peers| - 1], peers[|peers| - 1];
      assert peers == front + [last];
      DeviceOfContents(parse, front);
      ServableConfig(parse, last);
      if DeviceOf(parse, peers).Some? {
        assert last in peers;
        DeviceGrows(parse, DeviceOf(parse, front).value, front, last);
      }
    } else {
      EmptyHoldsNone(parse);
    }
  }

  // In columns: the device can be filled if and only if every peer has a key
  // that can be read and an address, and then the entry of the last peer, and of
  // every one if those with one key agree, is exactly its two columns.
  lemma {:induction false} DeviceOfEntries(parse: Parser, peers: seq<Peer>, p: Peer)
    ensures DeviceOf(parse, peers).Some? <==>
      forall q :: q in peers ==> parse(q.publicKey).Some? && (q.ip.Some? || q.ip6.Some?)
    ensures
      DeviceOf(parse, peers).Some? && p in peers && (p == peers[|peers| - 1] || PeersAgree(parse, peers)) ==>
      var d, key := DeviceOf(parse, peers).value, parse(p.publicKey);
      key.Some? && key.value in d && EntryOf(p, d[key.value])
  {
    hide DeviceOf, HoldsOnly, EntryOf, PeersAgree;
    DeviceOfContents(parse, peers);
    forall q ensures Servable(parse, q) <==> parse(q.publicKey).Some? && (q.ip.Some? || q.ip6.Some?) {
      AddressesIff(q, []);
    }
    AddressesIff(p, AllowedIPs(p));
  }

  ghost predicate HoldsOnly(parse: Parser, d: Device, peers: seq<Peer>) {
    forall key :: key in d ==> exists p :: p in peers && parse(p.publicKey) == Some(key)
  }

  predicate Holds(parse: Parser, d: Device, p: Peer) {
    && parse(p.publicKey).Some? && parse(p.publicKey).value in d
    && d[parse(p.publicKey).value] == AllowedIPs(p)
  }

  lemma {:induction false} EmptyHoldsNone(parse: Parser)
    ensures HoldsOnly(parse, map[], [])
  {
  }

  lemma {:induction false} ServableConfig(parse: Parser, p: Peer)
    ensures PeerToConfig(parse, p, false, false).Some? <==> Servable(parse, p)
  {
  }

  lemma {:induction false} DeviceGrows(parse: Parser, d: Device, front: seq<Peer>, last: Peer)
    requires PeerToConfig(parse, last, false, false).Some? && HoldsOnly(parse, d, front)
    ensures
      var d' := Configure(d, PeerToConfig(parse, last, false, false).value);
      && HoldsOnly(parse, d', front + [last]) && Holds(parse, d', last)
      && forall p :: Holds(parse, d, p) && KeyAgrees(parse, p, last) ==> Holds(parse, d', p)
  {
    var d' := Configure(d, PeerToConfig(parse, last, false, false).value);
    var peers := front + [last];
    forall key | key in d' ensures exists p :: p in peers && parse(p.publicKey) == Some(key) {
      if key in d {
        var p :| p in front && parse(p.publicKey) == Some(key);
        assert p in peers;
      } else {
        assert last in peers;
      }
    }
  }

  ghost predicate KeyAgrees(parse: Parser, p: Peer, q: Peer) {
    parse(p.publicKey) == parse(q.publicKey) ==> AllowedIPs(p) == AllowedIPs(q)
  }

  ghost predicate PeersAgree(parse: Parser, peers: seq<Peer>) {
    forall p, q :: p in peers && q in peers ==> KeyAgrees(parse, p, q)
  }

  // ---------------------------------------------------------------- a listing of the database

  // The peers of one interface.
  lemma {:induction false} ListedPeers(t: Tables, items: seq<Row>, name: string)
    requires Integrity(t) && Listing(items, t)
    ensures forall p :: p in PeersIn(items, name) <==>
      p.publicKey in t.peers && t.peers[p.publicKey] == p && p.iface == name
  {
    forall p ensures p in PeersIn(items, name) <==>
      p.publicKey in t.peers && t.peers[p.publicKey] == p && p.iface == name
    {
      PeersInContents(items, name, p);
      assert PeerRow(p) in items <==> HasRow(t, PeerRow(p));
    }
  }

  lemma {:induction false} ListedInterfaces(t: Tables, items: seq<Row>)
    requires Integrity(t) && Listing(items, t)
    ensures forall i :: i in InterfacesIn(items) <==> i.name in t.interfaces && t.interfaces[i.name] == i
  {
    forall i ensures i in InterfacesIn(items) <==> i.name in t.interfaces && t.interfaces[i.name] == i {
      InterfacesInContents(items, i);
      assert InterfaceRow(i) in items <==> HasRow(t, InterfaceRow(i));
    }
  }

  // The interface can be started and all its peers served.
  ghost predicate InterfaceServable(parse: Parser, t: Tables, i: Interface) {
    && parse(i.privateKey).Some?
    && forall k :: k in t.peers && t.peers[k].iface == i.name ==> Servable(parse, t.peers[k])
  }

  lemma {:induction false} DeviceServable(parse: Parser, t: Tables, items: seq<Row>, name: string)
    requires Integrity(t) && Listing(items, t)
    ensures DeviceOf(parse, PeersIn(items, name)).Some? <==>
      forall k :: k in t.peers && t.peers[k].iface == name ==> Servable(parse, t.peers[k])
  {
    ListedPeers(t, items, name);
    DeviceOfContents(parse, PeersIn(items, name));
    if DeviceOf(parse, PeersIn(items, name)).Some? {
      forall k | k in t.peers && t.peers[k].iface == name ensures Servable(parse, t.peers[k]) {
        assert t.peers[k] in PeersIn(items, name);
      }
    }
  }

  ghost predicate Named(intfs: seq<Interface>, name: string) {
    exists i :: i in intfs && i.name == name
  }

  // What has been built after n interfaces.
  ghost predicate BuiltOk(parse: Parser, t: Tables, items: seq<Row>, n: nat, b: Built)
    requires n <= |InterfacesIn(items)|
  {
    var done := InterfacesIn(items)[..n];
    && b.devices.Keys == b.intfs.Keys
    && (forall name :: name in b.intfs <==> Named(done, name))
    && (forall name :: name in b.intfs ==> name in t.interfaces && b.intfs[name] == t.interfaces[name])
    && (forall name :: name in b.devices ==> DeviceOf(parse, PeersIn(items, name)) == Some(b.devices[name]))
    && (forall k :: k in b.index <==> k in t.peers && t.peers[k].iface in b.intfs)
    && (forall k :: k in b.index && k in t.peers ==> b.index[k] == t.peers[k].iface)
  }

  lemma {:induction false} BuildIff(parse: Parser, t: Tables, items: seq<Row>, n: nat)
    requires Integrity(t) && Listing(items, t)
    requires n <= |InterfacesIn(items)|
    ensures Build(parse, items, n).Complete? <==>
      forall j :: 0 <= j < n ==> InterfaceServable(parse, t, InterfacesIn(items)[j])
    ensures Build(parse, items, n).Complete? ==> BuiltOk(parse, t, items, n, Build(parse, items, n).built)
  {
    hide PeersIn, InterfacesIn, DeviceOf, BuiltOk, Listing, Integrity;
    if n == 0 {
      NothingBuilt(parse, t, items);
    } else {
      BuildIff(parse, t, items, n - 1);
      var i := InterfacesIn(items)[n - 1];
      DeviceServable(parse, t, items, i.name);
      if Build(parse, items, n).Complete? {
        BuildStep(parse, t, items, n, Build(parse, items, n - 1).built);
      }
    }
  }

  lemma {:induction false} NothingBuilt(parse: Parser, t: Tables, items: seq<Row>)
    ensures BuiltOk(parse, t, items, 0, Built(map[], map[], map[]))
  {
  }

  lemma {:induction false} BuildStep(parse: Parser, t: Tables, items: seq<Row>, n: nat, b: Built)
    requires Integrity(t) && Listing(items, t)
    requires 0 < n <= |InterfacesIn(items)| && BuiltOk(parse, t, items, n - 1, b)
    requires DeviceOf(parse, PeersIn(items, InterfacesIn(items)[n - 1].name)).Some?
    ensures
      var i := InterfacesIn(items)[n - 1];
      var peers := PeersIn(items, i.name);
      BuiltOk(parse, t, items, n,
              Built(b.intfs[i.name := i], IndexOf(b.index, peers, i.name),
                    b.devices[i.name := DeviceOf(parse, peers).value]))
  {
    hide PeersIn, InterfacesIn, DeviceOf, Listing, IndexOf, Named;
    var all := InterfacesIn(items);
    var i := all[n - 1];
    ListedInterfaces(t, items);
    ListedPeers(t, items, i.name);
    assert all[..n] == all[..n - 1] + [i];
    assert i in all;
    NamesStep(all[..n - 1], i);
    IndexStep(t, b.index, PeersIn(items, i.name), i.name);
  }

  lemma {:induction false} NamesStep(done: seq<Interface>, i: Interface)
    ensures forall name :: Named(done + [i], name) <==> Named(done, name) || name == i.name
  {
    var all := done + [i];
    assert i in all;
    forall name | Named(done, name) ensures Named(all, name) {
      var j :| j in done && j.name == name;
      assert j in all;
    }
  }

  lemma {:induction false} IndexStep(t: Tables, index: map<string, string>, peers: seq<Peer>, name: string)
    requires Integrity(t)
    requires forall p :: p in peers <==> p.publicKey in t.peers && t.peers[p.publicKey] == p && p.iface == name
    ensures
      var index' := IndexOf(index, peers, name);
      && (forall k :: k in index' <==> k in index || (k in t.peers && t.peers[k].iface == name))
      && (forall k :: k in index' ==>
          index'[k] == if k in t.peers && t.peers[k].iface == name then name else index[k])
  {
    var added := map p | p in peers :: p.publicKey := name;
    forall k ensures k in added <==> k in t.peers && t.peers[k].iface == name {
      if k in t.peers && t.peers[k].iface == name {
        assert t.peers[k] in peers;
      }
    }
  }

  // ---------------------------------------------------------------- snapshots and the database

  // Peers of one interface with the same key have the same addresses.
  ghost predicate KeysAgree(parse: Parser, t: Tables) {
    forall k :: k in t.peers ==> Agreed(parse, t, t.peers[k].iface, t.peers[k])
  }

  // Only such a database can be shown.
  lemma {:induction false} ShownAgrees(parse: Parser, t: Tables, gw: State)
    requires Integrity(t) && AllServed(parse, t, gw)
    ensures KeysAgree(parse, t)
  {
    forall k, k' | k in t.peers && SharesKey(parse, t, t.peers[k].iface, k', t.peers[k])
      ensures AllowedIPs(t.peers[k']) == AllowedIPs(t.peers[k])
    {
      assert PeerServed(parse, t, gw, k) && PeerServed(parse, t, gw, k');
    }
  }

  lemma {:induction false} ListedAgree(parse: Parser, t: Tables, peers: seq<Peer>, name: string)
    requires Integrity(t) && KeysAgree(parse, t)
    requires forall p :: p in peers ==> p.publicKey in t.peers && t.peers[p.publicKey] == p && p.iface == name
    ensures PeersAgree(parse, peers)
  {
    forall p, q | p in peers && q in peers ensures KeyAgrees(parse, p, q) {
      assert p.publicKey in t.peers && q.publicKey in t.peers;
      assert Agreed(parse, t, name, q);
      if parse(p.publicKey) == parse(q.publicKey) && p.publicKey != q.publicKey {
        assert SharesKey(parse, t, name, p.publicKey, q);
      }
    }
  }

  // The gateway's state after a load, read off the database alone.
  ghost predicate Exact(parse: Parser, t: Tables, gw: State) {
    && Shows(parse, t, gw)
    && gw.peerIndex.Keys == t.peers.Keys
  }

  // All interfaces built: the maps of a load.
  lemma {:induction false} BuiltAll(parse: Parser, t: Tables, items: seq<Row>, b: Built)
    requires Integrity(t) && Listing(items, t)
    requires BuiltOk(parse, t, items, |InterfacesIn(items)|, b)
    ensures b.intfs == t.interfaces && b.devices.Keys == t.interfaces.Keys && b.index.Keys == t.peers.Keys
  {
    ListedInterfaces(t, items);
    var all := InterfacesIn(items);
    assert all[..|all|] == all;
    hide InterfacesIn, Listing;
    forall name | name in t.interfaces ensures name in b.intfs {
      assert t.interfaces[name] in all;
    }
    assert b.intfs == t.interfaces;
  }

  lemma {:induction false} LoadedShows(parse: Parser, t: Tables, items: seq<Row>, b: Built, n: nat)
    requires Integrity(t) && Listing(items, t) && KeysAgree(parse, t)
    requires BuiltOk(parse, t, items, |InterfacesIn(items)|, b)
    ensures Exact(parse, t, State(b.intfs, b.index, b.devices, n))
  {
    hide InterfacesIn, Listing, KeysAgree;
    BuiltAll(parse, t, items, b);
    var gw := State(b.intfs, b.index, b.devices, n);
    forall name | name in b.devices
      ensures forall k :: k in t.peers && t.peers[k].iface == name ==> PeerServed(parse, t, gw, k)
      ensures forall key :: key in b.devices[name] ==> Backed(parse, t, name, key)
    {
      LoadedDevice(parse, t, items, gw, name);
    }
    assert AllServed(parse, t, gw);
    assert AllBacked(parse, t, gw);
  }

  lemma {:induction false} LoadedDevice(parse: Parser, t: Tables, items: seq<Row>, gw: State, name: string)
    requires Integrity(t) && Listing(items, t) && KeysAgree(parse, t)
    requires name in gw.devices && DeviceOf(parse, PeersIn(items, name)) == Some(gw.devices[name])
    requires forall k :: k in t.peers && t.peers[k].iface == name ==> k in gw.peerIndex && gw.peerIndex[k] == name
    ensures forall k :: k in t.peers && t.peers[k].iface == name ==> PeerServed(parse, t, gw, k)
    ensures forall key :: key in gw.devices[name] ==> Backed(parse, t, name, key)
  {
    hide PeersIn, Listing, DeviceOf, KeysAgree, PeersAgree;
    ListedPeers(t, items, name);
    ListedAgree(parse, t, PeersIn(items, name), name);
    DeviceOfContents(parse, PeersIn(items, name));
    forall k | k in t.peers && t.peers[k].iface == name ensures PeerServed(parse, t, gw, k) {
      assert t.peers[k] in PeersIn(items, name);
      assert Holds(parse, gw.devices[name], t.peers[k]);
    }
    forall key | key in gw.devices[name] ensures Backed(parse, t, name, key) {
      var p :| p in PeersIn(items, name) && parse(p.publicKey) == Some(key);
      assert p.publicKey in t.peers;
    }
  }

  // Loading a snapshot of a database works if and only if everything stored can
  // be served, in whatever order the rows are listed. The gateway then shows
  // that database if and only if the same key on one interface means the same
  // addresses, and an earlier failed load has left no device beside it.
  lemma {:induction false} LoadIff(parse: Parser, t: Tables, gw: State, snap: Snapshot)
    requires Integrity(t) && Listing(snap.items, t)
    ensures Load(parse, gw, snap).Applied? <==> AllServable(parse, t)
    ensures Load(parse, gw, snap).Applied? ==>
      var loaded := Load(parse, gw, snap).gw;
      && loaded.intfs == t.interfaces && loaded.peerIndex.Keys == t.peers.Keys && loaded.seqNum == snap.seqNum
      && (Shows(parse, t, loaded) <==>
          KeysAgree(parse, t) && forall name :: Unknown(gw, name) ==> name in t.interfaces)
  {
    hide InterfacesIn, Listing, Build, BuiltOk, Integrity, AllServable, InterfaceServable, KeysAgree, Leftover;
    hide AllServed, AllBacked;
    var all := InterfacesIn(snap.items);
    BuildIff(parse, t, snap.items, |all|);
    ListedInterfaces(t, snap.items);
    ServableByInterface(parse, t, all);
    LeftoverIs(gw);
    assert (forall name :: Unknown(gw, name) ==> name in t.interfaces) <==> Leftover(gw).Keys <= t.interfaces.Keys;
    if Build(parse, snap.items, |all|).Complete? {
      var b, loaded := Build(parse, snap.items, |all|).built, Load(parse, gw, snap).gw;
      BuiltAll(parse, t, snap.items, b);
      if KeysAgree(parse, t) && Leftover(gw).Keys <= t.interfaces.Keys {
        assert Leftover(gw) + b.devices == b.devices;
        LoadedShows(parse, t, snap.items, b, snap.seqNum);
      }
      if Shows(parse, t, loaded) {
        ShownAgrees(parse, t, loaded);
        assert Leftover(gw).Keys <= loaded.devices.Keys;
      }
    }
  }

  lemma {:induction false} ServableByInterface(parse: Parser, t: Tables, all: seq<Interface>)
    requires Integrity(t)
    requires forall i :: i in all <==> i.name in t.interfaces && t.interfaces[i.name] == i
    ensures AllServable(parse, t) <==> forall j :: 0 <= j < |all| ==> InterfaceServable(parse, t, all[j])
  {
    if AllServable(parse, t) {
      forall j | 0 <= j < |all| ensures InterfaceServable(parse, t, all[j]) {
        assert all[j] in all;
      }
    }
    if forall j :: 0 <= j < |all| ==> InterfaceServable(parse, t, all[j]) {
      forall name | name in t.interfaces ensures InterfaceServable(parse, t, t.interfaces[name]) {
        assert t.interfaces[name] in all;
      }
    }
  }

  // Which devices there are after a load. If it works: one for each interface of
  // the database, and those of names the gateway did not know, as they were. If
  // it fails: some of the former, all of the latter, and no other.
  lemma {:induction false} LoadDevices(parse: Parser, t: Tables, gw: State, snap: Snapshot)
    requires Integrity(t) && Listing(snap.items, t)
    ensures
      var r := Load(parse, gw, snap);
      var devices := r.gw.devices;
      && !r.Panicked?
      && (forall name :: name in devices ==> name in t.interfaces || Unknown(gw, name))
      && (forall name :: Unknown(gw, name) ==> name in devices)
      && (forall name :: Unknown(gw, name) && name !in t.interfaces ==> devices[name] == gw.devices[name])
      && (r.Applied? ==> forall name :: name in t.interfaces ==> name in devices)
      && (r.Failed? ==> r.gw == gw.(devices := devices))
  {
    hide InterfacesIn, Listing, Build, BuiltOk, Integrity, KeysAgree, Leftover, Shows, AllServable, Unknown;
    LoadIff(parse, t, gw, snap);
    LeftoverIs(gw);
    var all := InterfacesIn(snap.items);
    BuiltNames(parse, t, snap.items, |all|);
    if Build(parse, snap.items, |all|).Complete? {
      BuildIff(parse, t, snap.items, |all|);
      BuiltAll(parse, t, snap.items, Build(parse, snap.items, |all|).built);
    }
  }

  // A load makes devices for interfaces of the database only.
  lemma {:induction false} BuiltNames(parse: Parser, t: Tables, items: seq<Row>, n: nat)
    requires Integrity(t) && Listing(items, t) && n <= |InterfacesIn(items)|
    ensures
      var r := Build(parse, items, n);
      (if r.Complete? then r.built.devices else r.devices).Keys <= t.interfaces.Keys
  {
    hide InterfacesIn, PeersIn, DeviceOf, IndexOf, Listing;
    ListedInterfaces(t, items);
    if n > 0 {
      BuiltNames(parse, t, items, n - 1);
      assert InterfacesIn(items)[n - 1] in InterfacesIn(items);
    }
  }

  // A gateway that knows all its devices shows every database it loads in which
  // one key means one set of addresses per interface.
  lemma {:induction false} CleanLoadShows(parse: Parser, t: Tables, gw: State, snap: Snapshot)
    requires Integrity(t) && Listing(snap.items, t) && gw.intfs.Keys == gw.devices.Keys
    ensures AllServable(parse, t) && KeysAgree(parse, t) <==>
      Load(parse, gw, snap).Applied? && Shows(parse, t, Load(parse, gw, snap).gw)
  {
    hide Integrity, Listing, AllServable, KeysAgree, Load, Shows;
    LoadIff(parse, t, gw, snap);
  }

  // What the gateway held before leaves no trace in a load that works, except for
  // leftover devices that the database has no interface for.
  lemma {:induction false} LoadForgetsIff(parse: Parser, t: Tables, gw1: State, gw2: State, snap: Snapshot)
    requires Integrity(t) && AllServable(parse, t) && Listing(snap.items, t)
    ensures Load(parse, gw1, snap).Applied? && Load(parse, gw2, snap).Applied?
    ensures Load(parse, gw1, snap) == Load(parse, gw2, snap) <==>
      forall name :: name !in t.interfaces ==>
        && (Unknown(gw1, name) <==> Unknown(gw2, name))
        && (Unknown(gw1, name) && Unknown(gw2, name) ==> gw1.devices[name] == gw2.devices[name])
  {
    hide Integrity, Listing, AllServable, KeysAgree, InterfacesIn, Build, BuiltOk, Leftover, Shows;
    LoadIff(parse, t, gw1, snap);
    LoadIff(parse, t, gw2, snap);
    BuildIff(parse, t, snap.items, |InterfacesIn(snap.items)|);
    var b := Build(parse, snap.items, |InterfacesIn(snap.items)|).built;
    BuiltAll(parse, t, snap.items, b);
    Overlay(Leftover(gw1), Leftover(gw2), b.devices);
    SameLeft(t, gw1, gw2);
  }

  lemma {:induction false} SameLeft(t: Tables, gw1: State, gw2: State)
    ensures Leftover(gw1) - t.interfaces.Keys == Leftover(gw2) - t.interfaces.Keys <==>
      forall name :: name !in t.interfaces ==>
        && (Unknown(gw1, name) <==> Unknown(gw2, name))
        && (Unknown(gw1, name) && Unknown(gw2, name) ==> gw1.devices[name] == gw2.devices[name])
  {
    var a, b := Leftover(gw1) - t.interfaces.Keys, Leftover(gw2) - t.interfaces.Keys;
    LeftoverIs(gw1);
    LeftoverIs(gw2);
    assert forall name :: name in a <==> Unknown(gw1, name) && name !in t.interfaces;
    assert forall name :: name in b <==> Unknown(gw2, name) && name !in t.interfaces;
    hide Leftover;
    if a == b {
      forall name | name !in t.interfaces
        ensures Unknown(gw1, name) <==> Unknown(gw2, name)
        ensures Unknown(gw1, name) && Unknown(gw2, name) ==> gw1.devices[name] == gw2.devices[name]
      {
        assert name in a <==> name in b;
      }
    }
  }

  lemma {:induction false} Overlay(a: map<string, Device>, b: map<string, Device>, top: map<string, Device>)
    ensures a + top == b + top <==> a - top.Keys == b - top.Keys
  {
    if a + top == b + top {
      forall k ensures k in a - top.Keys <==> k in b - top.Keys {
        assert k in a + top <==> k in b + top;
      }
      forall k | k in a - top.Keys ensures (a - top.Keys)[k] == (b - top.Keys)[k] {
        assert (a + top)[k] == (b + top)[k];
      }
    }
    if a - top.Keys == b - top.Keys {
      forall k ensures k in a + top <==> k in b + top {
        assert k in a - top.Keys <==> k in b - top.Keys;
      }
      forall k | k in a + top ensures (a + top)[k] == (b + top)[k] {
        if k !in top {
          assert (a - top.Keys)[k] == (b - top.Keys)[k];
        }
      }
      assert a + top == b + top;
    }
  }

  lemma {:induction false} ExactUnique(parse: Parser, t: Tables, a: State, b: State)
    requires Exact(parse, t, a) && Exact(parse, t, b) && a.seqNum == b.seqNum
    requires Integrity(t)
    ensures a == b
  {
    ShownAlike(parse, t, a, b);
    assert a.peerIndex == b.peerIndex;
  }

  // Two gateways that show the same database have the same interfaces and the
  // same devices, and agree on where every stored peer is.
  lemma {:induction false} ShownAlike(parse: Parser, t: Tables, a: State, b: State)
    requires Integrity(t) && Shows(parse, t, a) && Shows(parse, t, b)
    ensures a.intfs == b.intfs && a.devices == b.devices
    ensures forall k :: k in t.peers ==> k in a.peerIndex && k in b.peerIndex && a.peerIndex[k] == b.peerIndex[k]
  {
    hide AllBacked, AllServed, Integrity;
    SameIndex(parse, t, a, b);
    forall name | name in t.interfaces ensures a.devices[name] == b.devices[name] {
      DeviceSubset(parse, t, a, b, name);
      DeviceSubset(parse, t, b, a, name);
      assert a.devices[name].Keys == b.devices[name].Keys;
    }
    assert a.devices == b.devices;
  }

  lemma {:induction false} SameIndex(parse: Parser, t: Tables, a: State, b: State)
    requires AllServed(parse, t, a) && AllServed(parse, t, b)
    ensures forall k :: k in t.peers ==> k in a.peerIndex && k in b.peerIndex && a.peerIndex[k] == b.peerIndex[k]
  {
    forall k | k in t.peers ensures k in a.peerIndex && k in b.peerIndex && a.peerIndex[k] == b.peerIndex[k] {
      assert PeerServed(parse, t, a, k) && PeerServed(parse, t, b, k);
    }
  }

  lemma {:induction false} DeviceSubset(parse: Parser, t: Tables, a: State, b: State, name: string)
    requires Integrity(t) && AllBacked(parse, t, a) && AllServed(parse, t, a) && AllServed(parse, t, b)
    requires name in a.devices && name in b.devices
    ensures forall key :: key in a.devices[name] ==>
      key in b.devices[name] && a.devices[name][key] == b.devices[name][key]
  {
    forall key | key in a.devices[name]
      ensures key in b.devices[name] && a.devices[name][key] == b.devices[name][key]
    {
      assert Backed(parse, t, name, key);
      var k :| k in t.peers && t.peers[k].iface == name && parse(k) == Some(key);
      assert PeerServed(parse, t, a, k) && PeerServed(parse, t, b, k);
    }
  }

  // A gateway that loads a snapshot and one that replayed the log to the same
  // number serve the same, if and only if no device was left over.
  lemma {:induction false} SnapshotAgreesWithReplay(
    parse: Parser, base: Tables, gw: State, hist: seq<Op>, other: State, snap: Snapshot)
    requires Integrity(base) && Replays(base, hist) && snap.seqNum <= |hist|
    requires ShowsAt(parse, base, gw, hist, snap.seqNum)
    requires Listing(snap.items, StateAt(base, hist, snap.seqNum))
    requires Load(parse, other, snap).Applied?
    ensures
      var loaded, replayed := Load(parse, other, snap).gw, GatewayAt(parse, gw, hist, snap.seqNum).gw;
      && loaded.intfs == replayed.intfs && loaded.seqNum == snap.seqNum
      && (loaded.devices == replayed.devices <==>
          forall name :: Unknown(other, name) ==> name in StateAt(base, hist, snap.seqNum).interfaces)
      && (loaded.devices == replayed.devices ==>
          forall k :: k in StateAt(base, hist, snap.seqNum).peers ==>
            k in loaded.peerIndex && k in replayed.peerIndex && loaded.peerIndex[k] == replayed.peerIndex[k])
  {
    hide Load, Integrity, Listing, StateAt, AllServed, AllBacked, KeysAgree, Leftover;
    var t := StateAt(base, hist, snap.seqNum);
    var loaded, replayed := Load(parse, other, snap).gw, GatewayAt(parse, gw, hist, snap.seqNum).gw;
    ReplayKeepsIntegrity(base, hist, snap.seqNum);
    LoadIff(parse, t, other, snap);
    ShownAgrees(parse, t, replayed);
    if forall name :: Unknown(other, name) ==> name in t.interfaces {
      ShownAlike(parse, t, loaded, replayed);
    }
    if loaded.devices == replayed.devices {
      LeftoverStays(parse, other, snap);
    }
  }

  lemma {:induction false} LeftoverStays(parse: Parser, gw: State, snap: Snapshot)
    requires Load(parse, gw, snap).Applied?
    ensures forall name :: Unknown(gw, name) ==> name in Load(parse, gw, snap).gw.devices
  {
    hide Leftover, Build, InterfacesIn;
    LeftoverIs(gw);
  }

  // ---------------------------------------------------------------- the object

  datatype Status = Done | Error | Crash

  class Node {
    const parse: Parser
    var intfs: map<string, Interface>
    var peerIndex: map<string, string>
    var devices: map<string, Device>
    var seqNum: nat

    ghost function Value(): State
      reads this
    {
      State(intfs, peerIndex, devices, seqNum)
    }

    // How a status and the state left behind match an outcome.
    ghost predicate Is(status: Status, outcome: Outcome)
      reads this
    {
      match outcome
      case Applied(gw) => status == Done && Value() == gw
      case Failed(gw) => status == Error && Value() == gw
      case Panicked(gw) => status == Crash && Value() == gw
    }

    // A gateway starts with empty maps, beside the devices that are there.
    constructor (parse: Parser, kept: map<string, Device>)
      ensures this.parse == parse && Value() == State(map[], map[], kept, 0)
    {
      this.parse := parse;
      intfs, peerIndex, devices, seqNum := map[], map[], kept, 0;
    }

    // Closing stops the interfaces the gateway knows, and no others.
    method Close()
      modifies this`devices
      ensures forall name :: name in devices <==> name in old(devices) && name !in intfs
      ensures forall name :: name in devices ==> devices[name] == old(devices)[name]
      ensures devices == Leftover(old(Value()))
      ensures old(devices).Keys == intfs.Keys ==> devices == map[]
    {
      devices := devices - intfs.Keys;
    }

    method Initialize(i: Interface) returns (ok: bool)
      ensures ok <==> Initializes(parse, Value(), i)
    {
      ok := parse(i.privateKey).Some? && i.name in devices;
    }

    method NewInterface(i: Interface) returns (ok: bool)
      modifies this`devices
      ensures Is(if ok then Done else Error, Gateway.NewInterface(parse, old(Value()), i))
    {
      devices := devices[i.name := map[]];
      ok := Initialize(i);
    }

    method ConfigureWGDevice(name: string, cfg: PeerConfig) returns (ok: bool)
      modifies this`devices
      ensures ok <==> name in devices
      ensures Value() == Push(old(Value()), name, cfg)
    {
      ok := name in devices;
      if ok {
        devices := devices[name := Configure(devices[name], cfg)];
      }
    }

    method ApplyInterface(typ: OpType, i: Interface) returns (status: Status)
      modifies this
      ensures Is(status, Gateway.ApplyInterface(parse, old(Value()), typ, i))
    {
      status := Done;
      match typ
      case OpCreate =>
        if i.name in intfs {
          return Error;
        }
        var ok := NewInterface(i);
        if !ok {
          return Error;
        }
        intfs := intfs[i.name := i];
      case OpUpdate =>
        if i.name !in intfs {
          return Error;
        }
        devices := devices - {i.name};
        intfs := intfs[i.name := i];
        var ok := Initialize(i);
        devices := if ok then devices[i.name := map[]] else devices;
        status := if ok then Done else Error;
      case OpDelete =>
        if i.name !in intfs {
          return Error;
        }
        devices := devices - {i.name};
        intfs := intfs - {i.name};
      case OpUnknown =>
    }

    method ApplyPeer(typ: OpType, p: Peer) returns (status: Status)
      modifies this
      ensures Is(status, Gateway.ApplyPeer(parse, old(Value()), typ, p))
      ensures typ.OpCreate? ==>
        (status == Done <==> p.iface in old(intfs) && p.iface in old(devices) && parse(p.publicKey).Some? &&
                             (p.ip.Some? || p.ip6.Some?))
      ensures typ.OpCreate? && status == Done ==>
        p.iface in devices && parse(p.publicKey).value in devices[p.iface] &&
        EntryOf(p, devices[p.iface][parse(p.publicKey).value])
    {
      AddressesIff(p, AllowedIPs(p));
      var name: string;
      var cfg: Option<PeerConfig>;
      match typ {
        case OpCreate =>
          if p.iface !in intfs {
            return Error;
          }
          name := p.iface;
          peerIndex := peerIndex[p.publicKey := p.iface];
          cfg := PeerToConfig(parse, p, false, false);
        case OpUpdate =>
          if p.iface !in intfs {
            return Error;
          }
          name := p.iface;
          var prev := if p.publicKey in peerIndex then peerIndex[p.publicKey] else "";
          if prev != "" && prev != p.iface {
            if prev !in intfs {
              return Crash;
            }
            var remove := PeerToConfig(parse, p, false, true);
            var delCfg := if remove.Some? then remove.value else PeerConfig(ZERO_KEY, false, false, false, []);
            var ok := ConfigureWGDevice(prev, delCfg);
          }
          peerIndex := peerIndex[p.publicKey := p.iface];
          cfg := PeerToConfig(parse, p, true, false);
        case OpDelete =>
          name := if p.publicKey in peerIndex then peerIndex[p.publicKey] else "";
          cfg := PeerToConfig(parse, p, false, true);
        case OpUnknown =>
          return Crash;
      }
      if cfg.None? {
        return Error;
      }
      if name !in intfs {
        return Crash;
      }
      var ok := ConfigureWGDevice(name, cfg.value);
      status := if ok then Done else Error;
    }

    method Apply(op: Op, fromLog: bool) returns (status: Status)
      modifies this
      ensures Is(status, Gateway.Apply(parse, old(Value()), op))
    {
      status := Done;
      match op.row {
        case PeerRow(p) => status := this.ApplyPeer(op.typ, p);
        case InterfaceRow(i) => status := this.ApplyInterface(op.typ, i);
        case _ =>
      }
      if status == Done {
        seqNum := op.seqNum;
      }
    }

    method SplitSnapshot(items: seq<Row>) returns (found: seq<Interface>, peers: map<string, seq<Peer>>)
      ensures found == InterfacesIn(items)
      ensures forall name :: (if name in peers then peers[name] else []) == PeersIn(items, name)
    {
      found, peers := [], map[];
      for n := 0 to |items|
        invariant found == InterfacesIn(items[..n])
        invariant forall name :: (if name in peers then peers[name] else []) == PeersIn(items[..n], name)
      {
        assert items[..n + 1][..n] == items[..n];
        match items[n] {
          case InterfaceRow(i) => found := found + [i];
          case PeerRow(p) =>
            peers := peers[p.iface := (if p.iface in peers then peers[p.iface] else []) + [p]];
          case _ =>
        }
      }
      assert items[..|items|] == items;
    }

    method StartInterface(i: Interface, peers: seq<Peer>) returns (ok: bool)
      modifies this`devices
      ensures ok <==> parse(i.privateKey).Some? && DeviceOf(parse, peers).Some?
      ensures devices == old(devices)[i.name := if ok then DeviceOf(parse, peers).value else map[]]
    {
      hide DeviceOf;
      ok := NewInterface(i);
      if !ok {
        return;
      }
      var device := FillDevice(peers);
      if device.None? {
        return false;
      }
      devices := devices[i.name := device.value];
    }

    // Stop all interfaces, then start and fill those of the snapshot. On an
    // error the maps and the sequence stay, and the devices made so far too.
    method LoadSnapshot(snap: Snapshot) returns (status: Status)
      modifies this
      ensures Is(status, Load(parse, old(Value()), snap))
      ensures status == Done ==>
        forall name :: name in devices <==> name in intfs || (name in old(devices) && name !in old(intfs))
      ensures forall name :: name in devices && name in old(intfs) ==> Named(InterfacesIn(snap.items), name)
    {
      hide InterfacesIn, PeersIn, DeviceOf, IndexOf, Build;
      BuildNone(parse, snap.items);
      var found, peers := SplitSnapshot(snap.items);
      ghost var kept := devices - intfs.Keys;
      devices := devices - intfs.Keys;
      var newIntfs, newIndex := map[], map[];
      ghost var built: map<string, Device> := map[];
      for n := 0 to |found|
        invariant intfs == old(intfs) && peerIndex == old(peerIndex) && seqNum == old(seqNum)
        invariant Build(parse, snap.items, n) == Complete(Built(newIntfs, newIndex, built))
        invariant devices == kept + built
        invariant newIntfs.Keys == built.Keys
        invariant forall name :: name in built ==> Named(found, name)
      {
        var i := found[n];
        var mine := if i.name in peers then peers[i.name] else [];
        BuildNext(parse, snap.items, n + 1);
        var started := StartInterface(i, mine);
        UpdateSum(kept, built, i.name, devices[i.name]);
        assert i in found && Named(found, i.name);
        if !started {
          BuildFails(parse, snap.items, n + 1);
          return Error;
        }
        newIntfs := newIntfs[i.name := i];
        newIndex := IndexOf(newIndex, mine, i.name);
        built := built[i.name := devices[i.name]];
      }
      intfs, peerIndex, seqNum := newIntfs, newIndex, snap.seqNum;
      status := Done;
    }

    method FillDevice(peers: seq<Peer>) returns (device: Option<Device>)
      ensures device == DeviceOf(parse, peers)
    {
      var filled: Device := map[];
      for n := 0 to |peers|
        invariant DeviceOf(parse, peers[..n]) == Some(filled)
      {
        assert peers[..n + 1][..n] == peers[..n];
        var cfg := PeerToConfig(parse, peers[n], false, false);
        if cfg.None? {
          DeviceFails(parse, peers, n + 1);
          return None;
        }
        filled := Configure(filled, cfg.value);
      }
      assert peers[..|peers|] == peers;
      device := Some(filled);
    }
  }

  lemma {:induction false} UpdateSum(a: map<string, Device>, b: map<string, Device>, k: string, d: Device)
    ensures (a + b)[k := d] == a + b[k := d]
  {
  }

  lemma {:induction false} BuildNone(parse: Parser, items: seq<Row>)
    ensures Build(parse, items, 0) == Complete(Built(map[], map[], map[]))
  {
  }

  lemma {:induction false} BuildNext(parse: Parser, items: seq<Row>, n: nat)
    requires 0 < n <= |InterfacesIn(items)| && Build(parse, items, n - 1).Complete?
    ensures
      var i, b := InterfacesIn(items)[n - 1], Build(parse, items, n - 1).built;
      var peers := PeersIn(items, i.name);
      Build(parse, items, n) ==
      if parse(i.privateKey).None? || DeviceOf(parse, peers).None? then Broken(b.devices[i.name := map[]])
      else Complete(Built(b.intfs[i.name := i], IndexOf(b.index, peers, i.name),
                          b.devices[i.name := DeviceOf(parse, peers).value]))
  {
  }

  lemma {:induction false} BuildFails(parse: Parser, items: seq<Row>, n: nat)
    requires n <= |InterfacesIn(items)| && Build(parse, items, n).Broken?
    ensures Build(parse, items, |InterfacesIn(items)|) == Build(parse, items, n)
    decreases |InterfacesIn(items)| - n
  {
    hide InterfacesIn, PeersIn, DeviceOf, IndexOf;
    if n < |InterfacesIn(items)| {
      BuildFails(parse, items, n + 1);
    }
  }

  lemma {:induction false} DeviceFails(parse: Parser, peers: seq<Peer>, n: nat)
    requires n <= |peers| && DeviceOf(parse, peers[..n]).None?
    ensures DeviceOf(parse, peers).None?
    decreases |peers| - n
  {
    if n < |peers| {
      assert peers[..n + 1][..n] == peers[..n];
      DeviceFails(parse, peers, n + 1);
    } else {
      assert peers[..n] == peers;
    }
  }
}
