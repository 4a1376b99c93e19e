// When the order in which a snapshot lists the rows shows in the gateway.
module GatewayOrder {
  import opened Wrappers
  import opened Tables
  import opened Snapshots
  import opened Gateway
  import opened GatewayNode

  // The order in which a snapshot lists the database leaves no trace, whether
  // the load works or fails.
  ghost predicate OrderBlind(parse: Parser, t: Tables, gw: State) {
    forall snap1: Snapshot, snap2: Snapshot ::
      Listing(snap1.items, t) && Listing(snap2.items, t) && snap1.seqNum == snap2.seqNum ==>
      Load(parse, gw, snap1) == Load(parse, gw, snap2)
  }

  // The device is what the database says of the interface.
  ghost predicate DeviceRight(parse: Parser, t: Tables, name: string, d: Device) {
    && (forall k :: k in t.peers && t.peers[k].iface == name ==> Holds(parse, d, t.peers[k]))
    && (forall key :: key in d ==> Backed(parse, t, name, key))
  }

  // A leftover device that stays as it is when the load makes it again.
  ghost predicate Unchanging(parse: Parser, t: Tables, gw: State, name: string)
    requires name in t.interfaces
  {
    && Unknown(gw, name)
    && if InterfaceServable(parse, t, t.interfaces[name]) then DeviceRight(parse, t, name, gw.devices[name])
       else gw.devices[name] == map[]
  }

  // Wherever the load stops, what it has made before shows no more than what
  // was left over.
  ghost predicate FailsAlike(parse: Parser, t: Tables, gw: State) {
    forall u, v :: u in t.interfaces && v in t.interfaces && u != v && !InterfaceServable(parse, t, t.interfaces[u]) ==>
      Unchanging(parse, t, gw, v)
  }

  // The order leaves no trace if and only if: when everything can be served,
  // peers of one interface with one key have the same addresses, as otherwise
  // the one listed last wins; when something cannot be served, every other
  // interface has its device already.
  lemma {:induction false} LoadOrderBlindIff(parse: Parser, t: Tables, gw: State)
    requires Integrity(t)
    ensures OrderBlind(parse, t, gw) <==>
      if AllServable(parse, t) then KeysAgree(parse, t) else FailsAlike(parse, t, gw)
  {
    hide Integrity, Listing, AllServable, KeysAgree, Load, OrderBlind, FailsAlike;
    if AllServable(parse, t) {
      WorkingLoadsIff(parse, t, gw);
    } else {
      FailingLoadsIff(parse, t, gw);
    }
  }

  // With no device left over, a load that fails shows the order unless there is
  // only one interface.
  lemma {:induction false} CleanOrderBlindIff(parse: Parser, t: Tables, gw: State)
    requires Integrity(t) && forall name :: !Unknown(gw, name)
    ensures OrderBlind(parse, t, gw) <==> if AllServable(parse, t) then KeysAgree(parse, t) else |t.interfaces| == 1
  {
    hide Integrity, AllServable, KeysAgree, OrderBlind, InterfaceServable;
    LoadOrderBlindIff(parse, t, gw);
    if !AllServable(parse, t) {
      var u := Unservable(parse, t);
      OnlyKey(t.interfaces.Keys, u);
      if v :| v in t.interfaces && v != u {
        assert !Unchanging(parse, t, gw, v);
      }
    }
  }

  lemma {:induction false} OnlyKey(names: set<string>, u: string)
    requires u in names
    ensures |names| == 1 <==> forall v :: v in names ==> v == u
  {
    if forall v :: v in names ==> v == u {
      assert names == {u};
    } else {
      var v :| v in names && v != u;
      assert {u, v} <= names;
      SubsetSize({u, v}, names);
    }
  }

  lemma {:induction false} SubsetSize(a: set<string>, b: set<string>)
    requires a <= b
    ensures |a| <= |b|
  {
    assert b == a + (b - a);
  }

  lemma {:induction false} Unservable(parse: Parser, t: Tables) returns (u: string)
    requires Integrity(t) && !AllServable(parse, t)
    ensures u in t.interfaces && !InterfaceServable(parse, t, t.interfaces[u])
  {
    if k :| k in t.peers && !Servable(parse, t.peers[k]) {
      u := t.peers[k].iface;
    } else {
      u :| u in t.interfaces && parse(t.interfaces[u].privateKey).None?;
    }
  }

  // ---------------------------------------------------------------- listings

  // Any rows can come first, and any last.
  lemma {:induction false} ListingBetween(t: Tables, front: seq<Row>, back: seq<Row>)
    returns (items: seq<Row>, mid: seq<Row>)
    requires Integrity(t) && (forall r :: r in front + back ==> HasRow(t, r))
    requires forall i, j :: 0 <= i < j < |front + back| ==> (front + back)[i] != (front + back)[j]
    ensures Listing(items, t) && items == front + mid + back
  {
    var rows :=
      (set k | k in t.interfaces :: InterfaceRow(t.interfaces[k])) + (set k | k in t.peers :: PeerRow(t.peers[k])) +
      (set k | k in t.tokens :: TokenRow(t.tokens[k]));
    mid := Enumeration(rows - (set r | r in front + back));
    items := front + mid + back;
    forall x ensures x in items <==> HasRow(t, x) {
      assert x in items <==> x in mid || x in front + back;
    }
    Distinct(front, mid, back);
  }

  lemma {:induction false} Distinct(front: seq<Row>, mid: seq<Row>, back: seq<Row>)
    requires forall i, j :: 0 <= i < j < |front + back| ==> (front + back)[i] != (front + back)[j]
    requires forall i, j :: 0 <= i < j < |mid| ==> mid[i] != mid[j]
    requires forall r :: r in mid ==> r !in front + back
    ensures
      var items := front + mid + back;
      forall i, j :: 0 <= i < j < |items| ==> items[i] != items[j]
  {
    var outer, items, n := front + back, front + mid + back, |mid|;
    forall i, j | 0 <= i < j < |items| ensures items[i] != items[j] {
      var at := k => if k < |front| then k else k - n;
      var iMid, jMid := |front| <= i < |front| + n, |front| <= j < |front| + n;
      if !iMid && !jMid {
        assert items[i] == outer[at(i)] && items[j] == outer[at(j)];
      } else if iMid && !jMid {
        assert items[i] in mid && items[j] == outer[at(j)];
      } else if !iMid && jMid {
        assert items[j] in mid && items[i] == outer[at(i)];
      } else {
        assert items[i] == mid[i - |front|] && items[j] == mid[j - |front|];
      }
    }
  }

  lemma {:induction false} Enumeration(rows: set<Row>) returns (items: seq<Row>)
    ensures forall i, j :: 0 <= i < j < |items| ==> items[i] != items[j]
    ensures forall r :: r in items <==> r in rows
  {
    items := [];
    if rows != {} {
      var r :| r in rows;
      var front := Enumeration(rows - {r});
      items := front + [r];
    }
  }

  lemma {:induction false} InterfacesFrom(a: seq<Row>, b: seq<Row>)
    ensures InterfacesIn(a + b) == InterfacesIn(a) + InterfacesIn(b)
  {
    if b == [] {
      assert a + b == a;
    } else {
      assert (a + b)[..|a + b| - 1] == a + b[..|b| - 1];
      InterfacesFrom(a, b[..|b| - 1]);
    }
  }

  // ---------------------------------------------------------------- loads that work

  lemma {:induction false} WorkingLoadsIff(parse: Parser, t: Tables, gw: State)
    requires Integrity(t) && AllServable(parse, t)
    ensures OrderBlind(parse, t, gw) <==> KeysAgree(parse, t)
  {
    hide Integrity, Listing, AllServable, KeysAgree, Load;
    if KeysAgree(parse, t) {
      forall snap1: Snapshot, snap2: Snapshot
        | Listing(snap1.items, t) && Listing(snap2.items, t) && snap1.seqNum == snap2.seqNum
        ensures Load(parse, gw, snap1) == Load(parse, gw, snap2)
      {
        AgreedLoads(parse, t, gw, snap1, snap2);
      }
    } else {
      var k, k' := Disagreement(parse, t);
      var items, mid := ListingBetween(t, [], [PeerRow(t.peers[k])]);
      var items', mid' := ListingBetween(t, [], [PeerRow(t.peers[k'])]);
      LastListedWins(parse, t, gw, Snapshot(0, items), k);
      LastListedWins(parse, t, gw, Snapshot(0, items'), k');
      assert Load(parse, gw, Snapshot(0, items)) != Load(parse, gw, Snapshot(0, items'));
    }
  }

  lemma {:induction false} Disagreement(parse: Parser, t: Tables) returns (k: string, k': string)
    requires Integrity(t) && !KeysAgree(parse, t)
    ensures k in t.peers && k' in t.peers && t.peers[k].iface == t.peers[k'].iface
    ensures parse(k) == parse(k') && AllowedIPs(t.peers[k]) != AllowedIPs(t.peers[k'])
    ensures HasRow(t, PeerRow(t.peers[k])) && HasRow(t, PeerRow(t.peers[k']))
  {
    k :| k in t.peers && !Agreed(parse, t, t.peers[k].iface, t.peers[k]);
    k' :| SharesKey(parse, t, t.peers[k].iface, k', t.peers[k]) && AllowedIPs(t.peers[k']) != AllowedIPs(t.peers[k]);
  }

  lemma {:induction false} AgreedLoads(parse: Parser, t: Tables, gw: State, snap1: Snapshot, snap2: Snapshot)
    requires Integrity(t) && AllServable(parse, t) && KeysAgree(parse, t)
    requires Listing(snap1.items, t) && Listing(snap2.items, t) && snap1.seqNum == snap2.seqNum
    ensures Load(parse, gw, snap1) == Load(parse, gw, snap2)
  {
    hide Integrity, Listing, AllServable, KeysAgree, Exact, InterfacesIn, Build, BuiltOk;
    LoadIff(parse, t, gw, snap1);
    LoadIff(parse, t, gw, snap2);
    BuildIff(parse, t, snap1.items, |InterfacesIn(snap1.items)|);
    BuildIff(parse, t, snap2.items, |InterfacesIn(snap2.items)|);
    var b1 := Build(parse, snap1.items, |InterfacesIn(snap1.items)|).built;
    var b2 := Build(parse, snap2.items, |InterfacesIn(snap2.items)|).built;
    LoadedShows(parse, t, snap1.items, b1, 0);
    LoadedShows(parse, t, snap2.items, b2, 0);
    ExactUnique(parse, t, State(b1.intfs, b1.index, b1.devices, 0), State(b2.intfs, b2.index, b2.devices, 0));
  }

  // The peer listed last has its addresses on its device.
  lemma {:induction false} LastListedWins(parse: Parser, t: Tables, gw: State, snap: Snapshot, k: string)
    requires Integrity(t) && AllServable(parse, t) && k in t.peers
    requires Listing(snap.items, t) && snap.items != [] && snap.items[|snap.items| - 1] == PeerRow(t.peers[k])
    ensures
      var r, name := Load(parse, gw, snap), t.peers[k].iface;
      && r.Applied? && parse(k).Some? && name in r.gw.devices && parse(k).value in r.gw.devices[name]
      && r.gw.devices[name][parse(k).value] == AllowedIPs(t.peers[k])
  {
    hide Listing, InterfacesIn, Build, DeviceOf, Leftover, HoldsOnly;
    hide AllServable, AllServed, AllBacked, KeysAgree, PeersAgree;
    LoadIff(parse, t, gw, snap);
    BuildIff(parse, t, snap.items, |InterfacesIn(snap.items)|);
    var b := Build(parse, snap.items, |InterfacesIn(snap.items)|).built;
    BuiltAll(parse, t, snap.items, b);
    DeviceOfContents(parse, PeersIn(snap.items, t.peers[k].iface));
  }

  // ---------------------------------------------------------------- loads that fail

  lemma {:induction false} FailingLoadsIff(parse: Parser, t: Tables, gw: State)
    requires Integrity(t) && !AllServable(parse, t)
    ensures OrderBlind(parse, t, gw) <==> FailsAlike(parse, t, gw)
  {
    hide Integrity, Listing, AllServable, Load, Unchanging, InterfaceServable;
    if FailsAlike(parse, t, gw) {
      forall snap1: Snapshot, snap2: Snapshot
        | Listing(snap1.items, t) && Listing(snap2.items, t) && snap1.seqNum == snap2.seqNum
        ensures Load(parse, gw, snap1) == Load(parse, gw, snap2)
      {
        SameFailure(parse, t, gw, snap1, snap2);
      }
    }
    if OrderBlind(parse, t, gw) {
      forall u, v
        | u in t.interfaces && v in t.interfaces && u != v && !InterfaceServable(parse, t, t.interfaces[u])
        ensures Unchanging(parse, t, gw, v)
      {
        if InterfaceServable(parse, t, t.interfaces[v]) {
          MadeBefore(parse, t, gw, u, v);
        } else {
          StoppedBefore(parse, t, gw, u, v);
        }
      }
    }
  }

  // Where a load stops, and what it leaves.
  lemma {:induction false} StopsAt(parse: Parser, t: Tables, gw: State, snap: Snapshot) returns (n: nat, b: Built)
    requires Integrity(t) && !AllServable(parse, t) && Listing(snap.items, t)
    ensures n < |InterfacesIn(snap.items)| && !InterfaceServable(parse, t, InterfacesIn(snap.items)[n])
    ensures forall j :: 0 <= j < n ==> InterfaceServable(parse, t, InterfacesIn(snap.items)[j])
    ensures BuiltOk(parse, t, snap.items, n, b)
    ensures Load(parse, gw, snap) ==
      Failed(gw.(devices := Leftover(gw) + b.devices[InterfacesIn(snap.items)[n].name := map[]]))
  {
    hide InterfacesIn, PeersIn, DeviceOf, Listing, Integrity, BuiltOk, AllServable, InterfaceServable, Leftover, Build;
    var all := InterfacesIn(snap.items);
    ListedInterfaces(t, snap.items);
    ServableByInterface(parse, t, all);
    n := FirstUnservable(parse, t, all);
    BuildIff(parse, t, snap.items, n);
    BuildIff(parse, t, snap.items, n + 1);
    b := Build(parse, snap.items, n).built;
    BuildNext(parse, snap.items, n + 1);
    BuildFails(parse, snap.items, n + 1);
  }

  lemma {:induction false} FirstUnservable(parse: Parser, t: Tables, all: seq<Interface>) returns (n: nat)
    requires exists j :: 0 <= j < |all| && !InterfaceServable(parse, t, all[j])
    ensures n < |all| && !InterfaceServable(parse, t, all[n])
    ensures forall j :: 0 <= j < n ==> InterfaceServable(parse, t, all[j])
  {
    hide InterfaceServable;
    var last := |all| - 1;
    if j :| 0 <= j < last && !InterfaceServable(parse, t, all[j]) {
      assert all[..last][j] == all[j];
      n := FirstUnservable(parse, t, all[..last]);
      assert forall i :: 0 <= i <= n ==> all[..last][i] == all[i];
    } else {
      n := last;
    }
  }

  lemma {:induction false} SameFailure(parse: Parser, t: Tables, gw: State, snap1: Snapshot, snap2: Snapshot)
    requires Integrity(t) && !AllServable(parse, t) && FailsAlike(parse, t, gw)
    requires Listing(snap1.items, t) && Listing(snap2.items, t)
    ensures Load(parse, gw, snap1) == Load(parse, gw, snap2)
  {
    hide Integrity, Listing, AllServable, Load, InterfaceServable, InterfacesIn, BuiltOk, Leftover, DeviceRight;
    LeftoverIs(gw);
    var n1, b1 := StopsAt(parse, t, gw, snap1);
    var n2, b2 := StopsAt(parse, t, gw, snap2);
    var u1, u2 := InterfacesIn(snap1.items)[n1].name, InterfacesIn(snap2.items)[n2].name;
    MadeAlready(parse, t, gw, snap1.items, n1, b1);
    MadeAlready(parse, t, gw, snap2.items, n2, b2);
    ListedInterfaces(t, snap1.items);
    ListedInterfaces(t, snap2.items);
    assert u1 in t.interfaces && u2 in t.interfaces;
    assert InterfacesIn(snap1.items)[n1] in InterfacesIn(snap1.items);
    assert InterfacesIn(snap2.items)[n2] in InterfacesIn(snap2.items);
    if u1 != u2 {
      assert Unchanging(parse, t, gw, u1) && Unchanging(parse, t, gw, u2);
    }
    Overwrite(Leftover(gw), b1.devices, u1);
    Overwrite(Leftover(gw), b2.devices, u2);
    assert Leftover(gw)[u1 := map[]] == Leftover(gw)[u2 := map[]];
  }

  lemma {:induction false} Overwrite(a: map<string, Device>, b: map<string, Device>, u: string)
    requires forall v :: v in b ==> v in a && a[v] == b[v]
    ensures a + b[u := map[]] == a[u := map[]]
  {
  }

  // The devices made before the load stops are there already.
  lemma {:induction false} MadeAlready(parse: Parser, t: Tables, gw: State, items: seq<Row>, n: nat, b: Built)
    requires Integrity(t) && Listing(items, t) && FailsAlike(parse, t, gw)
    requires n < |InterfacesIn(items)| && !InterfaceServable(parse, t, InterfacesIn(items)[n])
    requires forall j :: 0 <= j < n ==> InterfaceServable(parse, t, InterfacesIn(items)[j])
    requires BuiltOk(parse, t, items, n, b)
    ensures forall v :: v in b.devices ==> v in Leftover(gw) && Leftover(gw)[v] == b.devices[v]
  {
    hide Integrity, Listing, InterfaceServable, InterfacesIn, Leftover, DeviceRight, DeviceOf, PeersIn;
    LeftoverIs(gw);
    var all := InterfacesIn(items);
    ListedInterfaces(t, items);
    assert all[n] in all;
    forall v | v in b.devices ensures v in Leftover(gw) && Leftover(gw)[v] == b.devices[v] {
      assert v in b.intfs && Named(all[..n], v);
      var i :| i in all[..n] && i.name == v;
      assert i in all && t.interfaces[v] == i && InterfaceServable(parse, t, i);
      assert v != all[n].name;
      assert Unchanging(parse, t, gw, v);
      RightUnique(parse, t, items, v, Leftover(gw)[v]);
    }
  }

  // The device that a listing makes is right, if any is.
  lemma {:induction false} RightUnique(parse: Parser, t: Tables, items: seq<Row>, name: string, d: Device)
    requires Integrity(t) && Listing(items, t) && DeviceRight(parse, t, name, d)
    requires DeviceOf(parse, PeersIn(items, name)).Some?
    ensures DeviceOf(parse, PeersIn(items, name)) == Some(d)
  {
    hide Listing, DeviceOf, PeersIn, Integrity, Holds;
    var peers := PeersIn(items, name);
    ListedPeers(t, items, name);
    assert forall p :: p in peers ==> Holds(parse, d, p);
    forall key | key in d ensures exists p :: p in peers && parse(p.publicKey) == Some(key) {
      BackedListed(parse, t, peers, name, key);
    }
    AllHeldAgree(parse, d, peers);
    DeviceOfContents(parse, peers);
    HoldUnique(parse, DeviceOf(parse, peers).value, d, peers);
  }

  lemma {:induction false} BackedListed(parse: Parser, t: Tables, peers: seq<Peer>, name: string, key: Key)
    requires Integrity(t) && Backed(parse, t, name, key)
    requires forall p :: p in peers <==> p.publicKey in t.peers && t.peers[p.publicKey] == p && p.iface == name
    ensures exists p :: p in peers && parse(p.publicKey) == Some(key)
  {
    var k :| k in t.peers && t.peers[k].iface == name && parse(k) == Some(key);
    assert t.peers[k] in peers;
  }

  lemma {:induction false} AllHeldAgree(parse: Parser, d: Device, peers: seq<Peer>)
    requires forall p :: p in peers ==> Holds(parse, d, p)
    ensures PeersAgree(parse, peers)
  {
    forall p, q | p in peers && q in peers ensures KeyAgrees(parse, p, q) {
      assert Holds(parse, d, p) && Holds(parse, d, q);
    }
  }

  // Two devices that hold the same peers and no others are the same.
  lemma {:induction false} HoldUnique(parse: Parser, a: Device, b: Device, peers: seq<Peer>)
    requires HoldsOnly(parse, a, peers) && HoldsOnly(parse, b, peers)
    requires forall p :: p in peers ==> Holds(parse, a, p) && Holds(parse, b, p)
    ensures a == b
  {
    forall key | key in a || key in b ensures key in a && key in b && a[key] == b[key] {
      var p :| p in peers && parse(p.publicKey) == Some(key);
      assert Holds(parse, a, p) && Holds(parse, b, p);
    }
  }

  // A load that stops at its first interface.
  lemma {:induction false} StopsFirst(parse: Parser, t: Tables, gw: State, u: string, rest: seq<Row>)
    requires u in t.interfaces && !InterfaceServable(parse, t, t.interfaces[u])
    requires Integrity(t) && Listing([InterfaceRow(t.interfaces[u])] + rest, t)
    ensures Load(parse, gw, Snapshot(0, [InterfaceRow(t.interfaces[u])] + rest)) ==
      Failed(gw.(devices := Leftover(gw)[u := map[]]))
  {
    hide PeersIn, DeviceOf, Listing, InterfaceServable, Leftover, Integrity, BuiltOk;
    InterfaceKnown(t, u);
    var items := [InterfaceRow(t.interfaces[u])] + rest;
    FirstInterface(t.interfaces[u], rest);
    hide InterfacesIn, Build;
    BuildNone(parse, items);
    BuildIff(parse, t, items, 1);
    BuildNext(parse, items, 1);
    BuildFails(parse, items, 1);
    assert Leftover(gw) + map[u := map[]] == Leftover(gw)[u := map[]];
  }

  lemma {:induction false} FirstInterface(i: Interface, rest: seq<Row>)
    ensures InterfacesIn([InterfaceRow(i)] + rest) == [i] + InterfacesIn(rest)
  {
    InterfacesFrom([InterfaceRow(i)], rest);
    assert InterfacesIn([InterfaceRow(i)]) == [i];
  }

  // A load that makes one device and stops at the next interface.
  lemma {:induction false} StopsSecond(parse: Parser, t: Tables, gw: State, u: string, v: string, rest: seq<Row>)
    requires u in t.interfaces && !InterfaceServable(parse, t, t.interfaces[u])
    requires v in t.interfaces && InterfaceServable(parse, t, t.interfaces[v])
    requires Integrity(t) && Listing([InterfaceRow(t.interfaces[v]), InterfaceRow(t.interfaces[u])] + rest, t)
    ensures
      var items := [InterfaceRow(t.interfaces[v]), InterfaceRow(t.interfaces[u])] + rest;
      && DeviceOf(parse, PeersIn(items, v)).Some?
      && Load(parse, gw, Snapshot(0, items)) ==
         Failed(gw.(devices := Leftover(gw)[v := DeviceOf(parse, PeersIn(items, v)).value][u := map[]]))
  {
    hide PeersIn, DeviceOf, Listing, InterfaceServable, Leftover, Integrity;
    var a, b := InterfaceRow(t.interfaces[v]), InterfaceRow(t.interfaces[u]);
    var items := [a, b] + rest;
    InterfaceKnown(t, u);
    InterfaceKnown(t, v);
    assert items == [a] + ([b] + rest);
    FirstInterface(a.intf, [b] + rest);
    FirstInterface(b.intf, rest);
    assert InterfacesIn(items)[0] == a.intf && InterfacesIn(items)[1] == b.intf;
    hide InterfacesIn, Build;
    SecondFails(parse, t, items);
    BuildFails(parse, items, 2);
    var d := DeviceOf(parse, PeersIn(items, v)).value;
    assert Leftover(gw) + map[v := d][u := map[]] == Leftover(gw)[v := d][u := map[]];
  }

  lemma {:induction false} SecondFails(parse: Parser, t: Tables, items: seq<Row>)
    requires Integrity(t) && Listing(items, t) && |InterfacesIn(items)| >= 2
    requires InterfaceServable(parse, t, InterfacesIn(items)[0]) && !InterfaceServable(parse, t, InterfacesIn(items)[1])
    ensures
      var a, b := InterfacesIn(items)[0], InterfacesIn(items)[1];
      && DeviceOf(parse, PeersIn(items, a.name)).Some?
      && Build(parse, items, 2) == Broken(map[a.name := DeviceOf(parse, PeersIn(items, a.name)).value][b.name := map[]])
  {
    hide InterfacesIn, Build, PeersIn, DeviceOf, Listing, InterfaceServable, IndexOf, Integrity, BuiltOk;
    BuildNone(parse, items);
    BuildIff(parse, t, items, 1);
    BuildNext(parse, items, 1);
    BuildIff(parse, t, items, 2);
    BuildNext(parse, items, 2);
  }

  // If the order leaves no trace: with u first nothing else is made, so v,
  // stopping the load in its turn, must have been there and empty.
  lemma {:induction false} StoppedBefore(parse: Parser, t: Tables, gw: State, u: string, v: string)
    requires Integrity(t) && OrderBlind(parse, t, gw) && u in t.interfaces && v in t.interfaces && u != v
    requires !InterfaceServable(parse, t, t.interfaces[u]) && !InterfaceServable(parse, t, t.interfaces[v])
    ensures Unchanging(parse, t, gw, v)
  {
    hide Listing, Load, InterfaceServable, Leftover;
    LeftoverIs(gw);
    var a, b := InterfaceRow(t.interfaces[u]), InterfaceRow(t.interfaces[v]);
    var items, mid := ListingBetween(t, [a], []);
    var items', mid' := ListingBetween(t, [b], []);
    assert items == [a] + mid && items' == [b] + mid';
    StopsFirst(parse, t, gw, u, mid);
    StopsFirst(parse, t, gw, v, mid');
    assert Snapshot(0, items).seqNum == Snapshot(0, items').seqNum;
    assert Load(parse, gw, Snapshot(0, items)) == Load(parse, gw, Snapshot(0, items'));
    assert v in Leftover(gw)[u := map[]] && Leftover(gw)[u := map[]][v] == map[];
  }

  // And v, made before u, must have been there and right, whichever of its
  // peers comes last.
  lemma {:induction false} MadeBefore(parse: Parser, t: Tables, gw: State, u: string, v: string)
    requires Integrity(t) && OrderBlind(parse, t, gw) && u in t.interfaces && v in t.interfaces && u != v
    requires !InterfaceServable(parse, t, t.interfaces[u]) && InterfaceServable(parse, t, t.interfaces[v])
    ensures Unchanging(parse, t, gw, v)
  {
    hide Listing, Load, InterfaceServable, Leftover, DeviceOf, PeersIn, OrderBlind, Holds;
    LeftoverIs(gw);
    var made := MadeWith(parse, t, gw, u, v, []);
    forall k | k in t.peers && t.peers[k].iface == v ensures Holds(parse, Leftover(gw)[v], t.peers[k]) {
      var made' := MadeWith(parse, t, gw, u, v, [PeerRow(t.peers[k])]);
    }
  }

  lemma {:induction false} MadeWith(parse: Parser, t: Tables, gw: State, u: string, v: string, back: seq<Row>)
    returns (items: seq<Row>)
    requires Integrity(t) && OrderBlind(parse, t, gw) && u in t.interfaces && v in t.interfaces && u != v
    requires !InterfaceServable(parse, t, t.interfaces[u]) && InterfaceServable(parse, t, t.interfaces[v])
    requires |back| <= 1 && forall r :: r in back ==> HasRow(t, r) && r.PeerRow? && r.peer.iface == v
    ensures Listing(items, t) && v in Leftover(gw)
    ensures forall key :: key in Leftover(gw)[v] ==> Backed(parse, t, v, key)
    ensures back != [] ==> Holds(parse, Leftover(gw)[v], back[0].peer)
  {
    hide Listing, Load, InterfaceServable, Leftover, DeviceOf, PeersIn, Integrity, Holds;
    var a, b := InterfaceRow(t.interfaces[u]), InterfaceRow(t.interfaces[v]);
    InterfaceKnown(t, u);
    InterfaceKnown(t, v);
    var items', mid' := ListingBetween(t, [a], []);
    assert items' == [a] + mid';
    StopsFirst(parse, t, gw, u, mid');
    var mid;
    items, mid := ListingBetween(t, [b, a], back);
    assert items == [b, a] + (mid + back);
    StopsSecond(parse, t, gw, u, v, mid + back);
    assert Snapshot(0, items).seqNum == Snapshot(0, items').seqNum;
    assert Load(parse, gw, Snapshot(0, items)) == Load(parse, gw, Snapshot(0, items'));
    SameDevice(Leftover(gw), u, v, DeviceOf(parse, PeersIn(items, v)).value);
    hide OrderBlind;
    MadeDevice(parse, t, items, v);
    if back != [] {
      LastHeld(parse, items, back[0].peer);
    }
  }

  lemma {:induction false} InterfaceKnown(t: Tables, name: string)
    requires Integrity(t) && name in t.interfaces
    ensures HasRow(t, InterfaceRow(t.interfaces[name])) && t.interfaces[name].name == name
  {
  }

  lemma {:induction false} SameDevice(left: map<string, Device>, u: string, v: string, d: Device)
    requires left[u := map[]] == left[v := d][u := map[]] && u != v
    ensures v in left && left[v] == d
  {
    assert v in left[v := d][u := map[]] && left[v := d][u := map[]][v] == d;
  }

  lemma {:induction false} MadeDevice(parse: Parser, t: Tables, items: seq<Row>, name: string)
    requires Integrity(t) && Listing(items, t) && DeviceOf(parse, PeersIn(items, name)).Some?
    ensures forall key :: key in DeviceOf(parse, PeersIn(items, name)).value ==> Backed(parse, t, name, key)
  {
    hide Listing, DeviceOf, PeersIn;
    var peers := PeersIn(items, name);
    ListedPeers(t, items, name);
    DeviceOfContents(parse, peers);
    forall key | key in DeviceOf(parse, peers).value ensures Backed(parse, t, name, key) {
      var p :| p in peers && parse(p.publicKey) == Some(key);
      assert p.publicKey in t.peers;
    }
  }

  lemma {:induction false} LastHeld(parse: Parser, items: seq<Row>, p: Peer)
    requires items != [] && items[|items| - 1] == PeerRow(p) && DeviceOf(parse, PeersIn(items, p.iface)).Some?
    ensures Holds(parse, DeviceOf(parse, PeersIn(items, p.iface)).value, p)
  {
    hide DeviceOf, Holds;
    DeviceOfContents(parse, PeersIn(items, p.iface));
  }
}
