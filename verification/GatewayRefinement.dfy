// The gateway shows the database for as long as every operation is one it can
// carry out, and no longer.
module GatewayRefinement {
  import opened Wrappers
  import opened Tables
  import opened Gateway

  // The gateway carries the operation out and then shows the database again.
  ghost predicate Follows(parse: Parser, t: Tables, gw: State, op: Op) {
    var r := Apply(parse, gw, op);
    r.Applied? && Shows(parse, Effect(t, op), r.gw)
  }

  lemma {:induction false} StillBacked(parse: Parser, t: Tables, t': Tables, name: string, key: Key)
    requires Backed(parse, t, name, key)
    requires forall k :: k in t.peers && parse(k) == Some(key) ==> k in t'.peers && t'.peers[k].iface == t.peers[k].iface
    ensures Backed(parse, t', name, key)
  {
    var k :| k in t.peers && t.peers[k].iface == name && parse(k) == Some(key);
    assert k in t'.peers;
  }

  lemma {:induction false} ServedStill(parse: Parser, t: Tables, gw: State, t': Tables, gw': State)
    requires Integrity(t) && AllServed(parse, t, gw)
    requires t'.peers == t.peers && gw'.peerIndex == gw.peerIndex
    requires forall name :: name in t.interfaces && name in gw.devices ==>
      name in gw'.devices && gw'.devices[name] == gw.devices[name]
    ensures AllServed(parse, t', gw')
  {
    forall k | k in t'.peers ensures PeerServed(parse, t', gw', k) {
      assert PeerServed(parse, t, gw, k);
    }
  }

  lemma {:induction false} BackedStill(parse: Parser, t: Tables, gw: State, t': Tables, gw': State)
    requires AllBacked(parse, t, gw)
    requires forall k :: k in t.peers ==> k in t'.peers && t'.peers[k].iface == t.peers[k].iface
    requires forall name :: name in gw'.devices && gw'.devices[name] != map[] ==>
      name in gw.devices && gw'.devices[name].Keys <= gw.devices[name].Keys
    ensures AllBacked(parse, t', gw')
  {
    forall name, key | name in gw'.devices && key in gw'.devices[name] ensures Backed(parse, t', name, key) {
      assert key in gw.devices[name];
      StillBacked(parse, t, t', name, key);
    }
  }

  // ---------------------------------------------------------------- interfaces

  lemma {:induction false} InterfaceCreated(parse: Parser, t: Tables, gw: State, i: Interface, n: nat)
    requires Integrity(t) && Shows(parse, t, gw)
    requires i.name !in t.interfaces && parse(i.privateKey).Some?
    ensures Shows(parse, t.(interfaces := t.interfaces[i.name := i]),
                  State(gw.intfs[i.name := i], gw.peerIndex, gw.devices[i.name := map[]], n))
  {
    var t' := t.(interfaces := t.interfaces[i.name := i]);
    var gw' := State(gw.intfs[i.name := i], gw.peerIndex, gw.devices[i.name := map[]], n);
    ServedStill(parse, t, gw, t', gw');
    BackedStill(parse, t, gw, t', gw');
  }

  // Deleting an interface takes its device and all its peers with it.
  lemma {:induction false} InterfaceDeleted(parse: Parser, t: Tables, gw: State, i: Interface, n: nat)
    requires Integrity(t) && Shows(parse, t, gw)
    requires i.name in t.interfaces
    ensures Shows(parse, Delete(t, InterfaceRow(i)).value,
                  State(gw.intfs - {i.name}, gw.peerIndex, gw.devices - {i.name}, n))
  {
    var t' := Delete(t, InterfaceRow(i)).value;
    var gw' := State(gw.intfs - {i.name}, gw.peerIndex, gw.devices - {i.name}, n);
    forall k | k in t'.peers ensures PeerServed(parse, t', gw', k) {
      assert PeerServed(parse, t, gw, k);
    }
    forall name, key | name in gw'.devices && key in gw'.devices[name] ensures Backed(parse, t', name, key) {
      assert Backed(parse, t, name, key);
      var k :| k in t.peers && t.peers[k].iface == name && parse(k) == Some(key);
      assert k in t'.peers;
    }
  }

  lemma {:induction false} ShowsInterfaces(parse: Parser, t: Tables, gw: State)
    requires Shows(parse, t, gw)
    ensures gw.intfs == t.interfaces && gw.devices.Keys == t.interfaces.Keys
  {
  }

  lemma {:induction false} InterfaceFollowsIff(parse: Parser, t: Tables, gw: State, op: Op)
    requires Integrity(t) && Shows(parse, t, gw)
    requires op.row.InterfaceRow? && ApplyOp(t, op).Ok?
    ensures Follows(parse, t, gw, op) <==> Carried(parse, t, gw, op)
  {
    hide Shows, Integrity;
    var i := op.row.intf;
    ShowsInterfaces(parse, t, gw);
    if Carried(parse, t, gw, op) {
      if op.typ.OpCreate? {
        InterfaceCreated(parse, t, gw, i, op.seqNum);
      } else {
        InterfaceDeleted(parse, t, gw, i, op.seqNum);
      }
    }
  }

  // ---------------------------------------------------------------- peers

  function DeviceWith(gw: State, name: string, key: Key, allowed: seq<string>): map<string, Device>
    requires name in gw.devices
  {
    gw.devices[name := gw.devices[name][key := allowed]]
  }

  // A peer written to the device of its own interface: created there, or
  // stored there already.
  lemma {:induction false} PeerWrittenIff(parse: Parser, t: Tables, gw: State, p: Peer, n: nat)
    requires Integrity(t) && Shows(parse, t, gw)
    requires p.publicKey in t.peers ==> t.peers[p.publicKey].iface == p.iface
    requires p.iface in t.interfaces && Servable(parse, p)
    ensures Shows(parse, t.(peers := t.peers[p.publicKey := p]),
                  State(gw.intfs, gw.peerIndex[p.publicKey := p.iface],
                        DeviceWith(gw, p.iface, parse(p.publicKey).value, AllowedIPs(p)), n))
            <==> Agreed(parse, t, p.iface, p)
  {
    hide Integrity, AllServed, AllBacked, Agreed;
    var key' := parse(p.publicKey).value;
    var gw' := State(gw.intfs, gw.peerIndex[p.publicKey := p.iface], DeviceWith(gw, p.iface, key', AllowedIPs(p)), n);
    WrittenServed(parse, t, gw, p, gw');
    WrittenBacked(parse, t, gw, p, gw');
  }

  lemma {:induction false} WrittenServed(parse: Parser, t: Tables, gw: State, p: Peer, gw': State)
    requires Integrity(t) && AllServed(parse, t, gw)
    requires p.iface in gw.devices && Servable(parse, p)
    requires gw'.peerIndex == gw.peerIndex[p.publicKey := p.iface]
    requires gw'.devices == DeviceWith(gw, p.iface, parse(p.publicKey).value, AllowedIPs(p))
    ensures AllServed(parse, t.(peers := t.peers[p.publicKey := p]), gw') <==> Agreed(parse, t, p.iface, p)
  {
    var t' := t.(peers := t.peers[p.publicKey := p]);
    forall k | k in t'.peers
      ensures PeerServed(parse, t', gw', k) <==>
        (SharesKey(parse, t, p.iface, k, p) ==> AllowedIPs(t.peers[k]) == AllowedIPs(p))
    {
      if k != p.publicKey {
        assert PeerServed(parse, t, gw, k);
      }
    }
    if AllServed(parse, t', gw') {
      forall k | SharesKey(parse, t, p.iface, k, p) ensures AllowedIPs(t.peers[k]) == AllowedIPs(p) {
        assert k in t'.peers;
      }
    }
  }

  lemma {:induction false} WrittenBacked(parse: Parser, t: Tables, gw: State, p: Peer, gw': State)
    requires AllBacked(parse, t, gw)
    requires p.publicKey in t.peers ==> t.peers[p.publicKey].iface == p.iface
    requires p.iface in gw.devices && parse(p.publicKey).Some?
    requires gw'.devices == DeviceWith(gw, p.iface, parse(p.publicKey).value, AllowedIPs(p))
    ensures AllBacked(parse, t.(peers := t.peers[p.publicKey := p]), gw')
  {
    var t' := t.(peers := t.peers[p.publicKey := p]);
    forall name, key | name in gw'.devices && key in gw'.devices[name] ensures Backed(parse, t', name, key) {
      if name == p.iface && parse(p.publicKey) == Some(key) {
        assert p.publicKey in t'.peers;
      } else {
        assert key in gw.devices[name];
        StillBacked(parse, t, t', name, key);
      }
    }
  }

  lemma {:induction false} PeerCreateFollowsIff(parse: Parser, t: Tables, gw: State, op: Op)
    requires Integrity(t) && Shows(parse, t, gw)
    requires op.row.PeerRow? && op.typ.OpCreate? && ApplyOp(t, op).Ok?
    ensures Follows(parse, t, gw, op) <==> Carried(parse, t, gw, op)
  {
    hide Shows, Integrity, Agreed;
    ShowsInterfaces(parse, t, gw);
    var p := op.row.peer;
    if Servable(parse, p) {
      PeerWrittenIff(parse, t, gw, p, op.seqNum);
      assert Apply(parse, gw, op).Applied? && Apply(parse, gw, op).gw ==
        State(gw.intfs, gw.peerIndex[p.publicKey := p.iface],
              DeviceWith(gw, p.iface, parse(p.publicKey).value, AllowedIPs(p)), op.seqNum);
    }
  }

  // What the gateway knows of one stored peer.
  lemma {:induction false} StoredPeer(parse: Parser, t: Tables, gw: State, k: string)
    requires Integrity(t) && Shows(parse, t, gw) && k in t.peers
    ensures t.peers[k].publicKey == k && t.peers[k].iface in t.interfaces
    ensures PeerServed(parse, t, gw, k)
  {
  }

  // A key is on a device of another interface if and only if a double is there.
  lemma {:induction false} ElsewhereIff(parse: Parser, t: Tables, gw: State, p: Peer, name: string)
    requires Integrity(t) && AllServed(parse, t, gw) && AllBacked(parse, t, gw)
    requires name in gw.devices && parse(p.publicKey).Some?
    requires p.publicKey in t.peers ==> t.peers[p.publicKey].iface != name
    ensures parse(p.publicKey).value in gw.devices[name] <==> !Alone(parse, t, name, p)
  {
    var key := parse(p.publicKey).value;
    if key in gw.devices[name] {
      assert Backed(parse, t, name, key);
      var k :| k in t.peers && t.peers[k].iface == name && parse(k) == Some(key);
      assert SharesKey(parse, t, name, k, p);
    }
    if !Alone(parse, t, name, p) {
      var k :| SharesKey(parse, t, name, k, p);
      assert PeerServed(parse, t, gw, k);
    }
  }

  // The devices after an update that moves a peer: off the old device, and on
  // the new one only if its key is there already.
  function MovedDevices(gw: State, p: Peer, home: string, key: Key): map<string, Device>
    requires home in gw.devices && p.iface in gw.devices && home != p.iface
  {
    var left := if home == "" then gw.devices else gw.devices[home := gw.devices[home] - {key}];
    if key in gw.devices[p.iface] then left[p.iface := gw.devices[p.iface][key := AllowedIPs(p)]] else left
  }

  lemma {:induction false} MoveOutcome(parse: Parser, gw: State, p: Peer, home: string)
    requires gw.intfs.Keys == gw.devices.Keys && p.iface in gw.intfs && home in gw.intfs && home != p.iface
    requires Indexed(gw, p.publicKey) == home && Servable(parse, p)
    ensures ApplyPeer(parse, gw, OpUpdate, p) ==
      Applied(State(gw.intfs, gw.peerIndex[p.publicKey := p.iface],
                    MovedDevices(gw, p, home, parse(p.publicKey).value), gw.seqNum))
  {
    var devices := ApplyPeer(parse, gw, OpUpdate, p).gw.devices;
    assert devices == MovedDevices(gw, p, home, parse(p.publicKey).value);
  }

  // An update that moves a peer takes it off its old device, and the push to
  // the new one only updates peers that are there: it is on the new device if
  // and only if a double was.
  lemma {:induction false} MovedPeerLost(parse: Parser, t: Tables, gw: State, p: Peer)
    requires Integrity(t) && Shows(parse, t, gw)
    requires p.publicKey in t.peers && p.iface in t.interfaces && p.iface != t.peers[p.publicKey].iface
    requires AllowedIPs(p) != []
    ensures
      var r, home := ApplyPeer(parse, gw, OpUpdate, p), t.peers[p.publicKey].iface;
      && parse(p.publicKey).Some? && r.Applied? && p.iface in r.gw.devices && home in r.gw.devices
      && (parse(p.publicKey).value in r.gw.devices[p.iface] <==> !Alone(parse, t, p.iface, p))
      && (home != "" ==> parse(p.publicKey).value !in r.gw.devices[home])
  {
    hide Integrity, AllServed, AllBacked, Alone, ApplyPeer;
    StoredPeer(parse, t, gw, p.publicKey);
    MoveOutcome(parse, gw, p, t.peers[p.publicKey].iface);
    ElsewhereIff(parse, t, gw, p, p.iface);
  }

  lemma {:induction false} PeerMovedIff(parse: Parser, t: Tables, gw: State, p: Peer, n: nat)
    requires Integrity(t) && Shows(parse, t, gw)
    requires p.publicKey in t.peers && p.iface in t.interfaces && p.iface != t.peers[p.publicKey].iface
    requires Servable(parse, p) && t.peers[p.publicKey].iface in t.interfaces
    ensures Shows(parse, t.(peers := t.peers[p.publicKey := p]),
                  State(gw.intfs, gw.peerIndex[p.publicKey := p.iface],
                        MovedDevices(gw, p, t.peers[p.publicKey].iface, parse(p.publicKey).value), n))
            <==> UpdateCarried(parse, t, p)
  {
    hide Integrity, AllServed, AllBacked, Agreed, Alone, MovedDevices;
    var home, key := t.peers[p.publicKey].iface, parse(p.publicKey).value;
    var gw' := State(gw.intfs, gw.peerIndex[p.publicKey := p.iface], MovedDevices(gw, p, home, key), n);
    MovedKeys(gw, p, home, key);
    MovedServed(parse, t, gw, p, gw');
    MovedBacked(parse, t, gw, p, gw');
  }

  lemma {:induction false} MovedKeys(gw: State, p: Peer, home: string, key: Key)
    requires home in gw.devices && p.iface in gw.devices && home != p.iface
    ensures MovedDevices(gw, p, home, key).Keys == gw.devices.Keys
  {
  }

  // The entry of a peer after somebody else's move.
  lemma {:induction false} MovedEntry(parse: Parser, t: Tables, gw: State, p: Peer, gw': State, k: string)
    requires k in t.peers && t.peers[k].publicKey == k && k != p.publicKey && PeerServed(parse, t, gw, k)
    requires p.publicKey in t.peers && Servable(parse, p)
    requires t.peers[p.publicKey].iface in gw.devices && p.iface in gw.devices && p.iface != t.peers[p.publicKey].iface
    requires gw'.peerIndex == gw.peerIndex[p.publicKey := p.iface]
    requires gw'.devices == MovedDevices(gw, p, t.peers[p.publicKey].iface, parse(p.publicKey).value)
    ensures
      var home := t.peers[p.publicKey].iface;
      PeerServed(parse, t.(peers := t.peers[p.publicKey := p]), gw', k) <==>
        && (SharesKey(parse, t, p.iface, k, p) ==> AllowedIPs(t.peers[k]) == AllowedIPs(p))
        && (home != "" ==> !SharesKey(parse, t, home, k, p))
  {
  }

  lemma {:induction false} MovedServed(parse: Parser, t: Tables, gw: State, p: Peer, gw': State)
    requires Integrity(t) && AllServed(parse, t, gw) && AllBacked(parse, t, gw)
    requires p.publicKey in t.peers && Servable(parse, p)
    requires t.peers[p.publicKey].iface in gw.devices && p.iface in gw.devices && p.iface != t.peers[p.publicKey].iface
    requires gw'.peerIndex == gw.peerIndex[p.publicKey := p.iface]
    requires gw'.devices == MovedDevices(gw, p, t.peers[p.publicKey].iface, parse(p.publicKey).value)
    ensures
      var home := t.peers[p.publicKey].iface;
      AllServed(parse, t.(peers := t.peers[p.publicKey := p]), gw') <==>
        && !Alone(parse, t, p.iface, p) && Agreed(parse, t, p.iface, p)
        && (home != "" ==> Alone(parse, t, home, p))
  {
    hide AllBacked;
    var t', home := t.(peers := t.peers[p.publicKey := p]), t.peers[p.publicKey].iface;
    ElsewhereIff(parse, t, gw, p, p.iface);
    MovedSelf(parse, t, gw, p, gw');
    forall k | k in t.peers && k != p.publicKey
      ensures PeerServed(parse, t', gw', k) <==>
        && (SharesKey(parse, t, p.iface, k, p) ==> AllowedIPs(t.peers[k]) == AllowedIPs(p))
        && (home != "" ==> !SharesKey(parse, t, home, k, p))
    {
      assert PeerServed(parse, t, gw, k);
      MovedEntry(parse, t, gw, p, gw', k);
    }
    hide Alone, Agreed, PeerServed;
    ServedByParts(parse, t, t', gw', p, home);
  }

  lemma {:induction false} MovedSelf(parse: Parser, t: Tables, gw: State, p: Peer, gw': State)
    requires p.publicKey in t.peers && Servable(parse, p)
    requires t.peers[p.publicKey].iface in gw.devices && p.iface in gw.devices && p.iface != t.peers[p.publicKey].iface
    requires gw'.peerIndex == gw.peerIndex[p.publicKey := p.iface]
    requires gw'.devices == MovedDevices(gw, p, t.peers[p.publicKey].iface, parse(p.publicKey).value)
    ensures PeerServed(parse, t.(peers := t.peers[p.publicKey := p]), gw', p.publicKey) <==>
      parse(p.publicKey).value in gw.devices[p.iface]
  {
  }

  lemma {:induction false} ServedByParts(parse: Parser, t: Tables, t': Tables, gw': State, p: Peer, home: string)
    requires t'.peers == t.peers[p.publicKey := p] && p.publicKey in t.peers
    requires PeerServed(parse, t', gw', p.publicKey) <==> !Alone(parse, t, p.iface, p)
    requires forall k :: k in t.peers && k != p.publicKey ==>
      (PeerServed(parse, t', gw', k) <==>
        && (SharesKey(parse, t, p.iface, k, p) ==> AllowedIPs(t.peers[k]) == AllowedIPs(p))
        && (home != "" ==> !SharesKey(parse, t, home, k, p)))
    ensures AllServed(parse, t', gw') <==>
      && !Alone(parse, t, p.iface, p) && Agreed(parse, t, p.iface, p)
      && (home != "" ==> Alone(parse, t, home, p))
  {
    hide PeerServed;
    if AllServed(parse, t', gw') {
      assert p.publicKey in t'.peers;
      forall k | SharesKey(parse, t, p.iface, k, p) ensures AllowedIPs(t.peers[k]) == AllowedIPs(p) {
        assert k in t'.peers && PeerServed(parse, t', gw', k);
      }
      forall k | home != "" ensures !SharesKey(parse, t, home, k, p) {
        if k in t.peers && k != p.publicKey {
          assert k in t'.peers && PeerServed(parse, t', gw', k);
        }
      }
    } else {
      var k :| k in t'.peers && !PeerServed(parse, t', gw', k);
    }
  }

  // A move leaves a key without a peer only on a device named "", which the
  // gateway takes for no device at all.
  lemma {:induction false} MovedBacked(parse: Parser, t: Tables, gw: State, p: Peer, gw': State)
    requires Integrity(t) && AllServed(parse, t, gw) && AllBacked(parse, t, gw)
    requires p.publicKey in t.peers && parse(p.publicKey).Some?
    requires t.peers[p.publicKey].iface in gw.devices && p.iface in gw.devices && p.iface != t.peers[p.publicKey].iface
    requires gw'.devices == MovedDevices(gw, p, t.peers[p.publicKey].iface, parse(p.publicKey).value)
    ensures
      var home := t.peers[p.publicKey].iface;
      AllBacked(parse, t.(peers := t.peers[p.publicKey := p]), gw') <==>
        (home == "" ==> !Alone(parse, t, home, p))
  {
    var t', home, mine := t.(peers := t.peers[p.publicKey := p]), t.peers[p.publicKey].iface, parse(p.publicKey).value;
    BackedAtHomeIff(parse, t, p);
    assert PeerServed(parse, t, gw, p.publicKey);
    hide Alone, PeerServed;
    if home == "" && !Backed(parse, t', home, mine) {
      assert home in gw'.devices && mine in gw'.devices[home];
    } else {
      forall name, key | name in gw'.devices && key in gw'.devices[name] ensures Backed(parse, t', name, key) {
        assert key in gw.devices[name] && Backed(parse, t, name, key);
        if !(name == home && key == mine) {
          var k :| k in t.peers && t.peers[k].iface == name && parse(k) == Some(key);
          assert k != p.publicKey && k in t'.peers;
        }
      }
    }
  }

  lemma {:induction false} BackedAtHomeIff(parse: Parser, t: Tables, p: Peer)
    requires p.publicKey in t.peers && parse(p.publicKey).Some? && p.iface != t.peers[p.publicKey].iface
    ensures
      var home := t.peers[p.publicKey].iface;
      Backed(parse, t.(peers := t.peers[p.publicKey := p]), home, parse(p.publicKey).value) <==>
        !Alone(parse, t, home, p)
  {
    var t', home, key := t.(peers := t.peers[p.publicKey := p]), t.peers[p.publicKey].iface, parse(p.publicKey).value;
    if Backed(parse, t', home, key) {
      var k :| k in t'.peers && t'.peers[k].iface == home && parse(k) == Some(key);
      assert SharesKey(parse, t, home, k, p);
    }
    if !Alone(parse, t, home, p) {
      var k :| SharesKey(parse, t, home, k, p);
      assert k in t'.peers;
    }
  }

  lemma {:induction false} PeerUpdateFollowsIff(parse: Parser, t: Tables, gw: State, op: Op)
    requires Integrity(t) && Shows(parse, t, gw)
    requires op.row.PeerRow? && op.typ.OpUpdate? && ApplyOp(t, op).Ok?
    requires op.row.peer.publicKey in t.peers
    ensures Follows(parse, t, gw, op) <==> Carried(parse, t, gw, op)
  {
    hide Shows, Integrity, Agreed, Alone;
    var p := op.row.peer;
    ShowsInterfaces(parse, t, gw);
    StoredPeer(parse, t, gw, p.publicKey);
    if AllowedIPs(p) != [] {
      if p.iface == t.peers[p.publicKey].iface {
        PeerWrittenIff(parse, t, gw, p, op.seqNum);
        assert Apply(parse, gw, op).Applied? && Apply(parse, gw, op).gw ==
          State(gw.intfs, gw.peerIndex[p.publicKey := p.iface],
                DeviceWith(gw, p.iface, parse(p.publicKey).value, AllowedIPs(p)), op.seqNum);
      } else {
        PeerMovedIff(parse, t, gw, p, op.seqNum);
        MoveOutcome(parse, gw, p, t.peers[p.publicKey].iface);
      }
    }
  }

  // A stored peer taken off its device.
  lemma {:induction false} PeerDeletedIff(parse: Parser, t: Tables, gw: State, p: Peer, n: nat)
    requires Integrity(t) && Shows(parse, t, gw)
    requires p.publicKey in t.peers && parse(p.publicKey).Some? && t.peers[p.publicKey].iface in gw.devices
    ensures
      var home := t.peers[p.publicKey].iface;
      Shows(parse, t.(peers := t.peers - {p.publicKey}),
            State(gw.intfs, gw.peerIndex, gw.devices[home := gw.devices[home] - {parse(p.publicKey).value}], n))
      <==> Alone(parse, t, home, p)
  {
    hide AllServed, AllBacked, Integrity, Alone;
    var home := t.peers[p.publicKey].iface;
    var gw' := State(gw.intfs, gw.peerIndex, gw.devices[home := gw.devices[home] - {parse(p.publicKey).value}], n);
    DeletedServed(parse, t, gw, p, gw');
    DeletedBacked(parse, t, gw, p.publicKey, gw');
  }

  lemma {:induction false} DeletedServed(parse: Parser, t: Tables, gw: State, p: Peer, gw': State)
    requires Integrity(t) && AllServed(parse, t, gw)
    requires p.publicKey in t.peers && parse(p.publicKey).Some? && t.peers[p.publicKey].iface in gw.devices
    requires gw'.peerIndex == gw.peerIndex
    requires
      var home := t.peers[p.publicKey].iface;
      gw'.devices == gw.devices[home := gw.devices[home] - {parse(p.publicKey).value}]
    ensures AllServed(parse, t.(peers := t.peers - {p.publicKey}), gw') <==>
      Alone(parse, t, t.peers[p.publicKey].iface, p)
  {
    var t', home := t.(peers := t.peers - {p.publicKey}), t.peers[p.publicKey].iface;
    forall k | k in t'.peers ensures PeerServed(parse, t', gw', k) <==> !SharesKey(parse, t, home, k, p) {
      assert PeerServed(parse, t, gw, k);
    }
    hide PeerServed;
    if AllServed(parse, t', gw') {
      forall k ensures !SharesKey(parse, t, home, k, p) {
        assert k in t.peers && k != p.publicKey ==> k in t'.peers;
      }
    }
  }

  lemma {:induction false} DeletedBacked(parse: Parser, t: Tables, gw: State, k: string, gw': State)
    requires AllBacked(parse, t, gw)
    requires k in t.peers && parse(k).Some? && t.peers[k].iface in gw.devices
    requires
      var name := t.peers[k].iface;
      gw'.devices == gw.devices[name := gw.devices[name] - {parse(k).value}]
    ensures AllBacked(parse, t.(peers := t.peers - {k}), gw')
  {
    var t' := t.(peers := t.peers - {k});
    forall name, key | name in gw'.devices && key in gw'.devices[name] ensures Backed(parse, t', name, key) {
      assert Backed(parse, t, name, key);
      var other :| other in t.peers && t.peers[other].iface == name && parse(other) == Some(key);
      assert other != k && other in t'.peers;
    }
  }

  lemma {:induction false} PeerDeleteFollowsIff(parse: Parser, t: Tables, gw: State, op: Op)
    requires Integrity(t) && Shows(parse, t, gw)
    requires op.row.PeerRow? && op.typ.OpDelete? && op.row.peer.publicKey in t.peers
    ensures Follows(parse, t, gw, op) <==> Carried(parse, t, gw, op)
  {
    hide Shows, Integrity, Alone;
    ShowsInterfaces(parse, t, gw);
    StoredPeer(parse, t, gw, op.row.peer.publicKey);
    PeerDeletedIff(parse, t, gw, op.row.peer, op.seqNum);
  }

  // ---------------------------------------------------------------- operations on rows that do not exist

  // The device entry of a stored peer.
  function Entry(parse: Parser, t: Tables, devices: map<string, Device>, k: string): Option<seq<string>>
    requires k in t.peers
  {
    var name := t.peers[k].iface;
    if parse(k).Some? && name in devices && parse(k).value in devices[name] then Some(devices[name][parse(k).value])
    else None
  }

  ghost predicate EntriesKept(parse: Parser, t: Tables, before: map<string, Device>, after: map<string, Device>) {
    forall k :: k in t.peers ==> Entry(parse, t, after, k) == Entry(parse, t, before, k)
  }

  // Devices that gain no key still show the database if and only if every
  // stored peer keeps its entry.
  lemma {:induction false} StrayKeepsIff(parse: Parser, t: Tables, gw: State, gw': State)
    requires Integrity(t) && Shows(parse, t, gw)
    requires gw'.intfs == gw.intfs && gw'.devices.Keys == gw.devices.Keys
    requires forall k :: k in t.peers && k in gw.peerIndex ==> k in gw'.peerIndex && gw'.peerIndex[k] == gw.peerIndex[k]
    requires forall name :: name in gw.devices ==> gw'.devices[name].Keys <= gw.devices[name].Keys
    ensures Shows(parse, t, gw') <==> EntriesKept(parse, t, gw.devices, gw'.devices)
  {
    forall k | k in t.peers
      ensures PeerServed(parse, t, gw', k) <==> Entry(parse, t, gw'.devices, k) == Entry(parse, t, gw.devices, k)
    {
      assert PeerServed(parse, t, gw, k);
    }
  }

  lemma {:induction false} StrayDeleteFollowsIff(parse: Parser, t: Tables, gw: State, op: Op)
    requires Integrity(t) && Shows(parse, t, gw)
    requires op.row.PeerRow? && op.typ.OpDelete? && op.row.peer.publicKey !in t.peers
    ensures Follows(parse, t, gw, op) <==> Carried(parse, t, gw, op)
  {
    hide Shows, Integrity, StrayDeleteHarmless;
    var p := op.row.peer;
    var name := Indexed(gw, p.publicKey);
    ShowsInterfaces(parse, t, gw);
    assert Effect(t, op) == t;
    if parse(p.publicKey).Some? && name in t.interfaces {
      var gw' := State(gw.intfs, gw.peerIndex,
                       gw.devices[name := gw.devices[name] - {parse(p.publicKey).value}], op.seqNum);
      assert Apply(parse, gw, op) == Applied(gw');
      StrayKeepsIff(parse, t, gw, gw');
      StrayDeleteEntries(parse, t, gw, p);
    } else if StrayDeleteHarmless(parse, t, gw, p) {
      StrayDeleteNeeds(parse, t, gw, p);
      assert false;
    }
  }

  lemma {:induction false} StrayDeleteNeeds(parse: Parser, t: Tables, gw: State, p: Peer)
    requires StrayDeleteHarmless(parse, t, gw, p)
    ensures parse(p.publicKey).Some? && Indexed(gw, p.publicKey) in t.interfaces
  {
  }

  lemma {:induction false} StrayDeleteEntries(parse: Parser, t: Tables, gw: State, p: Peer)
    requires Integrity(t) && Shows(parse, t, gw)
    requires p.publicKey !in t.peers && parse(p.publicKey).Some?
    requires Indexed(gw, p.publicKey) in t.interfaces
    ensures
      var name := Indexed(gw, p.publicKey);
      EntriesKept(parse, t, gw.devices, gw.devices[name := gw.devices[name] - {parse(p.publicKey).value}])
      <==> StrayDeleteHarmless(parse, t, gw, p)
  {
    var name := Indexed(gw, p.publicKey);
    var devices := gw.devices[name := gw.devices[name] - {parse(p.publicKey).value}];
    forall k | k in t.peers
      ensures Entry(parse, t, devices, k) == Entry(parse, t, gw.devices, k) <==>
        !SharesKey(parse, t, name, k, p)
    {
      assert PeerServed(parse, t, gw, k);
    }
  }

  function StrayDevices(parse: Parser, gw: State, p: Peer): map<string, Device>
    requires Servable(parse, p) && p.iface in gw.devices
    requires Moves(gw, p) ==> Indexed(gw, p.publicKey) in gw.devices
  {
    var prev, key := Indexed(gw, p.publicKey), parse(p.publicKey).value;
    var moved := if Moves(gw, p) then gw.devices[prev := gw.devices[prev] - {key}] else gw.devices;
    if key in moved[p.iface] then moved[p.iface := moved[p.iface][key := AllowedIPs(p)]] else moved
  }

  lemma {:induction false} StrayUpdateFollowsIff(parse: Parser, t: Tables, gw: State, op: Op)
    requires Integrity(t) && Shows(parse, t, gw)
    requires op.row.PeerRow? && op.typ.OpUpdate? && op.row.peer.publicKey !in t.peers
    ensures Follows(parse, t, gw, op) <==> Carried(parse, t, gw, op)
  {
    hide Shows, Integrity, StrayUpdateHarmless;
    var p := op.row.peer;
    ShowsInterfaces(parse, t, gw);
    assert Effect(t, op) == t;
    if Servable(parse, p) && p.iface in t.interfaces && (Moves(gw, p) ==> Indexed(gw, p.publicKey) in t.interfaces) {
      var gw' := State(gw.intfs, gw.peerIndex[p.publicKey := p.iface], StrayDevices(parse, gw, p), op.seqNum);
      StrayUpdateOutcome(parse, gw, op);
      StrayKeepsIff(parse, t, gw, gw');
      StrayUpdateEntries(parse, t, gw, p);
    } else {
      StrayUpdateNeeds(parse, t, gw, p);
    }
  }

  lemma {:induction false} StrayUpdateOutcome(parse: Parser, gw: State, op: Op)
    requires op.row.PeerRow? && op.typ.OpUpdate? && gw.intfs.Keys == gw.devices.Keys
    requires Servable(parse, op.row.peer) && op.row.peer.iface in gw.intfs
    requires Moves(gw, op.row.peer) ==> Indexed(gw, op.row.peer.publicKey) in gw.intfs
    ensures
      var p := op.row.peer;
      Apply(parse, gw, op) ==
      Applied(State(gw.intfs, gw.peerIndex[p.publicKey := p.iface], StrayDevices(parse, gw, p), op.seqNum))
  {
    hide Push;
    var p := op.row.peer;
    var key := parse(p.publicKey).value;
    var moved := if Moves(gw, p) then Deconfigured(parse, gw, p, Indexed(gw, p.publicKey)) else gw;
    if Moves(gw, p) {
      PushRemoves(gw, Indexed(gw, p.publicKey), PeerToConfig(parse, p, false, true).value);
    }
    PushUpdates(moved.(peerIndex := gw.peerIndex[p.publicKey := p.iface]), p.iface,
                PeerToConfig(parse, p, true, false).value);
  }

  lemma {:induction false} PushRemoves(gw: State, name: string, cfg: PeerConfig)
    requires name in gw.devices && cfg.remove
    ensures Push(gw, name, cfg) == gw.(devices := gw.devices[name := gw.devices[name] - {cfg.key}])
  {
  }

  // An update only changes a peer that is there.
  lemma {:induction false} PushUpdates(gw: State, name: string, cfg: PeerConfig)
    requires name in gw.devices && !cfg.remove && cfg.updateOnly && cfg.replaceAllowed
    ensures Push(gw, name, cfg) == gw.(devices :=
      if cfg.key in gw.devices[name] then gw.devices[name := gw.devices[name][cfg.key := cfg.allowed]] else gw.devices)
  {
    assert gw.devices[name := gw.devices[name]] == gw.devices;
  }

  lemma {:induction false} StrayUpdateNeeds(parse: Parser, t: Tables, gw: State, p: Peer)
    ensures StrayUpdateHarmless(parse, t, gw, p) ==>
      && Servable(parse, p) && p.iface in t.interfaces
      && (Moves(gw, p) ==> Indexed(gw, p.publicKey) in t.interfaces)
  {
  }

  lemma {:induction false} StrayUpdateEntries(parse: Parser, t: Tables, gw: State, p: Peer)
    requires Integrity(t) && Shows(parse, t, gw)
    requires p.publicKey !in t.peers && Servable(parse, p) && p.iface in t.interfaces
    requires Moves(gw, p) ==> Indexed(gw, p.publicKey) in t.interfaces
    ensures EntriesKept(parse, t, gw.devices, StrayDevices(parse, gw, p)) <==> StrayUpdateHarmless(parse, t, gw, p)
  {
    hide StrayDevices, AllBacked;
    var devices := StrayDevices(parse, gw, p);
    forall k | k in t.peers
      ensures Entry(parse, t, devices, k) == Entry(parse, t, gw.devices, k) <==> EntrySpared(parse, t, gw, p, k)
    {
      assert PeerServed(parse, t, gw, k);
      StrayUpdateEntry(parse, t, gw, p, k);
    }
    if EntriesKept(parse, t, gw.devices, devices) {
      forall k ensures EntrySpared(parse, t, gw, p, k) {
      }
    }
    if StrayUpdateHarmless(parse, t, gw, p) {
      forall k ensures EntrySpared(parse, t, gw, p, k) {
      }
    }
  }

  ghost predicate EntrySpared(parse: Parser, t: Tables, gw: State, p: Peer, k: string) {
    && (Moves(gw, p) ==> !SharesKey(parse, t, Indexed(gw, p.publicKey), k, p))
    && (SharesKey(parse, t, p.iface, k, p) ==> AllowedIPs(t.peers[k]) == AllowedIPs(p))
  }

  lemma {:induction false} StrayUpdateEntry(parse: Parser, t: Tables, gw: State, p: Peer, k: string)
    requires k in t.peers && t.peers[k].publicKey == k && k != p.publicKey && PeerServed(parse, t, gw, k)
    requires Servable(parse, p) && p.iface in gw.devices
    requires Moves(gw, p) ==> Indexed(gw, p.publicKey) in gw.devices
    ensures Entry(parse, t, StrayDevices(parse, gw, p), k) == Entry(parse, t, gw.devices, k) <==>
      EntrySpared(parse, t, gw, p, k)
  {
  }

  // ---------------------------------------------------------------- all operations

  lemma {:induction false} TokenFollows(parse: Parser, t: Tables, gw: State, op: Op)
    requires Integrity(t) && Shows(parse, t, gw) && op.row.TokenRow?
    ensures Follows(parse, t, gw, op)
  {
    hide AllServed, AllBacked;
    var t', gw' := Effect(t, op), gw.(seqNum := op.seqNum);
    ServedStill(parse, t, gw, t', gw');
    BackedStill(parse, t, gw, t', gw');
  }

  // For every operation the database accepts: the gateway carries it out and
  // shows the database again, if and only if the condition holds before it.
  lemma {:induction false} FollowsIff(parse: Parser, t: Tables, gw: State, op: Op)
    requires Integrity(t) && Shows(parse, t, gw)
    requires ApplyOp(t, op).Ok?
    ensures Follows(parse, t, gw, op) <==> Carried(parse, t, gw, op)
  {
    hide Shows, Integrity, Follows, Apply;
    match op.row
    case InterfaceRow(_) => InterfaceFollowsIff(parse, t, gw, op);
    case PeerRow(p) =>
      match op.typ {
        case OpCreate => PeerCreateFollowsIff(parse, t, gw, op);
        case OpUpdate =>
          if p.publicKey in t.peers {
            PeerUpdateFollowsIff(parse, t, gw, op);
          } else {
            StrayUpdateFollowsIff(parse, t, gw, op);
          }
        case OpDelete =>
          if p.publicKey in t.peers {
            PeerDeleteFollowsIff(parse, t, gw, op);
          } else {
            StrayDeleteFollowsIff(parse, t, gw, op);
          }
      }
    case TokenRow(_) => TokenFollows(parse, t, gw, op);
  }

  // ---------------------------------------------------------------- refusals and crashes

  ghost predicate HasAddress(p: Peer) {
    p.ip.Some? || p.ip6.Some?
  }

  // Which peer operations are refused and which crash the gateway, in any state.
  lemma {:induction false} PeerOutcomeIff(parse: Parser, gw: State, typ: OpType, p: Peer)
    ensures
      var r, at := ApplyPeer(parse, gw, typ, p), if p.publicKey in gw.peerIndex then gw.peerIndex[p.publicKey] else "";
      var lost := at != "" && at != p.iface && at !in gw.intfs;
      match typ
      case OpCreate =>
        && !r.Panicked?
        && (r.Failed? <==> p.iface !in gw.intfs || p.iface !in gw.devices || parse(p.publicKey).None? || !HasAddress(p))
      case OpUpdate =>
        && (r.Panicked? <==> p.iface in gw.intfs && lost)
        && (r.Failed? <==>
            || p.iface !in gw.intfs
            || (!lost && (p.iface !in gw.devices || parse(p.publicKey).None? || !HasAddress(p))))
      case OpDelete =>
        && (r.Panicked? <==> parse(p.publicKey).Some? && at !in gw.intfs)
        && (r.Failed? <==> parse(p.publicKey).None? || (at in gw.intfs && at !in gw.devices))
      case OpUnknown => r.Panicked?
  {
    AddressesIff(p, []);
  }

  // What is left of a peer operation that is refused or crashes: the interfaces
  // and the number stay; the index has changed already if the interface is
  // known; and a move has taken the peer off its old device already, or, if its
  // key cannot be read, has put the zero key there.
  lemma {:induction false} PeerRefusedLeaves(parse: Parser, gw: State, typ: OpType, p: Peer)
    requires !ApplyPeer(parse, gw, typ, p).Applied?
    ensures
      var r := ApplyPeer(parse, gw, typ, p);
      var at := if p.publicKey in gw.peerIndex then gw.peerIndex[p.publicKey] else "";
      var writes := r.Failed? && (typ.OpCreate? || typ.OpUpdate?) && p.iface in gw.intfs;
      var moves := writes && typ.OpUpdate? && at != "" && at != p.iface && at in gw.devices;
      && r.gw.intfs == gw.intfs && r.gw.seqNum == gw.seqNum
      && r.gw.peerIndex == (if writes then gw.peerIndex[p.publicKey := p.iface] else gw.peerIndex)
      && r.gw.devices.Keys == gw.devices.Keys
      && (forall name :: name in gw.devices && !(moves && name == at) ==> r.gw.devices[name] == gw.devices[name])
      && (moves && parse(p.publicKey).Some? ==>
          r.gw.devices[at] == gw.devices[at] - {parse(p.publicKey).value})
      && (moves && parse(p.publicKey).None? ==>
          && r.gw.devices[at].Keys == gw.devices[at].Keys + {ZERO_KEY}
          && (ZERO_KEY !in gw.devices[at] ==> r.gw.devices[at][ZERO_KEY] == []))
  {
    hide ZERO_KEY;
  }

  // Which interface operations are refused, and what that leaves: a create that
  // cannot set the key leaves an empty device, an update has replaced the record
  // and lost the device.
  lemma {:induction false} InterfaceOutcomeIff(parse: Parser, gw: State, typ: OpType, i: Interface)
    ensures
      var r := ApplyInterface(parse, gw, typ, i);
      && !r.Panicked? && r.gw.peerIndex == gw.peerIndex && r.gw.seqNum == gw.seqNum
      && match typ
         case OpCreate =>
           && (r.Failed? <==> i.name in gw.intfs || parse(i.privateKey).None?)
           && r.gw.intfs == (if r.Applied? then gw.intfs[i.name := i] else gw.intfs)
           && r.gw.devices == (if i.name in gw.intfs then gw.devices else gw.devices[i.name := map[]])
         case OpUpdate =>
           && r.Failed?
           && (i.name !in gw.intfs ==> r.gw == gw)
           && (i.name in gw.intfs ==>
               r.gw.intfs == gw.intfs[i.name := i] && r.gw.devices == gw.devices - {i.name})
         case OpDelete =>
           && (r.Failed? <==> i.name !in gw.intfs)
           && (r.Failed? ==> r.gw == gw)
           && (r.Applied? ==> r.gw.intfs == gw.intfs - {i.name} && r.gw.devices == gw.devices - {i.name})
         case OpUnknown => r == Applied(gw)
  {
  }

  // The number moves with every operation that is applied, and with no other;
  // operations on other tables change nothing else.
  lemma {:induction false} NumberMovesIff(parse: Parser, gw: State, op: Op)
    ensures Apply(parse, gw, op).gw.seqNum == if Apply(parse, gw, op).Applied? then op.seqNum else gw.seqNum
    ensures op.row.TokenRow? || op.row.UnknownRow? ==> Apply(parse, gw, op) == Applied(gw.(seqNum := op.seqNum))
  {
    match op.row
    case PeerRow(p) =>
      if !ApplyPeer(parse, gw, op.typ, p).Applied? {
        PeerRefusedLeaves(parse, gw, op.typ, p);
      }
    case InterfaceRow(i) => InterfaceOutcomeIff(parse, gw, op.typ, i);
    case _ =>
  }

  // ---------------------------------------------------------------- whole logs

  // The gateway after the first k operations of a log, or how it stopped.
  function GatewayAt(parse: Parser, gw: State, hist: seq<Op>, k: nat): Outcome
    requires k <= |hist|
  {
    if k == 0 then Applied(gw)
    else
      match GatewayAt(parse, gw, hist, k - 1)
      case Applied(gw') => Apply(parse, gw', hist[k - 1])
      case stopped => stopped
  }

  ghost predicate ShowsAt(parse: Parser, base: Tables, gw: State, hist: seq<Op>, k: nat)
    requires k <= |hist|
  {
    GatewayAt(parse, gw, hist, k).Applied? &&
    Shows(parse, StateAt(base, hist, k), GatewayAt(parse, gw, hist, k).gw)
  }

  ghost predicate CarriedAt(parse: Parser, base: Tables, gw: State, hist: seq<Op>, k: nat)
    requires k < |hist|
  {
    GatewayAt(parse, gw, hist, k).Applied? &&
    Carried(parse, StateAt(base, hist, k), GatewayAt(parse, gw, hist, k).gw, hist[k])
  }

  // Over a whole log that the database replays: the gateway shows the database
  // after every operation, if and only if every operation is one it carries.
  lemma {:induction false} GatewayRefinesIff(parse: Parser, base: Tables, gw: State, hist: seq<Op>, n: nat)
    requires Integrity(base) && Shows(parse, base, gw)
    requires Replays(base, hist) && n <= |hist|
    ensures (forall k :: 0 <= k <= n ==> ShowsAt(parse, base, gw, hist, k)) <==>
            (forall k :: 0 <= k < n ==> CarriedAt(parse, base, gw, hist, k))
  {
    hide Shows, Carried, Apply, Integrity, ApplyOp;
    if n != 0 {
      GatewayRefinesIff(parse, base, gw, hist, n - 1);
      ReplayKeepsIntegrity(base, hist, n - 1);
      if ShowsAt(parse, base, gw, hist, n - 1) {
        var t, g := StateAt(base, hist, n - 1), GatewayAt(parse, gw, hist, n - 1).gw;
        assert Accepted(base, hist, n - 1);
        FollowsIff(parse, t, g, hist[n - 1]);
        assert ShowsAt(parse, base, gw, hist, n) <==> Follows(parse, t, g, hist[n - 1]);
        assert CarriedAt(parse, base, gw, hist, n - 1) <==> Carried(parse, t, g, hist[n - 1]);
      }
    }
  }

  // An operation that hits the row it names, keeps peers on their interface,
  // leaves interfaces unchanged, stores only what can be served, gives peers of
  // one interface the same key only with the same addresses, and deletes none
  // of several with the same key.
  ghost predicate Tame(parse: Parser, t: Tables, op: Op) {
    match op.row
    case InterfaceRow(i) =>
      (op.typ.OpCreate? && parse(i.privateKey).Some?) || (op.typ.OpDelete? && i.name in t.interfaces)
    case PeerRow(p) =>
      (match op.typ
       case OpCreate => Servable(parse, p) && Agreed(parse, t, p.iface, p)
       case OpUpdate =>
         && p.publicKey in t.peers && p.iface == t.peers[p.publicKey].iface && AllowedIPs(p) != []
         && Agreed(parse, t, p.iface, p)
       case OpDelete => p.publicKey in t.peers && Alone(parse, t, t.peers[p.publicKey].iface, p)
       case OpUnknown => false)
    case _ => true
  }

  // A tame log: a new gateway never fails, and shows the database throughout.
  lemma {:induction false} TameLogShown(parse: Parser, base: Tables, hist: seq<Op>, n: nat)
    requires Integrity(base) && base.interfaces == map[] && base.peers == map[]
    requires Replays(base, hist) && n <= |hist|
    requires forall k :: 0 <= k < n ==> Tame(parse, StateAt(base, hist, k), hist[k])
    ensures forall k :: 0 <= k <= n ==> ShowsAt(parse, base, State(map[], map[], map[], 0), hist, k)
  {
    hide Apply, ApplyOp, Shows, Tame, Carried, Integrity;
    var gw := State(map[], map[], map[], 0);
    NewShows(parse, base);
    if n != 0 {
      TameLogShown(parse, base, hist, n - 1);
      assert ShowsAt(parse, base, gw, hist, n - 1);
      ReplayKeepsIntegrity(base, hist, n - 1);
      var t, g := StateAt(base, hist, n - 1), GatewayAt(parse, gw, hist, n - 1).gw;
      assert Accepted(base, hist, n - 1);
      TameCarried(parse, t, g, hist[n - 1]);
      FollowsIff(parse, t, g, hist[n - 1]);
      assert ShowsAt(parse, base, gw, hist, n);
    }
  }

  lemma {:induction false} NewShows(parse: Parser, base: Tables)
    requires base.interfaces == map[] && base.peers == map[]
    ensures Shows(parse, base, State(map[], map[], map[], 0))
  {
  }

  lemma {:induction false} TameCarried(parse: Parser, t: Tables, gw: State, op: Op)
    requires Tame(parse, t, op)
    ensures Carried(parse, t, gw, op)
  {
  }

  // An update of an interface always stops the gateway, and it leaves the
  // interface without a device.
  lemma {:induction false} InterfaceUpdateStops(parse: Parser, t: Tables, gw: State, op: Op)
    requires Shows(parse, t, gw)
    requires op.row.InterfaceRow? && op.typ.OpUpdate?
    ensures ApplyOp(t, op).Ok?
    ensures Apply(parse, gw, op).Failed? && op.row.intf.name !in Apply(parse, gw, op).gw.devices
  {
    ShowsInterfaces(parse, t, gw);
  }

  // Delete an interface with a peer, then that peer: the database cascades and
  // ignores the second delete, the gateway's index is stale and it crashes.
  lemma {:induction false} StaleIndexCrashes(parse: Parser, t: Tables, gw: State, i: Interface, p: Peer, n: nat, m: nat)
    requires Integrity(t) && Shows(parse, t, gw)
    requires p.publicKey in t.peers && i.name == t.peers[p.publicKey].iface
    ensures
      var first, second := Op(n, OpDelete, InterfaceRow(i)), Op(m, OpDelete, PeerRow(p));
      && Effect(Effect(t, first), second) == Effect(t, first)
      && Apply(parse, gw, first).Applied?
      && Apply(parse, Apply(parse, gw, first).gw, second).Panicked?
  {
    hide Shows, Integrity;
    StoredPeer(parse, t, gw, p.publicKey);
    ShowsInterfaces(parse, t, gw);
  }
}
