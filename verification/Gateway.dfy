// The gateway as a second sink of the log: it keeps an interface map and an
// index from peer to interface, and pushes peers to WireGuard devices.
module Gateway {
  import opened Wrappers
  import opened Tables

  datatype Key = Key(bytes: seq<bv8>)

  const ZERO_KEY := Key([0, 0, 0, 0, 0, 0, 0, 0, 0, 0, 0, 0, 0, 0, 0, 0, 0, 0, 0, 0, 0, 0, 0, 0, 0, 0, 0, 0, 0, 0, 0, 0])

  // Reads the base64 form of a key. Different texts may give the same key.
  type Parser = string -> Option<Key>

  // The peers of a device and their allowed addresses.
  type Device = map<Key, seq<string>>

  datatype State = State(
    intfs: map<string, Interface>, peerIndex: map<string, string>,
    devices: map<string, Device>, seqNum: nat)

  // Applied; refused with an error, which ends the follow loop; or crashed on a
  // missing interface. The state is what is left in each case.
  datatype Outcome = Applied(gw: State) | Failed(gw: State) | Panicked(gw: State)

  // ---------------------------------------------------------------- devices

  datatype PeerConfig = PeerConfig(key: Key, remove: bool, updateOnly: bool, replaceAllowed: bool, allowed: seq<string>)

  function AllowedIPs(p: Peer): seq<string> {
    (if p.ip.Some? then [p.ip.value] else []) + (if p.ip6.Some? then [p.ip6.value] else [])
  }

  function PeerToConfig(parse: Parser, p: Peer, update: bool, remove: bool): Option<PeerConfig> {
    match parse(p.publicKey)
    case None => None
    case Some(key) =>
      if remove then Some(PeerConfig(key, true, update, false, []))
      else if AllowedIPs(p) == [] then None
      else Some(PeerConfig(key, false, update, true, AllowedIPs(p)))
  }

  // What the kernel does with one peer of a configuration.
  function Configure(dev: Device, cfg: PeerConfig): Device {
    if cfg.remove then dev - {cfg.key}
    else if cfg.updateOnly && cfg.key !in dev then dev
    else if cfg.replaceAllowed || cfg.key !in dev then dev[cfg.key := cfg.allowed]
    else dev[cfg.key := dev[cfg.key] + cfg.allowed]
  }

  // Configure the device of an interface the gateway knows.
  function Push(gw: State, name: string, cfg: PeerConfig): State {
    if name in gw.devices then gw.(devices := gw.devices[name := Configure(gw.devices[name], cfg)]) else gw
  }

  // Delete the device of an interface, or make it anew.
  function Stop(gw: State, name: string): State {
    gw.(devices := gw.devices - {name})
  }

  function Start(gw: State, name: string): State {
    gw.(devices := gw.devices[name := map[]])
  }

  // Whether the private key can be set, on a device that is there.
  predicate Initializes(parse: Parser, gw: State, i: Interface) {
    parse(i.privateKey).Some? && i.name in gw.devices
  }

  function NewInterface(parse: Parser, gw: State, i: Interface): Outcome {
    var started := Start(gw, i.name);
    if Initializes(parse, started, i) then Applied(started) else Failed(started)
  }

  // Stop, replace the record, set the key, and only then start.
  function Reconfigure(parse: Parser, gw: State, i: Interface): Outcome {
    var stopped := Stop(gw, i.name).(intfs := gw.intfs[i.name := i]);
    if Initializes(parse, stopped, i) then Applied(Start(stopped, i.name)) else Failed(stopped)
  }

  // Devices of interfaces the gateway does not know, which nothing will stop:
  // left by a load or a create that failed, or by a process that was killed.
  function Leftover(gw: State): map<string, Device> {
    gw.devices - gw.intfs.Keys
  }

  // The name has a device and the gateway does not know its interface.
  predicate Unknown(gw: State, name: string) {
    name in gw.devices && name !in gw.intfs
  }

  lemma {:induction false} LeftoverIs(gw: State)
    ensures forall name :: name in Leftover(gw) <==> Unknown(gw, name)
    ensures forall name :: Unknown(gw, name) ==> Leftover(gw)[name] == gw.devices[name]
  {
  }

  // ---------------------------------------------------------------- Apply

  function ApplyInterface(parse: Parser, gw: State, typ: OpType, i: Interface): Outcome {
    match typ
    case OpCreate =>
      if i.name in gw.intfs then Failed(gw)
      else
        (match NewInterface(parse, gw, i)
         case Applied(started) => Applied(started.(intfs := gw.intfs[i.name := i]))
         case refused => refused)
    case OpUpdate => if i.name !in gw.intfs then Failed(gw) else Reconfigure(parse, gw, i)
    case OpDelete =>
      if i.name !in gw.intfs then Failed(gw)
      else Applied(Stop(gw, i.name).(intfs := gw.intfs - {i.name}))
    case OpUnknown => Applied(gw)
  }

  // The interface the index has for a peer; "" if it has none.
  function Indexed(gw: State, publicKey: string): string {
    if publicKey in gw.peerIndex then gw.peerIndex[publicKey] else ""
  }

  // Push to the device of `name`, or refuse or crash.
  function Finish(gw: State, name: string, cfg: Option<PeerConfig>): Outcome {
    if cfg.None? then Failed(gw)
    else if name !in gw.intfs then Panicked(gw)
    else if name !in gw.devices then Failed(gw)
    else Applied(Push(gw, name, cfg.value))
  }

  function Deconfigured(parse: Parser, gw: State, p: Peer, prev: string): State {
    var cfg := match PeerToConfig(parse, p, false, true)
               case Some(c) => c
               case None => PeerConfig(ZERO_KEY, false, false, false, []);
    Push(gw, prev, cfg)
  }

  function ApplyPeer(parse: Parser, gw: State, typ: OpType, p: Peer): Outcome {
    match typ
    case OpCreate =>
      if p.iface !in gw.intfs then Failed(gw)
      else
        Finish(gw.(peerIndex := gw.peerIndex[p.publicKey := p.iface]), p.iface, PeerToConfig(parse, p, false, false))
    case OpUpdate =>
      var prev := Indexed(gw, p.publicKey);
      if p.iface !in gw.intfs then Failed(gw)
      else if Moves(gw, p) && prev !in gw.intfs then Panicked(gw)
      else
        var moved := if Moves(gw, p) then Deconfigured(parse, gw, p, prev) else gw;
        Finish(moved.(peerIndex := gw.peerIndex[p.publicKey := p.iface]), p.iface, PeerToConfig(parse, p, true, false))
    case OpDelete => Finish(gw, Indexed(gw, p.publicKey), PeerToConfig(parse, p, false, true))
    case OpUnknown => Panicked(gw)
  }

  function Apply(parse: Parser, gw: State, op: Op): Outcome {
    var r := match op.row
             case PeerRow(p) => ApplyPeer(parse, gw, op.typ, p)
             case InterfaceRow(i) => ApplyInterface(parse, gw, op.typ, i)
             case _ => Applied(gw);
    match r
    case Applied(gw') => Applied(gw'.(seqNum := op.seqNum))
    case _ => r
  }

  // ---------------------------------------------------------------- refinement

  // A peer the gateway can serve.
  predicate Servable(parse: Parser, p: Peer) {
    parse(p.publicKey).Some? && AllowedIPs(p) != []
  }

  // Everything stored can be served.
  ghost predicate AllServable(parse: Parser, t: Tables) {
    && (forall k :: k in t.peers ==> Servable(parse, t.peers[k]))
    && (forall k :: k in t.interfaces ==> parse(t.interfaces[k].privateKey).Some?)
  }

  ghost predicate PeerServed(parse: Parser, t: Tables, gw: State, k: string)
    requires k in t.peers
  {
    var p := t.peers[k];
    && k in gw.peerIndex && gw.peerIndex[k] == p.iface
    && Servable(parse, p) && p.iface in gw.devices && parse(p.publicKey).value in gw.devices[p.iface]
    && gw.devices[p.iface][parse(p.publicKey).value] == AllowedIPs(p)
  }

  ghost predicate Backed(parse: Parser, t: Tables, name: string, key: Key) {
    exists k :: k in t.peers && t.peers[k].iface == name && parse(k) == Some(key)
  }

  // The gateway shows the database: the same interfaces, one device each, on
  // each device exactly the database peers of that interface with their
  // addresses, and a right index for every stored peer.
  ghost predicate Shows(parse: Parser, t: Tables, gw: State) {
    && gw.intfs == t.interfaces && gw.devices.Keys == t.interfaces.Keys
    && AllServed(parse, t, gw) && AllBacked(parse, t, gw)
  }

  ghost predicate AllServed(parse: Parser, t: Tables, gw: State) {
    forall k :: k in t.peers ==> PeerServed(parse, t, gw, k)
  }

  ghost predicate AllBacked(parse: Parser, t: Tables, gw: State) {
    forall name, key {:trigger Backed(parse, t, name, key)} ::
      name in gw.devices && key in gw.devices[name] ==> Backed(parse, t, name, key)
  }

  // ---------------------------------------------------------------- addresses

  // The addresses are exactly the two columns of the row, as far as they are
  // set, IPv4 first.
  ghost predicate EntryOf(p: Peer, e: seq<string>) {
    && (forall a :: a in e <==> p.ip == Some(a) || p.ip6 == Some(a))
    && |e| == (if p.ip.Some? then 1 else 0) + (if p.ip6.Some? then 1 else 0)
    && (p.ip.Some? ==> e[0] == p.ip.value) && (p.ip6.Some? ==> e[|e| - 1] == p.ip6.value)
  }

  lemma {:induction false} AddressesIff(p: Peer, e: seq<string>)
    ensures e == AllowedIPs(p) <==> EntryOf(p, e)
    ensures AllowedIPs(p) == [] <==> p.ip.None? && p.ip6.None?
  {
    if EntryOf(p, e) {
      assert |e| == |AllowedIPs(p)|;
      assert forall i :: 0 <= i < |e| ==> e[i] == AllowedIPs(p)[i];
    }
  }

  // A stored peer as the rows describe it: indexed under its interface, with a
  // key that can be read and an address, and on the device with both columns.
  ghost predicate PeerShown(parse: Parser, t: Tables, gw: State, k: string)
    requires k in t.peers
  {
    var p := t.peers[k];
    && k in gw.peerIndex && gw.peerIndex[k] == p.iface
    && parse(k).Some? && (p.ip.Some? || p.ip6.Some?)
    && p.iface in gw.devices && parse(k).value in gw.devices[p.iface]
    && EntryOf(p, gw.devices[p.iface][parse(k).value])
  }

  // The gateway shows the database if and only if it has the same interfaces,
  // one device each, on them every stored peer with exactly its addresses, and
  // nobody else.
  lemma {:induction false} ShowsIff(parse: Parser, t: Tables, gw: State)
    requires Integrity(t)
    ensures Shows(parse, t, gw) <==>
      && gw.intfs == t.interfaces && gw.devices.Keys == t.interfaces.Keys
      && (forall k :: k in t.peers ==> PeerShown(parse, t, gw, k))
      && (forall name, key {:trigger Backed(parse, t, name, key)} ::
          name in gw.devices && key in gw.devices[name] ==> Backed(parse, t, name, key))
  {
    forall k | k in t.peers ensures PeerServed(parse, t, gw, k) <==> PeerShown(parse, t, gw, k) {
      var p := t.peers[k];
      AddressesIff(p, []);
      if p.iface in gw.devices && parse(k).Some? && parse(k).value in gw.devices[p.iface] {
        AddressesIff(p, gw.devices[p.iface][parse(k).value]);
      }
    }
    hide PeerServed, PeerShown;
  }

  // ---------------------------------------------------------------- what the gateway can carry

  // Another stored peer of the interface has the same key.
  ghost predicate SharesKey(parse: Parser, t: Tables, name: string, k: string, p: Peer) {
    k in t.peers && k != p.publicKey && t.peers[k].iface == name && parse(k) == parse(p.publicKey)
  }

  // Nobody else on the interface has the peer's key.
  ghost predicate Alone(parse: Parser, t: Tables, name: string, p: Peer) {
    forall k :: !SharesKey(parse, t, name, k, p)
  }

  // Whoever else on the interface has the peer's key has its addresses too.
  ghost predicate Agreed(parse: Parser, t: Tables, name: string, p: Peer) {
    forall k :: SharesKey(parse, t, name, k, p) ==> AllowedIPs(t.peers[k]) == AllowedIPs(p)
  }

  // When an operation that the database accepts is carried out by the gateway.
  ghost predicate Carried(parse: Parser, t: Tables, gw: State, op: Op) {
    match op.row
    case InterfaceRow(i) =>
      (match op.typ
       case OpCreate => parse(i.privateKey).Some?
       case OpDelete => i.name in t.interfaces
       case _ => false)
    case PeerRow(p) =>
      (match op.typ
       case OpCreate => Servable(parse, p) && Agreed(parse, t, p.iface, p)
       case OpUpdate =>
         if p.publicKey in t.peers then UpdateCarried(parse, t, p) else StrayUpdateHarmless(parse, t, gw, p)
       case OpDelete =>
         if p.publicKey in t.peers then Alone(parse, t, t.peers[p.publicKey].iface, p)
         else StrayDeleteHarmless(parse, t, gw, p)
       case OpUnknown => false)
    case _ => true
  }

  // An update of a stored peer. If it moves the peer, the peer can only appear
  // on the new device as the double of one that is there, and what is left on
  // the old device must be right for those who remain.
  ghost predicate UpdateCarried(parse: Parser, t: Tables, p: Peer)
    requires p.publicKey in t.peers
  {
    var home := t.peers[p.publicKey].iface;
    && AllowedIPs(p) != [] && Agreed(parse, t, p.iface, p)
    && (p.iface != home ==>
        && !Alone(parse, t, p.iface, p)
        && (if home == "" then !Alone(parse, t, home, p) else Alone(parse, t, home, p)))
  }

  // The index has the peer under another interface.
  predicate Moves(gw: State, p: Peer) {
    Indexed(gw, p.publicKey) != "" && Indexed(gw, p.publicKey) != p.iface
  }

  // An update of a peer that is not stored: the database ignores it, the
  // gateway still pushes it wherever its stale index points.
  ghost predicate StrayUpdateHarmless(parse: Parser, t: Tables, gw: State, p: Peer) {
    && Servable(parse, p) && p.iface in t.interfaces && Agreed(parse, t, p.iface, p)
    && (Moves(gw, p) ==>
        Indexed(gw, p.publicKey) in t.interfaces && Alone(parse, t, Indexed(gw, p.publicKey), p))
  }

  ghost predicate StrayDeleteHarmless(parse: Parser, t: Tables, gw: State, p: Peer) {
    && parse(p.publicKey).Some? && Indexed(gw, p.publicKey) in t.interfaces
    && Alone(parse, t, Indexed(gw, p.publicKey), p)
  }
}
