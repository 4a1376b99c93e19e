// The replicated relational state: three SQL tables with primary keys, and a
// foreign key from peers to interfaces that deletes in cascade.
module Tables {
  import opened Wrappers

  datatype Interface = Interface(
    name: string, port: int, ip: Option<string>, ip6: Option<string>,
    fwmark: int, privateKey: string, publicKey: string)

  datatype Peer = Peer(
    publicKey: string, iface: string, ip: Option<string>, ip6: Option<string>, expire: int)

  datatype Token = Token(id: string, secret: string, roles: seq<string>)

  // A value handed to the CRUD layer; the dispatcher routes it by its type.
  // `UnknownRow` stands for every type that was never registered.
  datatype Row =
    | InterfaceRow(intf: Interface)
    | PeerRow(peer: Peer)
    | TokenRow(token: Token)
    | UnknownRow

  datatype OpType = OpUnknown | OpCreate | OpUpdate | OpDelete

  // A log entry. The timestamp is not kept: the log never stores it.
  datatype Op = Op(seqNum: nat, typ: OpType, row: Row)

  datatype Error =
    | InvalidOpType | UnknownType | KeyConflict | ForeignKey
    | SequenceConflict | CommitFailed | Horizon | Unavailable

  datatype Tables = Tables(
    interfaces: map<string, Interface>, peers: map<string, Peer>, tokens: map<string, Token>)

  const EMPTY := Tables(map[], map[], map[])

  // ---------------------------------------------------------------- statements

  // INSERT
  function Insert(t: Tables, r: Row): Result<Tables, Error> {
    match r
    case InterfaceRow(i) =>
      if i.name in t.interfaces then Err(KeyConflict)
      else Ok(t.(interfaces := t.interfaces[i.name := i]))
    case PeerRow(p) =>
      if p.publicKey in t.peers then Err(KeyConflict)
      else if p.iface !in t.interfaces then Err(ForeignKey)
      else Ok(t.(peers := t.peers[p.publicKey := p]))
    case TokenRow(k) =>
      if k.id in t.tokens then Err(KeyConflict)
      else Ok(t.(tokens := t.tokens[k.id := k]))
    case UnknownRow => Err(UnknownType)
  }

  // UPDATE ... WHERE primary key: no row, no effect and no foreign key check.
  function Update(t: Tables, r: Row): Result<Tables, Error> {
    match r
    case InterfaceRow(i) =>
      if i.name !in t.interfaces then Ok(t)
      else Ok(t.(interfaces := t.interfaces[i.name := i]))
    case PeerRow(p) =>
      if p.publicKey !in t.peers then Ok(t)
      else if p.iface !in t.interfaces then Err(ForeignKey)
      else Ok(t.(peers := t.peers[p.publicKey := p]))
    case TokenRow(k) =>
      if k.id !in t.tokens then Ok(t)
      else Ok(t.(tokens := t.tokens[k.id := k]))
    case UnknownRow => Err(UnknownType)
  }

  // DELETE ... WHERE primary key, with ON DELETE CASCADE for the peers of an interface.
  function Delete(t: Tables, r: Row): Result<Tables, Error> {
    match r
    case InterfaceRow(i) =>
      if i.name !in t.interfaces then Ok(t)
      else
        Ok(t.(interfaces := t.interfaces - {i.name},
              peers := map k | k in t.peers && t.peers[k].iface != i.name :: t.peers[k]))
    case PeerRow(p) => Ok(t.(peers := t.peers - {p.publicKey}))
    case TokenRow(k) => Ok(t.(tokens := t.tokens - {k.id}))
    case UnknownRow => Err(UnknownType)
  }

  function ApplyOp(t: Tables, op: Op): Result<Tables, Error> {
    match op.typ
    case OpCreate => Insert(t, op.row)
    case OpUpdate => Update(t, op.row)
    case OpDelete => Delete(t, op.row)
    case OpUnknown => Err(InvalidOpType)
  }

  // ---------------------------------------------------------------- integrity

  // Rows sit under their primary key and every peer's interface exists.
  ghost predicate Integrity(t: Tables) {
    && (forall k :: k in t.interfaces ==> t.interfaces[k].name == k)
    && (forall k :: k in t.peers ==> t.peers[k].publicKey == k && t.peers[k].iface in t.interfaces)
    && (forall k :: k in t.tokens ==> t.tokens[k].id == k)
  }

  ghost predicate HasRow(t: Tables, r: Row) {
    match r
    case InterfaceRow(i) => i.name in t.interfaces && t.interfaces[i.name] == i
    case PeerRow(p) => p.publicKey in t.peers && t.peers[p.publicKey] == p
    case TokenRow(k) => k.id in t.tokens && t.tokens[k.id] == k
    case UnknownRow => false
  }

  // Two rows of the same table under the same primary key.
  ghost predicate SameKey(a: Row, b: Row) {
    match a
    case InterfaceRow(i) => b.InterfaceRow? && b.intf.name == i.name
    case PeerRow(p) => b.PeerRow? && b.peer.publicKey == p.publicKey
    case TokenRow(k) => b.TokenRow? && b.token.id == k.id
    case UnknownRow => false
  }

  // The row b disappears when the row a is deleted.
  ghost predicate Removes(a: Row, b: Row) {
    SameKey(a, b) || (a.InterfaceRow? && b.PeerRow? && b.peer.iface == a.intf.name)
  }

  ghost predicate KeyTaken(t: Tables, r: Row) {
    match r
    case InterfaceRow(i) => i.name in t.interfaces
    case PeerRow(p) => p.publicKey in t.peers
    case TokenRow(k) => k.id in t.tokens
    case UnknownRow => false
  }

  // Every statement that succeeds keeps primary keys and foreign keys intact.
  lemma {:induction false} StatementsKeepIntegrity(t: Tables, op: Op)
    requires Integrity(t)
    requires ApplyOp(t, op).Ok?
    ensures Integrity(ApplyOp(t, op).value)
  {
    hide Integrity, Insert, Update, Delete;
    if op.typ.OpDelete? {
      DeleteKeepsIntegrity(t, op.row);
    } else {
      WriteKeepsIntegrity(t, op);
    }
  }

  lemma {:induction false} WriteKeepsIntegrity(t: Tables, op: Op)
    requires Integrity(t)
    requires !op.typ.OpDelete? && ApplyOp(t, op).Ok?
    ensures Integrity(ApplyOp(t, op).value)
  {
    hide Delete;
  }

  lemma {:induction false} DeleteKeepsIntegrity(t: Tables, r: Row)
    requires Integrity(t)
    requires Delete(t, r).Ok?
    ensures Integrity(Delete(t, r).value)
  {
  }

  // Whether a row exists after an operation, told row by row rather than by
  // table: a create adds exactly its row, an update replaces the row of the same
  // key if there is one, a delete removes its key and everything that cascades.
  ghost predicate RowAfter(t: Tables, op: Op, r: Row) {
    match op.typ
    case OpCreate => r == op.row || HasRow(t, r)
    case OpUpdate => if SameKey(op.row, r) && KeyTaken(t, op.row) then r == op.row else HasRow(t, r)
    case OpDelete => HasRow(t, r) && !Removes(op.row, r)
    case OpUnknown => false
  }

  lemma {:induction false} RowsAfter(t: Tables, op: Op, r: Row)
    requires Integrity(t)
    requires ApplyOp(t, op).Ok?
    ensures HasRow(ApplyOp(t, op).value, r) <==> RowAfter(t, op, r)
  {
    hide Integrity, Insert, Update, Delete;
    match op.typ
    case OpCreate => RowsAfterInsert(t, op.row, r);
    case OpUpdate => RowsAfterUpdate(t, op.row, r);
    case OpDelete => RowsAfterDelete(t, op.row, r);
  }

  lemma {:induction false} RowsAfterInsert(t: Tables, row: Row, r: Row)
    requires Insert(t, row).Ok?
    ensures HasRow(Insert(t, row).value, r) <==> r == row || HasRow(t, r)
  {
  }

  lemma {:induction false} RowsAfterUpdate(t: Tables, row: Row, r: Row)
    requires Integrity(t) && Update(t, row).Ok?
    ensures HasRow(Update(t, row).value, r) <==> if SameKey(row, r) && KeyTaken(t, row) then r == row else HasRow(t, r)
  {
  }

  lemma {:induction false} RowsAfterDelete(t: Tables, row: Row, r: Row)
    requires Integrity(t) && Delete(t, row).Ok?
    ensures HasRow(Delete(t, row).value, r) <==> HasRow(t, r) && !Removes(row, r)
  {
    if row.InterfaceRow? && r.PeerRow? && HasRow(t, r) {
      assert t.peers[r.peer.publicKey].iface in t.interfaces;
    }
  }

  // A peer is written under an interface that does not exist.
  ghost predicate Dangles(t: Tables, op: Op) {
    && op.row.PeerRow? && op.row.peer.iface !in t.interfaces
    && (op.typ.OpCreate? || (op.typ.OpUpdate? && KeyTaken(t, op.row)))
  }

  // An operation has no kind, or a value of no known type, or would break a key:
  // a create of a taken key, or a peer under a missing interface.
  ghost predicate Refused(t: Tables, op: Op) {
    op.typ.OpUnknown? || op.row.UnknownRow? || (op.typ.OpCreate? && KeyTaken(t, op.row)) || Dangles(t, op)
  }

  // These and no others are refused, each with its own error.
  lemma {:induction false} RefusedExactly(t: Tables, op: Op)
    ensures ApplyOp(t, op).Err? <==> Refused(t, op)
    ensures ApplyOp(t, op) == Err(InvalidOpType) <==> op.typ.OpUnknown?
    ensures ApplyOp(t, op) == Err(UnknownType) <==> !op.typ.OpUnknown? && op.row.UnknownRow?
    ensures ApplyOp(t, op) == Err(KeyConflict) <==> op.typ.OpCreate? && KeyTaken(t, op.row)
    ensures ApplyOp(t, op) == Err(ForeignKey) <==> Dangles(t, op) && !(op.typ.OpCreate? && KeyTaken(t, op.row))
  {
  }

  // Tables with the same rows are equal.
  lemma {:induction false} SameRowsSameTables(a: Tables, b: Tables)
    requires Integrity(a) && Integrity(b)
    requires forall r :: HasRow(a, r) <==> HasRow(b, r)
    ensures a == b
  {
    forall k | k in a.interfaces || k in b.interfaces
      ensures k in a.interfaces && k in b.interfaces && a.interfaces[k] == b.interfaces[k]
    {
      if k in a.interfaces { assert HasRow(a, InterfaceRow(a.interfaces[k])); }
      if k in b.interfaces { assert HasRow(b, InterfaceRow(b.interfaces[k])); }
    }
    forall k | k in a.peers || k in b.peers
      ensures k in a.peers && k in b.peers && a.peers[k] == b.peers[k]
    {
      if k in a.peers { assert HasRow(a, PeerRow(a.peers[k])); }
      if k in b.peers { assert HasRow(b, PeerRow(b.peers[k])); }
    }
    forall k | k in a.tokens || k in b.tokens
      ensures k in a.tokens && k in b.tokens && a.tokens[k] == b.tokens[k]
    {
      if k in a.tokens { assert HasRow(a, TokenRow(a.tokens[k])); }
      if k in b.tokens { assert HasRow(b, TokenRow(b.tokens[k])); }
    }
    assert a.interfaces == b.interfaces;
    assert a.peers == b.peers;
    assert a.tokens == b.tokens;
  }

  // ---------------------------------------------------------------- replay

  function Effect(t: Tables, op: Op): Tables {
    match ApplyOp(t, op)
    case Ok(t') => t'
    case Err(_) => t
  }

  // The tables after the first k operations of a history.
  function StateAt(base: Tables, hist: seq<Op>, k: nat): Tables
    requires k <= |hist|
  {
    if k == 0 then base else Effect(StateAt(base, hist, k - 1), hist[k - 1])
  }

  // Every operation of the history succeeds where it stands.
  ghost predicate Replays(base: Tables, hist: seq<Op>) {
    forall i :: 0 <= i < |hist| ==> Accepted(base, hist, i)
  }

  // The i-th operation of the history succeeds after the ones before it.
  predicate Accepted(base: Tables, hist: seq<Op>, i: nat)
    requires i < |hist|
  {
    ApplyOp(StateAt(base, hist, i), hist[i]).Ok?
  }

  lemma {:induction false} StateAtPrefix(base: Tables, hist: seq<Op>, tail: seq<Op>, k: nat)
    requires k <= |hist|
    ensures StateAt(base, hist + tail, k) == StateAt(base, hist, k)
  {
    if k != 0 {
      StateAtPrefix(base, hist, tail, k - 1);
    }
  }

  // A history grows by an operation that succeeds at its end.
  lemma {:induction false} ReplayExtends(base: Tables, hist: seq<Op>, op: Op)
    requires Replays(base, hist)
    requires ApplyOp(StateAt(base, hist, |hist|), op).Ok?
    ensures Replays(base, hist + [op])
    ensures forall k :: 0 <= k <= |hist| ==> StateAt(base, hist + [op], k) == StateAt(base, hist, k)
    ensures StateAt(base, hist + [op], |hist| + 1) == ApplyOp(StateAt(base, hist, |hist|), op).value
  {
    forall k | 0 <= k <= |hist| ensures StateAt(base, hist + [op], k) == StateAt(base, hist, k) {
      StateAtPrefix(base, hist, [op], k);
    }
    var hist' := hist + [op];
    forall i | 0 <= i < |hist'| ensures Accepted(base, hist', i) {
      assert StateAt(base, hist', i) == StateAt(base, hist, i);
      assert i < |hist| ==> hist'[i] == hist[i] && Accepted(base, hist, i);
    }
  }

  // A prefix of a history replays through the same states.
  lemma {:induction false} ReplayPrefix(base: Tables, hist: seq<Op>, k: nat)
    requires Replays(base, hist) && k <= |hist|
    ensures Replays(base, hist[..k])
    ensures forall i :: 0 <= i <= k ==> StateAt(base, hist[..k], i) == StateAt(base, hist, i)
  {
    hide ApplyOp;
    assert hist[..k] + hist[k..] == hist;
    forall i | 0 <= i <= k ensures StateAt(base, hist[..k], i) == StateAt(base, hist, i) {
      StateAtPrefix(base, hist[..k], hist[k..], i);
    }
    forall i | 0 <= i < k ensures Accepted(base, hist[..k], i) {
      assert Accepted(base, hist, i);
    }
  }

  // Every state a history passes through has its keys intact.
  lemma {:induction false} ReplayKeepsIntegrity(base: Tables, hist: seq<Op>, k: nat)
    requires Integrity(base)
    requires k <= |hist|
    ensures Integrity(StateAt(base, hist, k))
  {
    if k != 0 {
      ReplayKeepsIntegrity(base, hist, k - 1);
      var t := StateAt(base, hist, k - 1);
      if ApplyOp(t, hist[k - 1]).Ok? {
        StatementsKeepIntegrity(t, hist[k - 1]);
      }
    }
  }
}
