// What survives the log table and the network: values routed by type name,
// operations, and errors sent as codes.
module Wire {
  import opened Wrappers
  import opened Tables

  datatype WireError = NotRegistered | BadField

  // ---------------------------------------------------------------- values as JSON

  datatype GoType = InterfaceT | PeerT | TokenT | ForeignT(id: string)

  // A value of one of the model's types, or of any other type.
  datatype Value =
    | InterfaceValue(intf: Interface)
    | PeerValue(peer: Peer)
    | TokenValue(token: Token)
    | ForeignValue(id: string, fields: Object)

  datatype Field =
    | Name | Port | Ip | Ip6 | Fwmark | PrivateKey | PublicKey | InterfaceName | Expire | Id | Secret | Roles
    | OtherField(name: string)

  datatype Json = Text(text: string) | Number(number: int) | Texts(texts: seq<string>) | Null

  type Object = map<Field, Json>

  function TypeOf(v: Value): GoType {
    match v
    case InterfaceValue(_) => InterfaceT
    case PeerValue(_) => PeerT
    case TokenValue(_) => TokenT
    case ForeignValue(id, _) => ForeignT(id)
  }

  function Address(a: Option<string>): Json {
    if a.Some? then Text(a.value) else Null
  }

  function ToJson(v: Value): Object {
    match v
    case InterfaceValue(i) =>
      map[Name := Text(i.name), Port := Number(i.port), Ip := Address(i.ip), Ip6 := Address(i.ip6),
          Fwmark := Number(i.fwmark), PrivateKey := Text(i.privateKey), PublicKey := Text(i.publicKey)]
    case PeerValue(p) =>
      map[PublicKey := Text(p.publicKey), InterfaceName := Text(p.iface), Ip := Address(p.ip), Ip6 := Address(p.ip6),
          Expire := Number(p.expire)]
    case TokenValue(k) => map[Id := Text(k.id), Secret := Text(k.secret), Roles := Texts(k.roles)]
    case ForeignValue(_, fields) => fields
  }

  // A field of the object; null or no field at all leaves the zero value.
  function FieldOf(o: Object, f: Field): Json {
    if f in o then o[f] else Null
  }

  function TextOf(j: Json): Option<string> {
    match j
    case Text(s) => Some(s)
    case Null => Some("")
    case _ => None
  }

  function NumberOf(j: Json): Option<int> {
    match j
    case Number(n) => Some(n)
    case Null => Some(0)
    case _ => None
  }

  function TextsOf(j: Json): Option<seq<string>> {
    match j
    case Texts(ss) => Some(ss)
    case Null => Some([])
    case _ => None
  }

  function AddressOf(j: Json): Option<Option<string>> {
    match j
    case Text(s) => Some(Some(s))
    case Null => Some(None)
    case _ => None
  }

  function InterfaceFrom(o: Object): Option<Value> {
    var name := TextOf(FieldOf(o, Name));
    var privateKey, publicKey := TextOf(FieldOf(o, PrivateKey)), TextOf(FieldOf(o, PublicKey));
    var port, fwmark := NumberOf(FieldOf(o, Port)), NumberOf(FieldOf(o, Fwmark));
    var ip, ip6 := AddressOf(FieldOf(o, Ip)), AddressOf(FieldOf(o, Ip6));
    if name.Some? && port.Some? && ip.Some? && ip6.Some? && fwmark.Some? && privateKey.Some? && publicKey.Some? then
      Some(InterfaceValue(
        Interface(name.value, port.value, ip.value, ip6.value, fwmark.value, privateKey.value, publicKey.value)))
    else None
  }

  function PeerFrom(o: Object): Option<Value> {
    var publicKey, iface := TextOf(FieldOf(o, PublicKey)), TextOf(FieldOf(o, InterfaceName));
    var ip, ip6, expire := AddressOf(FieldOf(o, Ip)), AddressOf(FieldOf(o, Ip6)), NumberOf(FieldOf(o, Expire));
    if publicKey.Some? && iface.Some? && ip.Some? && ip6.Some? && expire.Some? then
      Some(PeerValue(Peer(publicKey.value, iface.value, ip.value, ip6.value, expire.value)))
    else None
  }

  function TokenFrom(o: Object): Option<Value> {
    var id, secret, roles := TextOf(FieldOf(o, Id)), TextOf(FieldOf(o, Secret)), TextsOf(FieldOf(o, Roles));
    if id.Some? && secret.Some? && roles.Some? then Some(TokenValue(Token(id.value, secret.value, roles.value)))
    else None
  }

  // Decoding fills the fields the type has, whichever type the object came from.
  function FromJson(goType: GoType, o: Object): (r: Option<Value>)
    ensures r.Some? ==> TypeOf(r.value) == goType
  {
    match goType
    case InterfaceT => InterfaceFrom(o)
    case PeerT => PeerFrom(o)
    case TokenT => TokenFrom(o)
    case ForeignT(id) => Some(ForeignValue(id, o))
  }

  lemma {:induction false} JsonRoundTrip(v: Value)
    ensures FromJson(TypeOf(v), ToJson(v)) == Some(v)
  {
  }

  // The zero value of a type, which names its fields and their kinds.
  function ZeroOf(goType: GoType): Value {
    match goType
    case InterfaceT => InterfaceValue(Interface("", 0, None, None, 0, "", ""))
    case PeerT => PeerValue(Peer("", "", None, None, 0))
    case TokenT => TokenValue(Token("", "", []))
    case ForeignT(id) => ForeignValue(id, map[])
  }

  // A JSON value that a field with this zero value can take; an address, whose
  // zero value is null, takes a text.
  predicate Fits(zero: Json, j: Json) {
    match zero
    case Text(_) => j.Text? || j.Null?
    case Number(_) => j.Number? || j.Null?
    case Texts(_) => j.Texts? || j.Null?
    case Null => j.Text? || j.Null?
  }

  // What the object says of a field, or its zero value.
  function Given(o: Object, f: Field, zero: Json): Json {
    if f in o && !o[f].Null? then o[f] else zero
  }

  // An object decodes if and only if every field it has of the type fits, and
  // then to the value with exactly these fields, and zero values elsewhere.
  lemma {:induction false} DecodesIff(goType: GoType, o: Object)
    requires !goType.ForeignT?
    ensures
      var zero := ToJson(ZeroOf(goType));
      && (FromJson(goType, o).Some? <==> forall f :: f in zero && f in o ==> Fits(zero[f], o[f]))
      && (FromJson(goType, o).Some? ==>
          var decoded := ToJson(FromJson(goType, o).value);
          && decoded.Keys == zero.Keys
          && forall f :: f in zero ==> decoded[f] == Given(o, f, zero[f]))
  {
    match goType
    case InterfaceT => InterfaceDecodesIff(o);
    case PeerT => PeerDecodesIff(o);
    case TokenT => TokenDecodesIff(o);
  }

  lemma {:induction false} InterfaceDecodesIff(o: Object)
    ensures
      var zero := ToJson(ZeroOf(InterfaceT));
      && (FromJson(InterfaceT, o).Some? <==> forall f :: f in zero && f in o ==> Fits(zero[f], o[f]))
      && (FromJson(InterfaceT, o).Some? ==>
          var decoded := ToJson(FromJson(InterfaceT, o).value);
          && decoded.Keys == zero.Keys
          && forall f :: f in zero ==> decoded[f] == Given(o, f, zero[f]))
  {
    hide FromJson, Fits;
    InterfaceFieldsFit(o);
    if FromJson(InterfaceT, o).Some? {
      InterfaceFields(o);
    }
  }

  lemma {:induction false} InterfaceFieldsFit(o: Object)
    ensures
      var zero := ToJson(ZeroOf(InterfaceT));
      FromJson(InterfaceT, o).Some? <==> forall f :: f in zero && f in o ==> Fits(zero[f], o[f])
  {
    var zero := ToJson(ZeroOf(InterfaceT));
    assert zero.Keys == {Name, Port, Ip, Ip6, Fwmark, PrivateKey, PublicKey};
    assert forall f :: f in zero ==> ((f in o ==> Fits(zero[f], o[f])) <==> Fits(zero[f], FieldOf(o, f)));
    assert (forall f :: f in zero ==> Fits(zero[f], FieldOf(o, f))) <==>
      && Fits(zero[Name], FieldOf(o, Name)) && Fits(zero[Port], FieldOf(o, Port)) && Fits(zero[Ip], FieldOf(o, Ip))
      && Fits(zero[Ip6], FieldOf(o, Ip6)) && Fits(zero[Fwmark], FieldOf(o, Fwmark))
      && Fits(zero[PrivateKey], FieldOf(o, PrivateKey)) && Fits(zero[PublicKey], FieldOf(o, PublicKey));
  }

  lemma {:induction false} InterfaceFields(o: Object)
    requires FromJson(InterfaceT, o).Some?
    ensures
      var zero, decoded := ToJson(ZeroOf(InterfaceT)), ToJson(FromJson(InterfaceT, o).value);
      && decoded.Keys == zero.Keys
      && forall f :: f in zero ==> decoded[f] == Given(o, f, zero[f])
  {
    hide Given, FromJson, ToJson;
    InterfaceGiven(o);
    InterfaceJson(FromJson(InterfaceT, o).value.intf);
    InterfaceJson(ZeroOf(InterfaceT).intf);
  }

  lemma {:induction false} InterfaceJson(i: Interface)
    ensures
      var j := ToJson(InterfaceValue(i));
      && j.Keys == {Name, Port, Ip, Ip6, Fwmark, PrivateKey, PublicKey}
      && j[Name] == Text(i.name) && j[PrivateKey] == Text(i.privateKey) && j[PublicKey] == Text(i.publicKey)
      && j[Port] == Number(i.port) && j[Fwmark] == Number(i.fwmark)
      && j[Ip] == Address(i.ip) && j[Ip6] == Address(i.ip6)
  {
  }

  lemma {:induction false} InterfaceGiven(o: Object)
    requires FromJson(InterfaceT, o).Some?
    ensures
      var i := FromJson(InterfaceT, o).value.intf;
      && Text(i.name) == Given(o, Name, Text("")) && Text(i.privateKey) == Given(o, PrivateKey, Text(""))
      && Text(i.publicKey) == Given(o, PublicKey, Text(""))
      && Number(i.port) == Given(o, Port, Number(0)) && Number(i.fwmark) == Given(o, Fwmark, Number(0))
      && Address(i.ip) == Given(o, Ip, Null) && Address(i.ip6) == Given(o, Ip6, Null)
  {
  }

  lemma {:induction false} PeerDecodesIff(o: Object)
    ensures
      var zero := ToJson(ZeroOf(PeerT));
      && (FromJson(PeerT, o).Some? <==> forall f :: f in zero && f in o ==> Fits(zero[f], o[f]))
      && (FromJson(PeerT, o).Some? ==>
          var decoded := ToJson(FromJson(PeerT, o).value);
          && decoded.Keys == zero.Keys
          && forall f :: f in zero ==> decoded[f] == Given(o, f, zero[f]))
  {
    var zero := ToJson(ZeroOf(PeerT));
    assert zero.Keys == {PublicKey, InterfaceName, Ip, Ip6, Expire};
  }

  lemma {:induction false} TokenDecodesIff(o: Object)
    ensures
      var zero := ToJson(ZeroOf(TokenT));
      && (FromJson(TokenT, o).Some? <==> forall f :: f in zero && f in o ==> Fits(zero[f], o[f]))
      && (FromJson(TokenT, o).Some? ==>
          var decoded := ToJson(FromJson(TokenT, o).value);
          && decoded.Keys == zero.Keys
          && forall f :: f in zero ==> decoded[f] == Given(o, f, zero[f]))
  {
    var zero := ToJson(ZeroOf(TokenT));
    assert zero.Keys == {Id, Secret, Roles};
  }

  // ---------------------------------------------------------------- the type registry

  // A registered type: its name on the wire, and the Go type of its instances.
  datatype TypeMeta = TypeMeta(name: string, goType: GoType)

  // The registry after a list of Register calls: later calls win.
  function ByType(regs: seq<TypeMeta>): map<GoType, TypeMeta> {
    if regs == [] then map[] else ByType(regs[..|regs| - 1])[regs[|regs| - 1].goType := regs[|regs| - 1]]
  }

  function ByName(regs: seq<TypeMeta>): map<string, TypeMeta> {
    if regs == [] then map[] else ByName(regs[..|regs| - 1])[regs[|regs| - 1].name := regs[|regs| - 1]]
  }

  // The container: the type name and the encoded fields.
  datatype Container = Container(name: string, data: Object)

  function MarshalValue(regs: seq<TypeMeta>, v: Value): Result<Container, WireError> {
    if TypeOf(v) !in ByType(regs) then Err(NotRegistered)
    else Ok(Container(ByType(regs)[TypeOf(v)].name, ToJson(v)))
  }

  function UnmarshalValue(regs: seq<TypeMeta>, c: Container): Result<Value, WireError> {
    if c.name !in ByName(regs) then Err(NotRegistered)
    else
      match FromJson(ByName(regs)[c.name].goType, c.data)
      case Some(v) => Ok(v)
      case None => Err(BadField)
  }

  // The position of the last registration of a Go type.
  ghost predicate LastOfType(regs: seq<TypeMeta>, goType: GoType, i: int) {
    0 <= i < |regs| && regs[i].goType == goType && forall j :: i < j < |regs| ==> regs[j].goType != goType
  }

  ghost predicate LastOfName(regs: seq<TypeMeta>, name: string, i: int) {
    0 <= i < |regs| && regs[i].name == name && forall j :: i < j < |regs| ==> regs[j].name != name
  }

  lemma {:induction false} ByTypeIs(regs: seq<TypeMeta>, goType: GoType) returns (i: nat)
    ensures goType in ByType(regs) <==> exists j :: 0 <= j < |regs| && regs[j].goType == goType
    ensures goType in ByType(regs) ==> LastOfType(regs, goType, i) && ByType(regs)[goType] == regs[i]
  {
    i := 0;
    if regs != [] {
      var n := |regs| - 1;
      i := ByTypeIs(regs[..n], goType);
      if regs[n].goType == goType {
        i := n;
      } else if goType in ByType(regs) {
        assert regs[..n][i] == regs[i];
      }
    }
  }

  lemma {:induction false} ByNameIs(regs: seq<TypeMeta>, name: string) returns (i: nat)
    ensures name in ByName(regs) <==> exists j :: 0 <= j < |regs| && regs[j].name == name
    ensures name in ByName(regs) ==> LastOfName(regs, name, i) && ByName(regs)[name] == regs[i]
  {
    i := 0;
    if regs != [] {
      var n := |regs| - 1;
      i := ByNameIs(regs[..n], name);
      if regs[n].name == name {
        i := n;
      } else if name in ByName(regs) {
        assert regs[..n][i] == regs[i];
      }
    }
  }

  // Which error a value meets on its way out and back.
  lemma {:induction false} WireErrors(regs: seq<TypeMeta>, v: Value, c: Container)
    ensures MarshalValue(regs, v).Err? <==> forall j :: 0 <= j < |regs| ==> regs[j].goType != TypeOf(v)
    ensures MarshalValue(regs, v).Err? ==> MarshalValue(regs, v).error == NotRegistered
    ensures UnmarshalValue(regs, c) == Err(NotRegistered) <==> forall j :: 0 <= j < |regs| ==> regs[j].name != c.name
    ensures UnmarshalValue(regs, c) == Err(BadField) <==>
      exists k :: LastOfName(regs, c.name, k) && FromJson(regs[k].goType, c.data).None?
  {
    hide FromJson, ToJson;
    var i := ByTypeIs(regs, TypeOf(v));
    var k := ByNameIs(regs, c.name);
    forall k' | c.name in ByName(regs) && LastOfName(regs, c.name, k') ensures k' == k {
    }
  }

  // A name is not registered again, for another type, after the value's own type.
  ghost predicate NameKept(regs: seq<TypeMeta>, goType: GoType) {
    forall i, k :: LastOfType(regs, goType, i) && LastOfName(regs, regs[i].name, k) ==> regs[k].goType == goType
  }

  // The type is registered, and no later registration took over its name.
  ghost predicate Survives(regs: seq<TypeMeta>, goType: GoType) {
    goType in ByType(regs) && NameKept(regs, goType)
  }

  // The type under whose name a value travels comes back if and only if the name was kept.
  lemma {:induction false} NameKeptIff(regs: seq<TypeMeta>, goType: GoType)
    requires goType in ByType(regs)
    ensures ByType(regs)[goType].name in ByName(regs)
    ensures NameKept(regs, goType) <==> ByName(regs)[ByType(regs)[goType].name].goType == goType
  {
    var i := ByTypeIs(regs, goType);
    var k := ByNameIs(regs, regs[i].name);
    assert regs[i].name in ByName(regs);
    forall i', k' | LastOfType(regs, goType, i') && LastOfName(regs, regs[i'].name, k') ensures i' == i && k' == k {
    }
  }

  // A value comes back as it was if and only if its type is registered and no
  // later registration took over its name.
  lemma {:induction false} ValueRoundTripIff(regs: seq<TypeMeta>, v: Value)
    ensures (MarshalValue(regs, v).Ok? && UnmarshalValue(regs, MarshalValue(regs, v).value) == Ok(v)) <==>
      Survives(regs, TypeOf(v))
  {
    hide NameKept, ByType, ByName, ToJson, FromJson;
    if TypeOf(v) in ByType(regs) {
      NameKeptIff(regs, TypeOf(v));
      JsonRoundTrip(v);
    }
  }

  // Distinct names: every registered type survives.
  lemma {:induction false} DistinctNamesSurvive(regs: seq<TypeMeta>, goType: GoType)
    requires forall i, j :: 0 <= i < j < |regs| ==> regs[i].name != regs[j].name
    requires goType in ByType(regs)
    ensures Survives(regs, goType)
  {
  }

  class Registry {
    var byType: map<GoType, TypeMeta>
    var byName: map<string, TypeMeta>
    ghost var regs: seq<TypeMeta>

    ghost predicate Valid()
      reads this
    {
      byType == ByType(regs) && byName == ByName(regs)
    }

    constructor ()
      ensures Valid() && regs == []
    {
      byType, byName, regs := map[], map[], [];
    }

    method Register(m: TypeMeta)
      requires Valid()
      modifies this
      ensures Valid() && regs == old(regs) + [m]
    {
      byType := byType[m.goType := m];
      byName := byName[m.name := m];
      regs := regs + [m];
      assert regs[..|regs| - 1] == old(regs);
    }
  }

  // Clearing the tables as it is written: for every registered type it calls
  // itself. `depth` bounds the calls that may be open; None means that more
  // are needed.
  function DeleteAll(types: seq<string>, left: nat, depth: nat): Option<()>
    requires left <= |types|
    decreases depth, left
  {
    if depth == 0 then None
    else if left == 0 then Some(())
    else
      match DeleteAll(types, |types|, depth - 1)
      case None => None
      case Some(_) => DeleteAll(types, left - 1, depth)
  }

  // It returns if and only if no type is registered.
  lemma {:induction false} DeleteAllReturnsIff(types: seq<string>)
    ensures (exists depth: nat :: DeleteAll(types, |types|, depth).Some?) <==> types == []
  {
    if types == [] {
      assert DeleteAll(types, |types|, 1).Some?;
    } else {
      forall depth: nat ensures DeleteAll(types, |types|, depth).None? {
        DeleteAllNever(types, depth);
      }
    }
  }

  lemma {:induction false} DeleteAllNever(types: seq<string>, depth: nat)
    requires types != []
    ensures DeleteAll(types, |types|, depth).None?
  {
    if depth != 0 {
      DeleteAllNever(types, depth - 1);
    }
  }

  // ---------------------------------------------------------------- operations

  datatype LogOp = LogOp(seqNum: nat, typ: OpType, timestamp: int, value: Value)

  datatype Serialized = Serialized(seqNum: nat, typ: OpType, value: Container, timestamp: int)

  // Serializing leaves the timestamp at its zero value.
  function Serialize(regs: seq<TypeMeta>, op: LogOp): Result<Serialized, WireError> {
    match MarshalValue(regs, op.value)
    case Err(e) => Err(e)
    case Ok(c) => Ok(Serialized(op.seqNum, op.typ, c, 0))
  }

  function Decode(regs: seq<TypeMeta>, s: Serialized): Result<LogOp, WireError> {
    match UnmarshalValue(regs, s.value)
    case Err(e) => Err(e)
    case Ok(v) => Ok(LogOp(s.seqNum, s.typ, s.timestamp, v))
  }

  // What the tables see of a value: they have no table for other types.
  function RowOf(v: Value): Row {
    match v
    case InterfaceValue(i) => InterfaceRow(i)
    case PeerValue(p) => PeerRow(p)
    case TokenValue(k) => TokenRow(k)
    case ForeignValue(_, _) => UnknownRow
  }

  function Plain(op: LogOp): Op {
    Op(op.seqNum, op.typ, RowOf(op.value))
  }

  // Sequence, type and value come back, the timestamp does not.
  lemma {:induction false} OpRoundTripIff(regs: seq<TypeMeta>, op: LogOp)
    ensures (Serialize(regs, op).Ok? && Decode(regs, Serialize(regs, op).value) == Ok(op.(timestamp := 0))) <==>
      Survives(regs, TypeOf(op.value))
  {
    hide Survives, MarshalValue, UnmarshalValue;
    ValueRoundTripIff(regs, op.value);
  }

  // The operation read back has the same effect on all tables.
  ghost predicate ActsAlike(a: Op, b: Op) {
    forall t :: ApplyOp(t, a) == ApplyOp(t, b)
  }

  // Operations of one kind on values of different types do not act alike.
  lemma {:induction false} TypesDiffer(a: LogOp, b: LogOp)
    requires a.typ == b.typ && !a.typ.OpUnknown? && !a.value.ForeignValue? && TypeOf(a.value) != TypeOf(b.value)
    ensures !ActsAlike(Plain(a), Plain(b))
  {
    hide Insert, Update, Delete, Distinguishing;
    var t := Distinguishing(a);
    match a.typ {
      case OpCreate => CreatesDiffer(a, b, t);
      case OpUpdate => UpdatesDiffer(a, b, t);
      case OpDelete => DeletesDiffer(a, b, t);
    }
    assert ApplyOp(t, Plain(a)) != ApplyOp(t, Plain(b));
  }

  // Tables on which an operation has an effect that no other type can have.
  function Distinguishing(op: LogOp): Tables
    requires !op.value.ForeignValue?
  {
    var creates := op.typ.OpCreate?;
    match op.value
    case InterfaceValue(i) => if creates then EMPTY else Tables(map[i.name := i.(port := i.port + 1)], map[], map[])
    case PeerValue(p) =>
      Tables(map[p.iface := Interface(p.iface, 0, None, None, 0, "", "")],
             if creates then map[] else map[p.publicKey := p.(expire := p.expire + 1)], map[])
    case TokenValue(k) =>
      if creates then EMPTY else Tables(map[], map[], map[k.id := k.(roles := k.roles + [""])])
  }

  lemma {:induction false} CreatesDiffer(a: LogOp, b: LogOp, t: Tables)
    requires a.typ.OpCreate? && !a.value.ForeignValue? && TypeOf(a.value) != TypeOf(b.value) && t == Distinguishing(a)
    ensures Insert(t, RowOf(a.value)) != Insert(t, RowOf(b.value))
  {
    var r, r' := Insert(t, RowOf(a.value)), Insert(t, RowOf(b.value));
    if r'.Ok? {
      match a.value
      case InterfaceValue(i) => assert i.name in r.value.interfaces && i.name !in r'.value.interfaces;
      case PeerValue(p) => assert p.publicKey in r.value.peers && p.publicKey !in r'.value.peers;
      case TokenValue(k) => assert k.id in r.value.tokens && k.id !in r'.value.tokens;
    }
  }

  lemma {:induction false} UpdatesDiffer(a: LogOp, b: LogOp, t: Tables)
    requires a.typ.OpUpdate? && !a.value.ForeignValue? && TypeOf(a.value) != TypeOf(b.value) && t == Distinguishing(a)
    ensures Update(t, RowOf(a.value)) != Update(t, RowOf(b.value))
  {
    var r, r' := Update(t, RowOf(a.value)), Update(t, RowOf(b.value));
    if r'.Ok? {
      match a.value
      case InterfaceValue(i) => assert r.value.interfaces[i.name] == i && r'.value.interfaces[i.name] != i;
      case PeerValue(p) => assert r.value.peers[p.publicKey] == p && r'.value.peers[p.publicKey] != p;
      case TokenValue(k) => assert r.value.tokens[k.id] == k && |r'.value.tokens[k.id].roles| != |k.roles|;
    }
  }

  lemma {:induction false} DeletesDiffer(a: LogOp, b: LogOp, t: Tables)
    requires a.typ.OpDelete? && !a.value.ForeignValue? && TypeOf(a.value) != TypeOf(b.value) && t == Distinguishing(a)
    ensures Delete(t, RowOf(a.value)) != Delete(t, RowOf(b.value))
  {
    var r, r' := Delete(t, RowOf(a.value)), Delete(t, RowOf(b.value));
    if r'.Ok? {
      match a.value
      case InterfaceValue(i) => assert i.name !in r.value.interfaces && i.name in r'.value.interfaces;
      case PeerValue(p) =>
        assert p.publicKey !in r.value.peers && p.iface in r.value.interfaces;
        assert p.iface in r'.value.interfaces ==> p.publicKey in r'.value.peers;
      case TokenValue(k) => assert k.id !in r.value.tokens && k.id in r'.value.tokens;
    }
  }

  // Storing or sending an operation keeps what it does.
  ghost predicate Kept(regs: seq<TypeMeta>, op: LogOp) {
    && Serialize(regs, op).Ok? && Decode(regs, Serialize(regs, op).value).Ok?
    && ActsAlike(Plain(Decode(regs, Serialize(regs, op).value).value), Plain(op))
  }

  lemma {:induction false} KeptIff(regs: seq<TypeMeta>, op: LogOp)
    requires !op.typ.OpUnknown? && !op.value.ForeignValue?
    ensures Kept(regs, op) <==> Survives(regs, TypeOf(op.value))
    ensures Kept(regs, op) ==> Decode(regs, Serialize(regs, op).value) == Ok(op.(timestamp := 0))
  {
    hide NameKept, ByType, ByName, ToJson, FromJson, ActsAlike;
    OpRoundTripIff(regs, op);
    if Survives(regs, TypeOf(op.value)) {
      AlikeItself(Plain(op));
    } else if TypeOf(op.value) in ByType(regs) {
      NameKeptIff(regs, TypeOf(op.value));
      var back := Decode(regs, Serialize(regs, op).value);
      if back.Ok? {
        TypesDiffer(op, back.value);
        AlikeBothWays(Plain(op), Plain(back.value));
      }
    }
  }

  lemma {:induction false} AlikeItself(a: Op)
    ensures ActsAlike(a, a)
  {
  }

  lemma {:induction false} AlikeBothWays(a: Op, b: Op)
    ensures ActsAlike(a, b) <==> ActsAlike(b, a)
  {
    forall t | ActsAlike(a, b) || ActsAlike(b, a) ensures ApplyOp(t, a) == ApplyOp(t, b) {
    }
  }

  function DecodeAll(regs: seq<TypeMeta>, ss: seq<Serialized>): Result<seq<LogOp>, WireError> {
    if ss == [] then Ok([])
    else
      match (DecodeAll(regs, ss[..|ss| - 1]), Decode(regs, ss[|ss| - 1]))
      case (Ok(ops), Ok(op)) => Ok(ops + [op])
      case (Err(e), _) => Err(e)
      case (_, Err(e)) => Err(e)
  }

  function SerializeAll(regs: seq<TypeMeta>, ops: seq<LogOp>): Result<seq<Serialized>, WireError> {
    if ops == [] then Ok([])
    else
      match (SerializeAll(regs, ops[..|ops| - 1]), Serialize(regs, ops[|ops| - 1]))
      case (Ok(ss), Ok(s)) => Ok(ss + [s])
      case (Err(e), _) => Err(e)
      case (_, Err(e)) => Err(e)
  }

  function PlainAll(ops: seq<LogOp>): (r: seq<Op>)
    ensures |r| == |ops|
  {
    seq(|ops|, i requires 0 <= i < |ops| => Plain(ops[i]))
  }

  // The log read back: as long as the log, and every operation acts alike.
  ghost predicate LogKept(regs: seq<TypeMeta>, ops: seq<LogOp>) {
    && SerializeAll(regs, ops).Ok? && DecodeAll(regs, SerializeAll(regs, ops).value).Ok?
    && var back := DecodeAll(regs, SerializeAll(regs, ops).value).value;
       && |back| == |ops|
       && forall i :: 0 <= i < |ops| ==> ActsAlike(Plain(back[i]), Plain(ops[i]))
  }

  // A log that has been applied once, stored or sent and read back, acts the
  // same operation by operation if and only if the type of every value in it
  // is registered and keeps its name.
  lemma {:induction false} StoredLogKeptIff(regs: seq<TypeMeta>, base: Tables, ops: seq<LogOp>)
    requires Replays(base, PlainAll(ops))
    ensures LogKept(regs, ops) <==> forall i :: 0 <= i < |ops| ==> Survives(regs, TypeOf(ops[i].value))
  {
    hide Survives, ActsAlike, Serialize, Decode, StateAt, Replays;
    forall i | 0 <= i < |ops|
      ensures Kept(regs, ops[i]) <==> Survives(regs, TypeOf(ops[i].value))
    {
      AppliedOp(base, ops, i);
      KeptIff(regs, ops[i]);
    }
    LogKeptByOp(regs, ops);
  }

  lemma {:induction false} AppliedOp(base: Tables, ops: seq<LogOp>, i: nat)
    requires Replays(base, PlainAll(ops)) && i < |ops|
    ensures !ops[i].typ.OpUnknown? && !ops[i].value.ForeignValue?
  {
    assert Accepted(base, PlainAll(ops), i);
  }

  lemma {:induction false} LogKeptByOp(regs: seq<TypeMeta>, ops: seq<LogOp>)
    ensures LogKept(regs, ops) <==> forall i :: 0 <= i < |ops| ==> Kept(regs, ops[i])
  {
    if ops == [] {
      assert LogKept(regs, ops);
    } else {
      hide LogKept, Kept;
      var front, last := ops[..|ops| - 1], ops[|ops| - 1];
      assert ops == front + [last];
      LogKeptByOp(regs, front);
      LogKeptStep(regs, front, last);
      assert forall i :: 0 <= i < |front| ==> ops[i] == front[i];
      assert ops[|front|] == last;
    }
  }

  lemma {:induction false} LogKeptStep(regs: seq<TypeMeta>, front: seq<LogOp>, last: LogOp)
    ensures LogKept(regs, front + [last]) <==> LogKept(regs, front) && Kept(regs, last)
  {
    hide ActsAlike, Serialize, Decode, Plain, SerializeAll, DecodeAll;
    var ops := front + [last];
    StoredStep(regs, front, last);
    if SerializeAll(regs, ops).Ok? && DecodeAll(regs, SerializeAll(regs, ops).value).Ok? {
      var back := DecodeAll(regs, SerializeAll(regs, front).value).value;
      var all := DecodeAll(regs, SerializeAll(regs, ops).value).value;
      assert forall i :: 0 <= i < |front| ==> all[i] == back[i] && ops[i] == front[i];
      assert all[|front|] == Decode(regs, Serialize(regs, last).value).value && ops[|front|] == last;
    }
  }

  // Storing one operation more.
  lemma {:induction false} StoredStep(regs: seq<TypeMeta>, front: seq<LogOp>, last: LogOp)
    ensures
      var ss, s := SerializeAll(regs, front), Serialize(regs, last);
      && (SerializeAll(regs, front + [last]).Ok? <==> ss.Ok? && s.Ok?)
      && (ss.Ok? && s.Ok? ==>
          var all, back, op := SerializeAll(regs, front + [last]).value, DecodeAll(regs, ss.value), Decode(regs, s.value);
          && (DecodeAll(regs, all).Ok? <==> back.Ok? && op.Ok?)
          && (back.Ok? ==> |back.value| == |front|)
          && (back.Ok? && op.Ok? ==> DecodeAll(regs, all).value == back.value + [op.value]))
  {
    hide Serialize, Decode;
    var ss, s := SerializeAll(regs, front), Serialize(regs, last);
    assert (front + [last])[..|front|] == front;
    if ss.Ok? && s.Ok? {
      assert (ss.value + [s.value])[..|ss.value|] == ss.value;
      StoredLength(regs, front);
    }
  }

  lemma {:induction false} StoredLength(regs: seq<TypeMeta>, ops: seq<LogOp>)
    requires SerializeAll(regs, ops).Ok?
    ensures |SerializeAll(regs, ops).value| == |ops|
    ensures DecodeAll(regs, SerializeAll(regs, ops).value).Ok? ==>
      |DecodeAll(regs, SerializeAll(regs, ops).value).value| == |ops|
  {
    hide Serialize, Decode;
    if ops != [] {
      StoredLength(regs, ops[..|ops| - 1]);
      var ss, s := SerializeAll(regs, ops[..|ops| - 1]).value, Serialize(regs, ops[|ops| - 1]).value;
      assert (ss + [s])[..|ss|] == ss;
    }
  }

  // Such a log replays from any tables as the original does, to the same
  // tables at every point.
  lemma {:induction false} StoredLogReplays(regs: seq<TypeMeta>, base: Tables, ops: seq<LogOp>)
    requires LogKept(regs, ops)
    ensures
      var back := PlainAll(DecodeAll(regs, SerializeAll(regs, ops).value).value);
      && |back| == |ops|
      && (forall k :: 0 <= k <= |ops| ==> StateAt(base, back, k) == StateAt(base, PlainAll(ops), k))
      && (Replays(base, back) <==> Replays(base, PlainAll(ops)))
  {
    hide DecodeAll, SerializeAll, ApplyOp;
    var back, hist := PlainAll(DecodeAll(regs, SerializeAll(regs, ops).value).value), PlainAll(ops);
    forall k | 0 <= k <= |ops| ensures StateAt(base, back, k) == StateAt(base, hist, k) {
      AlikeReplay(base, back, hist, k);
    }
    forall i | 0 <= i < |ops| ensures Accepted(base, back, i) <==> Accepted(base, hist, i) {
      assert ActsAlike(back[i], hist[i]);
    }
  }

  lemma {:induction false} AlikeReplay(base: Tables, a: seq<Op>, b: seq<Op>, k: nat)
    requires |a| == |b| && k <= |a| && forall i :: 0 <= i < |a| ==> ActsAlike(a[i], b[i])
    ensures StateAt(base, a, k) == StateAt(base, b, k)
  {
    hide ApplyOp;
    if k > 0 {
      AlikeReplay(base, a, b, k - 1);
      assert ActsAlike(a[k - 1], b[k - 1]);
    }
  }

  // ---------------------------------------------------------------- errors

  // A known error value; an error wraps a set of them.
  type ErrorId = nat

  datatype Entry = Entry(code: string, err: ErrorId)

  // A response: its status, whether its content type is JSON, and the code in
  // its body, if the body decodes.
  datatype Response = Response(status: nat, json: bool, code: Option<string>)

  datatype Seen = Known(err: ErrorId) | Malformed | Other(status: nat, permanent: bool)

  ghost predicate FirstMatch(reg: seq<Entry>, wrapped: set<ErrorId>, k: int) {
    0 <= k < |reg| && reg[k].err in wrapped && forall j :: 0 <= j < k ==> reg[j].err !in wrapped
  }

  ghost predicate FirstCode(reg: seq<Entry>, code: string, k: int) {
    0 <= k < |reg| && reg[k].code == code && forall j :: 0 <= j < k ==> reg[j].code != code
  }

  // The errors registry: both ends register the same entries in the same order.
  class ErrorRegistry {
    var entries: seq<Entry>

    constructor ()
      ensures entries == []
    {
      entries := [];
    }

    method RegisterError(code: string, err: ErrorId)
      modifies this
      ensures entries == old(entries) + [Entry(code, err)]
    {
      entries := entries + [Entry(code, err)];
    }

    // Bad request with the code of the first entry the error matches, else an
    // internal error without a code.
    method HTTPError(wrapped: set<ErrorId>) returns (r: Response)
      ensures (forall j :: 0 <= j < |entries| ==> entries[j].err !in wrapped) ==> r == Response(500, true, Some(""))
      ensures forall k :: FirstMatch(entries, wrapped, k) ==> r == Response(400, true, Some(entries[k].code))
    {
      for i := 0 to |entries|
        invariant forall j :: 0 <= j < i ==> entries[j].err !in wrapped
      {
        if entries[i].err in wrapped {
          return Response(400, true, Some(entries[i].code));
        }
      }
      r := Response(500, true, Some(""));
    }

    // A bad request in JSON is the first entry with its code, or malformed if
    // it has none; anything else is a status, and permanent unless it is 429 or
    // a server error.
    method UnwrapError(r: Response) returns (seen: Seen)
      ensures seen == Malformed <==> r.status == 400 && r.json && r.code.None?
      ensures forall k :: r.status == 400 && r.json && r.code.Some? && FirstCode(entries, r.code.value, k) ==>
        seen == Known(entries[k].err)
      ensures (r.status == 400 && r.json ==>
               r.code.Some? && forall j :: 0 <= j < |entries| ==> entries[j].code != r.code.value) ==>
        seen == Other(r.status, r.status != 429 && r.status < 500)
    {
      if r.status == 400 && r.json {
        if r.code.None? {
          return Malformed;
        }
        for i := 0 to |entries|
          invariant forall j :: 0 <= j < i ==> entries[j].code != r.code.value
        {
          if r.code.value == entries[i].code {
            return Known(entries[i].err);
          }
        }
      }
      seen := Other(r.status, r.status != 429 && r.status < 500);
    }

    // Server to client. An error that matches entry k is recognised as that
    // entry if and only if no earlier entry uses its code for another error.
    // An unmatched error arrives as a server error that may be retried.
    method Send(wrapped: set<ErrorId>, ghost k: nat) returns (seen: Seen)
      requires FirstMatch(entries, wrapped, k) || forall j :: 0 <= j < |entries| ==> entries[j].err !in wrapped
      ensures FirstMatch(entries, wrapped, k) ==>
        (seen == Known(entries[k].err) <==>
         forall j :: FirstCode(entries, entries[k].code, j) ==> entries[j].err == entries[k].err)
      ensures !FirstMatch(entries, wrapped, k) ==> seen == Other(500, false)
    {
      var r := HTTPError(wrapped);
      seen := UnwrapError(r);
      if FirstMatch(entries, wrapped, k) {
        var j := FirstCodeExists(entries, k);
        assert seen == Known(entries[j].err);
      }
    }
  }

  lemma {:induction false} FirstCodeExists(reg: seq<Entry>, k: nat) returns (j: nat)
    requires k < |reg|
    ensures FirstCode(reg, reg[k].code, j) && j <= k
    ensures forall i :: FirstCode(reg, reg[k].code, i) ==> i == j
    decreases k
  {
    if i :| 0 <= i < k && reg[i].code == reg[k].code {
      j := FirstCodeExists(reg, i);
    } else {
      j := k;
    }
  }
}
