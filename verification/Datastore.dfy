// A datastore as an object: SQL tables, log table, sequence row and publisher,
// with the methods of the log sink and the log source.
module Datastore {
  import opened Wrappers
  import opened Tables
  import opened LogStore
  import opened Snapshots
  import PubSub

  // ---------------------------------------------------------------- table order of a snapshot

  datatype Kind = Interfaces | Peers | Tokens

  function KindOf(r: Row): Option<Kind> {
    match r
    case InterfaceRow(_) => Some(Interfaces)
    case PeerRow(_) => Some(Peers)
    case TokenRow(_) => Some(Tokens)
    case UnknownRow => None
  }

  function KeysOf(t: Tables, kind: Kind): set<string> {
    match kind
    case Interfaces => t.interfaces.Keys
    case Peers => t.peers.Keys
    case Tokens => t.tokens.Keys
  }

  function RowAt(t: Tables, kind: Kind, key: string): Row
    requires key in KeysOf(t, kind)
  {
    match kind
    case Interfaces => InterfaceRow(t.interfaces[key])
    case Peers => PeerRow(t.peers[key])
    case Tokens => TokenRow(t.tokens[key])
  }

  // Peers are enumerated after interfaces.
  predicate PeersLate(order: seq<Kind>) {
    forall j :: 0 <= j < |order| && order[j] == Peers ==> Interfaces in order[..j]
  }

  // All rows of the given tables, once each, and loadable exactly when peers
  // are late or absent.
  ghost predicate PartialListing(t: Tables, order: seq<Kind>, items: seq<Row>) {
    && (forall i, j :: 0 <= i < j < |items| ==> items[i] != items[j])
    && (forall r :: r in items <==> HasRow(t, r) && KindOf(r).Some? && KindOf(r).value in order)
    && (InterfacesFirst(items) <==> PeersLate(order) || t.peers == map[])
  }

  lemma {:induction false} PeersLateGrows(order: seq<Kind>, kind: Kind)
    ensures PeersLate(order + [kind]) <==> PeersLate(order) && (kind == Peers ==> Interfaces in order)
  {
    var all := order + [kind];
    if PeersLate(all) {
      assert kind == Peers ==> Interfaces in all[..|order|];
      assert all[..|order|] == order;
      forall j | 0 <= j < |order| && order[j] == Peers ensures Interfaces in order[..j] {
        assert all[j] == Peers && all[..j] == order[..j];
      }
    }
    if PeersLate(order) && (kind == Peers ==> Interfaces in order) {
      forall j | 0 <= j < |all| && all[j] == Peers ensures Interfaces in all[..j] {
        assert all[..j] == order[..j];
        assert j == |order| ==> order[..j] == order;
      }
    }
  }

  lemma {:induction false} PartialListingGrows(t: Tables, order: seq<Kind>, items: seq<Row>, kind: Kind, rows: seq<Row>)
    requires Integrity(t) && PartialListing(t, order, items)
    requires kind !in order
    requires forall i, j :: 0 <= i < j < |rows| ==> rows[i] != rows[j]
    requires forall r :: r in rows <==> HasRow(t, r) && KindOf(r) == Some(kind)
    ensures PartialListing(t, order + [kind], items + rows)
  {
    var all := items + rows;
    forall i, j | 0 <= i < j < |all| ensures all[i] != all[j] {
      if i < |items| <= j {
        assert all[i] in items && all[j] in rows;
      }
    }
    PeersLateGrows(order, kind);
    PeerOrderGrows(t, order, items, kind, rows);
  }

  lemma {:induction false} PeerOrderGrows(t: Tables, order: seq<Kind>, items: seq<Row>, kind: Kind, rows: seq<Row>)
    requires Integrity(t) && PartialListing(t, order, items)
    requires forall r :: r in rows <==> HasRow(t, r) && KindOf(r) == Some(kind)
    ensures InterfacesFirst(items + rows) <==>
      (PeersLate(order) && (kind == Peers ==> Interfaces in order)) || t.peers == map[]
  {
    var all := items + rows;
    if InterfacesFirst(all) {
      InterfacesFirstPrefix(all, |items|);
      assert all[..|items|] == items;
      if kind == Peers && t.peers != map[] {
        var key :| key in t.peers;
        assert HasRow(t, PeerRow(t.peers[key]));
        assert rows != [];
        assert rows[0] in rows;
        assert all[|items|] == rows[0] && all[..|items|] == items;
        assert HasInterface(items, rows[0].peer.iface);
        var i :| 0 <= i < |items| && items[i].InterfaceRow? && items[i].intf.name == rows[0].peer.iface;
        assert items[i] in items && KindOf(items[i]) == Some(Interfaces);
      }
    }
    if (PeersLate(order) && (kind == Peers ==> Interfaces in order)) || t.peers == map[] {
      forall j | 0 <= j < |all| && all[j].PeerRow? ensures HasInterface(all[..j], all[j].peer.iface) {
        if j < |items| {
          assert all[..j] == items[..j] && items[j].PeerRow?;
        } else {
          assert all[j] == rows[j - |items|] && rows[j - |items|] in rows;
          var row := InterfaceRow(t.interfaces[all[j].peer.iface]);
          assert HasRow(t, row) && row in items;
          var i :| 0 <= i < |items| && items[i] == row;
          assert all[..j][i] == row;
        }
      }
    }
  }

  // ---------------------------------------------------------------- the object

  class Subscription {
    var preload: seq<Op>
    var ch: PubSub.Channel

    constructor (preload: seq<Op>, ch: PubSub.Channel)
      ensures this.preload == preload && this.ch == ch
    {
      this.preload, this.ch := preload, ch;
    }
  }

  class Database {
    var tables: Tables
    var log: map<nat, Op>
    var seqNum: nat
    const pubsub: PubSub.Publisher
    ghost var chans: set<PubSub.Channel>

    ghost predicate Valid()
      reads this, pubsub, chans
    {
      Integrity(tables) && pubsub.Valid(chans)
    }

    // A subscription made at `start` carries, in what it was given and what has
    // come since, exactly the log from there on.
    ghost predicate Streams(sub: Subscription, start: nat)
      reads this, pubsub, sub, sub.ch
    {
      && sub.ch in chans && sub.ch in pubsub.subscribers
      && NothingAbove(log, seqNum) && start <= seqNum + 1
      && sub.preload + sub.ch.buf == Since(log, start)
    }

    ghost function State(): Store
      reads this
    {
      Store(tables, log, seqNum)
    }

    ghost function Feed(): PubSub.PubState<PubSub.Channel>
      reads this, pubsub, chans
    {
      pubsub.State(chans)
    }

    constructor (base: Tables)
      requires Integrity(base)
      ensures Valid() && State() == Store(base, map[], 0)
      ensures fresh(pubsub) && chans == {}
    {
      tables, log, seqNum := base, map[], 0;
      pubsub := new PubSub.Publisher();
      chans := {};
    }

    // One transaction: number the operation, change the tables, append to the
    // log, advance the counter, emit, commit. An error before Emit rolls all of
    // it back and nothing is emitted. If the commit fails, the database is
    // rolled back but the operation is out. Emit panics if a subscription was
    // closed twice.
    method Transaction(op: Op, fromLog: bool, commits: bool) returns (r: Result<Op, Error>, panicked: bool)
      requires Valid()
      modifies this, pubsub, chans
      ensures panicked <==> SinkApply(old(State()), op, fromLog).Ok? && PubSub.EmitPanics(old(Feed()))
      ensures panicked ==> State() == old(State())
      ensures !panicked ==> Valid() && chans == old(chans)
      ensures SinkApply(old(State()), op, fromLog).Err? ==>
        && r == Err(SinkApply(old(State()), op, fromLog).error)
        && State() == old(State()) && Feed() == old(Feed())
      ensures SinkApply(old(State()), op, fromLog).Ok? && !panicked ==>
        var (after, emitted) := SinkApply(old(State()), op, fromLog).value;
        && Feed() == PubSub.Published(old(Feed()), emitted)
        && (commits ==> State() == after && r == Ok(emitted))
        && (!commits ==> State() == old(State()) && r == Err(CommitFailed))
    {
      hide ApplyOp, Integrity, PubSub.EmitPanics;
      var savedTables, savedLog, savedSeq := tables, log, seqNum;
      r, panicked := Err(CommitFailed), false;
      var numbered := op;
      if !fromLog {
        numbered := op.(seqNum := seqNum + 1);
      }
      match ApplyOp(tables, numbered) {
        case Err(e) =>
          tables, log := savedTables, savedLog;
          return Err(e), false;
        case Ok(t) =>
          StatementsKeepIntegrity(tables, numbered);
          tables := t;
      }
      if numbered.seqNum in log {
        tables, log := savedTables, savedLog;
        return Err(SequenceConflict), false;
      }
      log := log[numbered.seqNum := numbered];
      seqNum := numbered.seqNum;
      panicked := pubsub.Emit(numbered, chans);
      if panicked || !commits {
        tables, log, seqNum := savedTables, savedLog, savedSeq;
        return;
      }
      r := Ok(numbered);
    }

    // Apply an operation. A write at the end of the log keeps every stream
    // exact.
    method Apply(op: Op, fromLog: bool, commits: bool) returns (r: Result<Op, Error>, panicked: bool)
      requires Valid()
      modifies this, pubsub, chans
      ensures panicked <==> SinkApply(old(State()), op, fromLog).Ok? && PubSub.EmitPanics(old(Feed()))
      ensures panicked ==> State() == old(State())
      ensures !panicked ==> Valid() && chans == old(chans)
      ensures SinkApply(old(State()), op, fromLog).Err? ==>
        && r == Err(SinkApply(old(State()), op, fromLog).error)
        && State() == old(State()) && Feed() == old(Feed())
      ensures SinkApply(old(State()), op, fromLog).Ok? && !panicked ==>
        var (after, emitted) := SinkApply(old(State()), op, fromLog).value;
        && Feed() == PubSub.Published(old(Feed()), emitted)
        && (commits ==> State() == after && r == Ok(emitted))
        && (!commits ==> State() == old(State()) && r == Err(CommitFailed))
      ensures r.Ok? && !panicked <==>
        && !Refused(old(tables), op) && NumberFor(old(State()), op, fromLog) !in old(log)
        && !PubSub.EmitPanics(old(Feed())) && commits
      ensures r.Ok? && !panicked ==>
        Took(old(State()), op, NumberFor(old(State()), op, fromLog), State(), r.value) &&
        Feed() == PubSub.Published(old(Feed()), r.value)
      ensures !panicked && r.Ok? && (fromLog ==> op.seqNum == old(seqNum) + 1) ==>
        forall sub: Subscription, start: nat | old(allocated(sub)) && old(Streams(sub, start)) :: Streams(sub, start)
    {
      hide Integrity, Since, PubSub.EmitPanics, ApplyOp, Refused, Took;
      ghost var before, feed := State(), Feed();
      AcceptedIff(before, op, fromLog);
      if SinkApply(before, op, fromLog).Ok? {
        AcceptedEffect(before, op, fromLog);
      }
      r, panicked := Transaction(op, fromLog, commits);
      if !panicked && r.Ok? && seqNum == before.seqNum + 1 {
        forall sub: Subscription, start: nat | old(allocated(sub)) && old(Streams(sub, start))
          ensures Streams(sub, start)
        {
          SinceAppend(before.log, before.seqNum, r.value, start);
          assert sub.ch in feed.inbox && feed.inbox[sub.ch] == old(sub.ch.buf);
          assert Feed().inbox[sub.ch] == sub.ch.buf;
        }
      }
    }

    method LatestSequence() returns (latest: nat)
      ensures latest == seqNum
    {
      latest := seqNum;
    }

    // Clear the tables, insert the items in order, set the counter. The log
    // stays, and nothing is emitted.
    method LoadSnapshot(snap: Snapshot) returns (r: Result<(), Error>)
      requires Valid()
      modifies this
      ensures Valid() && Feed() == old(Feed()) && chans == old(chans)
      ensures r.Err? ==> SinkLoad(old(State()), snap) == Err(r.error) && State() == old(State())
      ensures r.Ok? ==> SinkLoad(old(State()), snap) == Ok(State())
    {
      hide Insert, Integrity;
      var saved := tables;
      EmptyIntegrity();
      tables := EMPTY;
      for i := 0 to |snap.items|
        invariant LoadItems(EMPTY, snap.items[..i]) == Ok(tables)
        invariant Integrity(tables)
        invariant log == old(log) && seqNum == old(seqNum) && chans == old(chans)
      {
        assert snap.items[..i + 1][..i] == snap.items[..i];
        match Insert(tables, snap.items[i]) {
          case Err(e) =>
            LoadFirstError(EMPTY, snap.items, i, e);
            tables := saved;
            return Err(e);
          case Ok(t) =>
            StatementsKeepIntegrity(tables, Op(0, OpCreate, snap.items[i]));
            tables := t;
        }
      }
      assert snap.items[..|snap.items|] == snap.items;
      seqNum := snap.seqNum;
      r := Ok(());
    }

    // All rows of one table, in some order.
    method Each(kind: Kind) returns (rows: seq<Row>)
      requires Integrity(tables)
      ensures forall i, j :: 0 <= i < j < |rows| ==> rows[i] != rows[j]
      ensures forall r :: r in rows <==> HasRow(tables, r) && KindOf(r) == Some(kind)
    {
      rows := [];
      var keys := KeysOf(tables, kind);
      while keys != {}
        invariant keys <= KeysOf(tables, kind)
        invariant forall i, j :: 0 <= i < j < |rows| ==> rows[i] != rows[j]
        invariant forall r :: r in rows <==> HasRow(tables, r) && KindOf(r) == Some(kind) && PrimaryKey(r) !in keys
        decreases |keys|
      {
        var key :| key in keys;
        var row := RowAt(tables, kind, key);
        assert PrimaryKey(row) == key && row !in rows;
        assert forall r :: HasRow(tables, r) && KindOf(r) == Some(kind) && PrimaryKey(r) == key ==> r == row;
        rows := rows + [row];
        keys := keys - {key};
      }
    }

    // All rows of all tables, in the given order of tables, and the counter
    // they belong to. The registry's order of tables is arbitrary: the result
    // can be loaded if and only if it has peers after interfaces, or no peers.
    method TakeSnapshot(order: seq<Kind>) returns (snap: Snapshot)
      requires Integrity(tables)
      requires PubSub.Distinct(order) && forall k: Kind :: k in order
      ensures snap.seqNum == seqNum
      ensures Listing(snap.items, tables)
      ensures InterfacesFirst(snap.items) <==> PeersLate(order) || tables.peers == map[]
    {
      var items := [];
      for i := 0 to |order|
        invariant PartialListing(tables, order[..i], items)
      {
        var rows := Each(order[i]);
        PartialListingGrows(tables, order[..i], items, order[i], rows);
        assert order[..i + 1] == order[..i] + [order[i]];
        items := items + rows;
      }
      assert order[..|order|] == order;
      snap := Snapshot(seqNum, items);
    }

    method QueryLogSince(start: nat) returns (out: seq<Op>)
      ensures out == Since(log, start)
    {
      hide Since;
      out := [];
      var next := start;
      while Above(log, next) != {}
        invariant out + Since(log, next) == Since(log, start)
        decreases |Above(log, next)|
      {
        var k := Least(Above(log, next));
        SinceStep(log, next, k);
        out := out + [log[k]];
        next := k + 1;
      }
      SinceEnd(log, next);
    }

    // Horizon if and only if the caller is ahead. Otherwise the subscription
    // has the log from start on, and a new empty channel that every later
    // Emit feeds: a stream, unless the log has leftovers above the counter.
    method Subscribe(start: nat) returns (r: Result<Subscription, Error>)
      requires Valid()
      modifies this, pubsub
      ensures Valid() && State() == old(State())
      ensures r.Err? <==> start > seqNum + 1
      ensures r.Err? ==> r.error == Horizon && chans == old(chans) && Feed() == old(Feed())
      ensures r.Ok? ==>
        && r.value.preload == Since(log, start)
        && fresh(r.value.ch) && chans == old(chans) + {r.value.ch}
        && Feed() == PubSub.Subscribed(old(Feed()), r.value.ch)
        && (NothingAbove(log, seqNum) ==> Streams(r.value, start))
    {
      if start > seqNum + 1 {
        return Err(Horizon);
      }
      var preload := QueryLogSince(start);
      var ch := new PubSub.Channel();
      pubsub.AddSubscriber(ch, chans);
      chans := chans + {ch};
      var sub := new Subscription(preload, ch);
      r := Ok(sub);
    }

    // Close a subscription. A second time, the channel is queued for closing
    // again.
    method Unsubscribe(sub: Subscription)
      requires Valid()
      requires sub.ch in chans
      modifies pubsub
      ensures Valid() && State() == old(State())
      ensures Feed() == PubSub.Removed(old(Feed()), sub.ch)
    {
      pubsub.RemoveSubscriber(sub.ch, chans);
    }
  }

  lemma {:induction false} EmptyIntegrity()
    ensures Integrity(EMPTY)
  {
  }

  function PrimaryKey(r: Row): string {
    match r
    case InterfaceRow(i) => i.name
    case PeerRow(p) => p.publicKey
    case TokenRow(k) => k.id
    case UnknownRow => ""
  }

  lemma {:induction false} LoadFirstError(t: Tables, items: seq<Row>, n: nat, e: Error)
    requires n < |items|
    requires LoadItems(t, items[..n]).Ok? && Insert(LoadItems(t, items[..n]).value, items[n]) == Err(e)
    ensures LoadItems(t, items) == Err(e)
    decreases |items|
  {
    if n + 1 < |items| {
      var front := items[..|items| - 1];
      assert front[..n] == items[..n];
      LoadFirstError(t, front, n, e);
    }
  }
}
