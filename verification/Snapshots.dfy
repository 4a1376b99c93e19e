// Snapshots: a list of all rows plus the sequence number they belong to, and
// what loading one does to a datastore. Clearing the tables and enumerating
// all rows are taken at their intended meaning.
module Snapshots {
  import opened Wrappers
  import opened Tables
  import opened LogStore

  datatype Snapshot = Snapshot(seqNum: nat, items: seq<Row>)

  // Insert the items one by one.
  function LoadItems(t: Tables, items: seq<Row>): Result<Tables, Error> {
    if items == [] then Ok(t)
    else
      match LoadItems(t, items[..|items| - 1])
      case Err(e) => Err(e)
      case Ok(t') => Insert(t', items[|items| - 1])
  }

  // The transaction of LoadSnapshot. It replaces tables and counter, and
  // leaves the log table as it is.
  function SinkLoad(s: Store, snap: Snapshot): Result<Store, Error> {
    match LoadItems(EMPTY, snap.items)
    case Err(e) => Err(e)
    case Ok(t) => Ok(Store(t, s.log, snap.seqNum))
  }

  // ---------------------------------------------------------------- listings

  // Each row of the tables exactly once, in any order.
  ghost predicate Listing(items: seq<Row>, t: Tables) {
    && (forall i, j :: 0 <= i < j < |items| ==> items[i] != items[j])
    && (forall r :: r in items <==> HasRow(t, r))
  }

  // Every peer is listed after its interface.
  ghost predicate InterfacesFirst(items: seq<Row>) {
    forall j :: 0 <= j < |items| && items[j].PeerRow? ==> HasInterface(items[..j], items[j].peer.iface)
  }

  ghost predicate HasInterface(items: seq<Row>, name: string) {
    exists i :: 0 <= i < |items| && items[i].InterfaceRow? && items[i].intf.name == name
  }

  lemma {:induction false} InterfacesFirstPrefix(items: seq<Row>, n: nat)
    requires n <= |items|
    requires InterfacesFirst(items)
    ensures InterfacesFirst(items[..n])
  {
    var front := items[..n];
    forall j | 0 <= j < n && front[j].PeerRow? ensures HasInterface(front[..j], front[j].peer.iface) {
      assert front[..j] == items[..j];
      assert items[j].PeerRow?;
    }
  }

  lemma {:induction false} KeyMeansRow(t: Tables, r: Row)
    requires Integrity(t)
    requires KeyTaken(t, r)
    ensures exists r' :: HasRow(t, r') && SameKey(r, r')
  {
    match r
    case InterfaceRow(i) => assert HasRow(t, InterfaceRow(t.interfaces[i.name]));
    case PeerRow(p) => assert HasRow(t, PeerRow(t.peers[p.publicKey]));
    case TokenRow(k) => assert HasRow(t, TokenRow(t.tokens[k.id]));
  }

  lemma {:induction false} LoadFailureSticks(t: Tables, items: seq<Row>, n: nat)
    requires n <= |items|
    requires LoadItems(t, items[..n]).Err?
    ensures LoadItems(t, items) == LoadItems(t, items[..n])
    decreases |items| - n
  {
    if n < |items| {
      assert items[..n + 1][..n] == items[..n];
      LoadFailureSticks(t, items, n + 1);
    } else {
      assert items[..n] == items;
    }
  }

  // An item of any list that can be inserted after those before it.
  ghost predicate ItemFits(items: seq<Row>, j: nat)
    requires j < |items|
  {
    && !items[j].UnknownRow? && (forall i :: 0 <= i < j ==> !SameKey(items[j], items[i]))
    && (items[j].PeerRow? ==> HasInterface(items[..j], items[j].peer.iface))
  }

  // Whatever is listed, loading it works if and only if every item fits, and
  // then the database has exactly the listed rows; otherwise the first item that
  // does not fit says with which error it is refused.
  lemma {:induction false} LoadItemsIff(items: seq<Row>)
    ensures LoadItems(EMPTY, items).Ok? <==> forall j :: 0 <= j < |items| ==> ItemFits(items, j)
    ensures LoadItems(EMPTY, items).Ok? ==>
      var t := LoadItems(EMPTY, items).value;
      Integrity(t) && forall r :: HasRow(t, r) <==> r in items
  {
    hide ItemFits, Insert, Integrity, HasRow;
    if items == [] {
      NothingLoaded();
    } else {
      var n := |items| - 1;
      var front := items[..n];
      LoadItemsIff(front);
      forall j | 0 <= j < n ensures ItemFits(items, j) <==> ItemFits(front, j) {
        FitsPrefix(items, n, j);
      }
      if LoadItems(EMPTY, front).Ok? {
        LastItemIff(items, LoadItems(EMPTY, front).value);
      } else {
        var j :| 0 <= j < n && !ItemFits(front, j);
        assert !ItemFits(items, j);
      }
    }
  }

  lemma {:induction false} NothingLoaded()
    ensures Integrity(EMPTY) && forall r :: !HasRow(EMPTY, r)
  {
  }

  lemma {:induction false} FitsPrefix(items: seq<Row>, n: nat, j: nat)
    requires j < n <= |items|
    ensures ItemFits(items[..n], j) <==> ItemFits(items, j)
  {
    assert items[..n][..j] == items[..j];
    assert forall i :: 0 <= i <= j ==> items[..n][i] == items[i];
  }

  lemma {:induction false} LastItemIff(items: seq<Row>, t: Tables)
    requires items != [] && Integrity(t) && forall r :: HasRow(t, r) <==> r in items[..|items| - 1]
    ensures
      var n := |items| - 1;
      && (Insert(t, items[n]).Ok? <==> ItemFits(items, n))
      && (Insert(t, items[n]).Ok? ==>
          Integrity(Insert(t, items[n]).value) && forall r :: HasRow(Insert(t, items[n]).value, r) <==> r in items)
      && (Insert(t, items[n]).Err? ==>
          Insert(t, items[n]).error == (
            if items[n].UnknownRow? then UnknownType
            else if exists i :: 0 <= i < n && SameKey(items[n], items[i]) then KeyConflict
            else ForeignKey))
  {
    var n := |items| - 1;
    var front, op := items[..n], Op(0, OpCreate, items[n]);
    RefusedExactly(t, op);
    KeyListedIff(t, front, items[n]);
    if items[n].PeerRow? {
      InterfaceListedIff(t, front, items[n].peer.iface);
    }
    assert forall i :: 0 <= i < n ==> items[i] == front[i];
    if ApplyOp(t, op).Ok? {
      StatementsKeepIntegrity(t, op);
      hide Insert;
      forall r ensures HasRow(ApplyOp(t, op).value, r) <==> r in items {
        RowsAfter(t, op, r);
        assert items == front + [items[n]];
      }
    }
  }

  lemma {:induction false} KeyListedIff(t: Tables, items: seq<Row>, row: Row)
    requires Integrity(t) && forall r :: HasRow(t, r) <==> r in items
    ensures KeyTaken(t, row) <==> exists i :: 0 <= i < |items| && SameKey(row, items[i])
  {
    if KeyTaken(t, row) {
      KeyMeansRow(t, row);
      var r :| HasRow(t, r) && SameKey(row, r);
      assert r in items;
    }
    if i :| 0 <= i < |items| && SameKey(row, items[i]) {
      assert items[i] in items && HasRow(t, items[i]);
    }
  }

  lemma {:induction false} InterfaceListedIff(t: Tables, items: seq<Row>, name: string)
    requires Integrity(t) && forall r :: HasRow(t, r) <==> r in items
    ensures name in t.interfaces <==> HasInterface(items, name)
  {
    if name in t.interfaces {
      var r := InterfaceRow(t.interfaces[name]);
      assert HasRow(t, r) && r in items;
    }
    if HasInterface(items, name) {
      var i :| 0 <= i < |items| && items[i].InterfaceRow? && items[i].intf.name == name;
      assert items[i] in items && HasRow(t, items[i]);
    }
  }

  // The error of the first item that does not fit.
  lemma {:induction false} LoadError(items: seq<Row>, n: nat)
    requires n < |items| && !ItemFits(items, n) && forall j :: 0 <= j < n ==> ItemFits(items, j)
    ensures LoadItems(EMPTY, items) == Err(
      if items[n].UnknownRow? then UnknownType
      else if exists i :: 0 <= i < n && SameKey(items[n], items[i]) then KeyConflict
      else ForeignKey)
  {
    hide ItemFits, Insert, Integrity, HasRow, SameKey;
    var upto := items[..n + 1];
    forall j | 0 <= j <= n ensures ItemFits(upto, j) <==> ItemFits(items, j) {
      FitsPrefix(items, n + 1, j);
    }
    forall j | 0 <= j < n ensures ItemFits(items[..n], j) {
      FitsPrefix(items, n, j);
    }
    assert upto[..n] == items[..n] && upto[n] == items[n];
    LoadItemsIff(items[..n]);
    LastItemIff(upto, LoadItems(EMPTY, items[..n]).value);
    assert forall i :: 0 <= i < n ==> upto[i] == items[i];
    LoadFailureSticks(EMPTY, items, n + 1);
  }

  // Loading a listing of a database restores that database, if and only if
  // every peer is listed after its interface; otherwise a foreign key refuses it.
  lemma {:induction false} LoadRestoresIff(t: Tables, items: seq<Row>)
    requires Integrity(t) && Listing(items, t)
    ensures LoadItems(EMPTY, items).Ok? <==> InterfacesFirst(items)
    ensures LoadItems(EMPTY, items).Ok? ==> LoadItems(EMPTY, items).value == t
    ensures LoadItems(EMPTY, items).Err? ==> LoadItems(EMPTY, items).error == ForeignKey
  {
    hide LoadItems, ItemFits, Integrity;
    LoadItemsIff(items);
    forall j | 0 <= j < |items|
      ensures ItemFits(items, j) <==> (items[j].PeerRow? ==> HasInterface(items[..j], items[j].peer.iface))
      ensures !items[j].UnknownRow? && !exists i :: 0 <= i < j && SameKey(items[j], items[i])
    {
      ListedFits(t, items, j);
    }
    if LoadItems(EMPTY, items).Ok? {
      SameRowsSameTables(LoadItems(EMPTY, items).value, t);
    } else {
      var n := FirstMisfit(items);
      LoadError(items, n);
    }
  }

  lemma {:induction false} ListedFits(t: Tables, items: seq<Row>, j: nat)
    requires Integrity(t) && Listing(items, t) && j < |items|
    ensures ItemFits(items, j) <==> (items[j].PeerRow? ==> HasInterface(items[..j], items[j].peer.iface))
    ensures !items[j].UnknownRow? && !exists i :: 0 <= i < j && SameKey(items[j], items[i])
  {
    assert items[j] in items && HasRow(t, items[j]);
    forall i | 0 <= i < j ensures !SameKey(items[j], items[i]) {
      assert items[i] in items && HasRow(t, items[i]) && items[i] != items[j];
    }
  }

  lemma {:induction false} FirstMisfit(items: seq<Row>) returns (n: nat)
    requires exists j :: 0 <= j < |items| && !ItemFits(items, j)
    ensures n < |items| && !ItemFits(items, n) && forall j :: 0 <= j < n ==> ItemFits(items, j)
  {
    hide ItemFits;
    n := 0;
    while ItemFits(items, n)
      invariant n < |items| && forall j :: 0 <= j < n ==> ItemFits(items, j)
      decreases |items| - n
    {
      n := n + 1;
    }
  }

  // ---------------------------------------------------------------- snapshot plus tail

  // Snapshot plus tail equals full replay: load a snapshot listed interfaces
  // first and apply every later operation. It works exactly when the sink has
  // no log entry above the snapshot, because loading leaves the log alone;
  // otherwise it stops right before the first such entry.
  lemma {:induction false} SnapshotPlusTail(base: Tables, sink: Store, snap: Snapshot, hist: seq<Op>, upto: nat)
    requires Integrity(base) && Numbered(hist) && Replays(base, hist)
    requires snap.seqNum <= upto <= |hist|
    requires Listing(snap.items, StateAt(base, hist, snap.seqNum))
    ensures SinkLoad(sink, snap).Ok? <==> InterfacesFirst(snap.items)
    ensures
      var l := SinkLoad(sink, snap);
      l.Ok? ==>
        && l.value == Store(StateAt(base, hist, snap.seqNum), sink.log, snap.seqNum)
        && var r := Deliver(l.value, hist[snap.seqNum..upto]);
           if InTheWay(l.value, upto) == {} then r == Delivery(Advanced(base, l.value, hist, upto), None)
           else
             var first := Least(InTheWay(l.value, upto));
             r == Delivery(Advanced(base, l.value, hist, first - 1), Some(Failure(first, SequenceConflict)))
  {
    hide StateAt, Deliver, Advanced;
    ReplayKeepsIntegrity(base, hist, snap.seqNum);
    LoadRestoresIff(StateAt(base, hist, snap.seqNum), snap.items);
    if SinkLoad(sink, snap).Ok? {
      DeliverOutcome(base, SinkLoad(sink, snap).value, hist, upto);
    }
  }
}
