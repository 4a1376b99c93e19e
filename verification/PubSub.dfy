// The in-process publisher: a list of subscriber channels, and the channels
// that were removed and wait to be closed by the next Emit.
module PubSub {
  import opened Wrappers
  import opened Tables

  // ---------------------------------------------------------------- the state as a value

  datatype PubState<C> = PubState(subs: seq<C>, toClose: seq<C>, closed: set<C>, inbox: map<C, seq<Op>>)

  predicate Distinct<C(==)>(s: seq<C>) {
    forall i, j :: 0 <= i < j < |s| ==> s[i] != s[j]
  }

  function Without<C(==)>(s: seq<C>, c: C): (r: seq<C>)
    ensures forall x :: x in r ==> x in s && x != c
    ensures forall x :: x in s && x != c ==> x in r
    ensures |r| <= |s|
    ensures Distinct(s) ==> Distinct(r)
  {
    if s == [] then []
    else
      var r := Without(s[..|s| - 1], c);
      assert s == s[..|s| - 1] + [s[|s| - 1]];
      assert Distinct(s) ==> s[|s| - 1] !in s[..|s| - 1];
      if s[|s| - 1] == c then r else r + [s[|s| - 1]]
  }

  function Subscribed<C(==)>(s: PubState<C>, c: C): PubState<C> {
    s.(subs := [c] + s.subs, inbox := s.inbox[c := []])
  }

  function Removed<C(==)>(s: PubState<C>, c: C): PubState<C> {
    s.(subs := Without(s.subs, c), toClose := s.toClose + [c])
  }

  // Closing a channel twice panics.
  predicate EmitPanics<C(==)>(s: PubState<C>) {
    !Distinct(s.toClose) || exists c :: c in s.toClose && c in s.closed
  }

  function Published<C(==)>(s: PubState<C>, op: Op): PubState<C> {
    PubState(s.subs, [], s.closed + (set c | c in s.toClose),
             map c | c in s.inbox :: if c in s.subs then s.inbox[c] + [op] else s.inbox[c])
  }

  // ---------------------------------------------------------------- runs

  datatype Event<C> = Added(c: C) | Closed(c: C) | Emitted(op: Op)

  // A channel is added once, and closed only by its own subscription.
  ghost predicate WellFormed<C(!new)>(es: seq<Event<C>>) {
    && (forall i, j :: 0 <= i < j < |es| && es[i].Added? ==> es[j] != es[i])
    && (forall j :: 0 <= j < |es| && es[j].Closed? ==> Added(es[j].c) in es[..j])
  }

  // The state after a run; None once a panic has happened.
  function Run<C(==)>(es: seq<Event<C>>): Option<PubState<C>> {
    if es == [] then Some(PubState([], [], {}, map[]))
    else
      match Run(es[..|es| - 1])
      case None => None
      case Some(s) =>
        match es[|es| - 1]
        case Added(c) => Some(Subscribed(s, c))
        case Closed(c) => Some(Removed(s, c))
        case Emitted(op) => if EmitPanics(s) then None else Some(Published(s, op))
  }

  // The channels closed in a stretch of a run, and the operations emitted in it.
  function Closes<C>(es: seq<Event<C>>): seq<C> {
    if es == [] then []
    else
      var last := es[|es| - 1];
      Closes(es[..|es| - 1]) + if last.Closed? then [last.c] else []
  }

  function Emits<C>(es: seq<Event<C>>): seq<Op> {
    if es == [] then []
    else
      var last := es[|es| - 1];
      Emits(es[..|es| - 1]) + if last.Emitted? then [last.op] else []
  }

  // The position after the last Emit.
  function LastEmit<C>(es: seq<Event<C>>): (k: nat)
    ensures k <= |es|
  {
    if es == [] then 0
    else if es[|es| - 1].Emitted? then |es|
    else LastEmit(es[..|es| - 1])
  }

  lemma {:induction false} WellFormedFront<C(!new)>(es: seq<Event<C>>)
    requires WellFormed(es) && es != []
    ensures WellFormed(es[..|es| - 1])
  {
    var front := es[..|es| - 1];
    forall j | 0 <= j < |front| && front[j].Closed? ensures Added(front[j].c) in front[..j] {
      assert front[..j] == es[..j] && es[j].Closed?;
    }
  }

  lemma {:induction false} ClosesContents<C(!new)>(es: seq<Event<C>>, c: C)
    ensures c in Closes(es) <==> Closed(c) in es
  {
    if es != [] {
      ClosesContents(es[..|es| - 1], c);
      assert es == es[..|es| - 1] + [es[|es| - 1]];
    }
  }

  // What the state records of the closes: those before the last Emit were
  // closed once each, those after it wait.
  ghost predicate ClosesOk<C>(es: seq<Event<C>>, s: PubState<C>) {
    var done := Closes(es[..LastEmit(es)]);
    && Closes(es) == done + s.toClose
    && Distinct(done) && s.closed == set c | c in done
  }

  lemma {:induction false} RunTracksCloses<C(!new)>(es: seq<Event<C>>)
    requires Run(es).Some?
    ensures ClosesOk(es, Run(es).value)
  {
    if es == [] {
      return;
    }
    var front, last := es[..|es| - 1], es[|es| - 1];
    RunTracksCloses(front);
    var s := Run(front).value;
    var done := Closes(front[..LastEmit(front)]);
    if last.Emitted? {
      assert es[..LastEmit(es)] == es;
      assert Closes(es) == done + s.toClose;
      ClosedByEmit(done, s);
    } else {
      assert es[..LastEmit(es)] == front[..LastEmit(front)];
    }
  }

  lemma {:induction false} ClosedByEmit<C(!new)>(done: seq<C>, s: PubState<C>)
    requires Distinct(done) && (forall c :: c in done <==> c in s.closed)
    ensures EmitPanics(s) <==> !Distinct(done + s.toClose)
    ensures !EmitPanics(s) ==> forall c :: c in done + s.toClose <==> c in s.closed || c in s.toClose
  {
    var all := done + s.toClose;
    if EmitPanics(s) {
      if !Distinct(s.toClose) {
        var i, j :| 0 <= i < j < |s.toClose| && s.toClose[i] == s.toClose[j];
        assert all[|done| + i] == all[|done| + j];
      } else {
        var c :| c in s.toClose && c in s.closed;
        var i :| 0 <= i < |done| && done[i] == c;
        var j :| 0 <= j < |s.toClose| && s.toClose[j] == c;
        assert all[i] == all[|done| + j];
      }
    } else {
      forall i, j | 0 <= i < j < |all| ensures all[i] != all[j] {
        if i < |done| <= j {
          assert all[i] in s.closed && all[j] in s.toClose;
        }
      }
    }
  }

  // A run panics if and only if some Emit comes after a channel was closed twice.
  // In a well-formed run that is the only way to panic: what Emit sends to is
  // never closed (see SubscribedIff). In an ill-formed one, that adds a closed
  // channel again, Go would also panic on the send, which Run does not model.
  lemma {:induction false} PanicsIff<C(!new)>(es: seq<Event<C>>)
    ensures Run(es).None? <==> exists k :: 0 <= k < |es| && es[k].Emitted? && !Distinct(Closes(es[..k]))
  {
    if es == [] {
      return;
    }
    var front, last := es[..|es| - 1], es[|es| - 1];
    PanicsIff(front);
    forall k | 0 <= k < |front| ensures front[..k] == es[..k] {
    }
    if Run(front).None? {
      var k :| 0 <= k < |front| && front[k].Emitted? && !Distinct(Closes(front[..k]));
      assert es[k].Emitted? && !Distinct(Closes(es[..k]));
    } else {
      RunTracksCloses(front);
      ClosedByEmit(Closes(front[..LastEmit(front)]), Run(front).value);
      if Run(es).None? {
        assert es[|front|].Emitted? && !Distinct(Closes(es[..|front|]));
      } else {
        forall k | 0 <= k < |es| && es[k].Emitted? ensures Distinct(Closes(es[..k])) {
          if k < |front| {
            assert front[k].Emitted? && front[..k] == es[..k];
          }
        }
      }
    }
  }

  // Who is subscribed after a run, and that nobody is subscribed and closed.
  lemma {:induction false} SubscribedIff<C(!new)>(es: seq<Event<C>>, c: C)
    requires WellFormed(es) && Run(es).Some?
    ensures
      var s := Run(es).value;
      && Distinct(s.subs)
      && (c in s.inbox <==> Added(c) in es)
      && (c in s.subs <==> Added(c) in es && Closed(c) !in es)
      && (c in s.subs ==> c !in s.toClose && c !in s.closed)
  {
    if es == [] {
      return;
    }
    var front, last := es[..|es| - 1], es[|es| - 1];
    assert es == front + [last];
    WellFormedFront(es);
    SubscribedIff(front, c);
    var s := Run(front).value;
    if last.Added? {
      SubscribedIff(front, last.c);
      assert last !in front;
      assert Closed(last.c) !in front;
      assert Distinct([last.c] + s.subs);
    }
    ClosedApart(es, c);
  }

  // A channel is closed or waits to be if and only if its close is in the run.
  lemma {:induction false} ClosedApart<C(!new)>(es: seq<Event<C>>, c: C)
    requires Run(es).Some?
    ensures c in Run(es).value.toClose || c in Run(es).value.closed <==> Closed(c) in es
  {
    hide Run;
    RunTracksCloses(es);
    ClosesContents(es, c);
    var done := Closes(es[..LastEmit(es)]);
    assert c in Closes(es) <==> c in done || c in Run(es).value.toClose;
  }

  // What is left stays in order.
  lemma {:induction false} WithoutKeepsOrder<C(!new)>(s: seq<C>, c: C, i: nat, j: nat) returns (i': nat, j': nat)
    requires i < j < |Without(s, c)|
    ensures i' < j' < |s| && s[i'] == Without(s, c)[i] && s[j'] == Without(s, c)[j]
  {
    var n := |s| - 1;
    var front := Without(s[..n], c);
    if j < |front| {
      i', j' := WithoutKeepsOrder(s[..n], c, i, j);
    } else {
      assert front[i] in s[..n];
      i' :| 0 <= i' < n && s[..n][i'] == front[i];
      j' := n;
    }
  }

  lemma {:induction false} SubsStep<C(!new)>(es: seq<Event<C>>)
    requires Run(es).Some? && es != []
    ensures
      var front, last := es[..|es| - 1], es[|es| - 1];
      && Run(front).Some?
      && Run(es).value.subs == match last
                               case Added(c) => [c] + Run(front).value.subs
                               case Closed(c) => Without(Run(front).value.subs, c)
                               case Emitted(_) => Run(front).value.subs
  {
  }

  lemma {:induction false} NobodyAtFirst<C(!new)>(es: seq<Event<C>>)
    requires es == []
    ensures Run(es).Some? && Run(es).value.subs == []
  {
  }

  // Channels are served from the newest to the oldest.
  lemma {:induction false} NewestFirst<C(!new)>(es: seq<Event<C>>, i: nat, j: nat) returns (a: nat, b: nat)
    requires WellFormed(es) && Run(es).Some? && i < j < |Run(es).value.subs|
    ensures a < b < |es| && es[a] == Added(Run(es).value.subs[j]) && es[b] == Added(Run(es).value.subs[i])
  {
    hide WellFormed, Run, Without;
    if es == [] {
      NobodyAtFirst(es);
    }
    var front, last := es[..|es| - 1], es[|es| - 1];
    WellFormedFront(es);
    SubsStep(es);
    var s := Run(front).value;
    match last {
      case Added(c) =>
        if i == 0 {
          SubscribedIff(front, s.subs[j - 1]);
          assert s.subs[j - 1] in s.subs;
          a :| 0 <= a < |front| && front[a] == Added(s.subs[j - 1]);
          b := |front|;
        } else {
          a, b := NewestFirst(front, i - 1, j - 1);
        }
      case Closed(c) =>
        var i', j' := WithoutKeepsOrder(s.subs, c, i, j);
        a, b := NewestFirst(front, i', j');
      case Emitted(_) =>
        a, b := NewestFirst(front, i, j);
    }
  }

  // One event changes the channel only if it is an Emit while subscribed.
  lemma {:induction false} InboxStep<C(!new)>(es: seq<Event<C>>, c: C)
    requires WellFormed(es) && Run(es).Some? && es != []
    requires Added(c) in es[..|es| - 1]
    ensures
      var front, last := es[..|es| - 1], es[|es| - 1];
      && Run(front).Some? && c in Run(front).value.inbox && c in Run(es).value.inbox
      && Run(es).value.inbox[c] == Run(front).value.inbox[c] +
           if last.Emitted? && Closed(c) !in front then [last.op] else []
  {
    var front, last := es[..|es| - 1], es[|es| - 1];
    WellFormedFront(es);
    SubscribedIff(front, c);
    var i :| 0 <= i < |front| && front[i] == Added(c);
    assert es[i] == Added(c) && last != es[i];
  }

  lemma {:induction false} InboxNew<C(!new)>(es: seq<Event<C>>)
    requires Run(es).Some? && es != [] && es[|es| - 1].Added?
    ensures es[|es| - 1].c in Run(es).value.inbox && Run(es).value.inbox[es[|es| - 1].c] == []
  {
  }

  // A channel receives exactly the operations emitted between its AddSubscriber
  // and its close, in order, each once, whoever else is subscribed.
  lemma {:induction false} InboxExact<C(!new)>(es: seq<Event<C>>, c: C, a: nat, b: nat)
    requires WellFormed(es) && Run(es).Some?
    requires a < b <= |es| && es[a] == Added(c)
    requires Closed(c) !in es[..b] && (b < |es| ==> es[b] == Closed(c))
    ensures c in Run(es).value.inbox && Run(es).value.inbox[c] == Emits(es[a + 1..b])
  {
    hide Run, WellFormed;
    var front, last := es[..|es| - 1], es[|es| - 1];
    if a == |front| {
      InboxNew(es);
      assert es[a + 1..b] == [];
    } else {
      assert front[a] == es[a];
      InboxStep(es, c);
      WellFormedFront(es);
      if b == |es| {
        assert front == es[..b - 1] == front[..b - 1];
        assert forall e :: e in front ==> e in es[..b];
        InboxExact(front, c, a, b - 1);
        assert es[a + 1..b][..b - a - 2] == front[a + 1..b - 1];
      } else {
        assert front[..b] == es[..b];
        InboxExact(front, c, a, b);
        assert front[a + 1..b] == es[a + 1..b];
        assert b < |front| ==> front[b] == Closed(c);
      }
    }
  }

  // ---------------------------------------------------------------- the object

  class Channel {
    var buf: seq<Op>
    var closed: bool

    constructor ()
      ensures buf == [] && !closed
    {
      buf, closed := [], false;
    }
  }

  class Publisher {
    var toClose: seq<Channel>
    var subscribers: seq<Channel>

    // The state, over the channels in use.
    ghost function State(chans: set<Channel>): PubState<Channel>
      reads this, chans
    {
      PubState(subscribers, toClose, set c | c in chans && c.closed, map c | c in chans :: c.buf)
    }

    ghost predicate Valid(chans: set<Channel>)
      reads this, chans
    {
      && Distinct(subscribers)
      && (forall c :: c in subscribers ==> c in chans && c !in toClose && !c.closed)
      && (forall c :: c in toClose ==> c in chans)
    }

    constructor ()
      ensures Valid({}) && State({}) == PubState([], [], {}, map[])
    {
      toClose, subscribers := [], [];
    }

    method AddSubscriber(ch: Channel, ghost chans: set<Channel>)
      requires Valid(chans)
      requires ch !in chans && ch.buf == [] && !ch.closed
      modifies this
      ensures Valid(chans + {ch})
      ensures State(chans + {ch}) == Subscribed(old(State(chans)), ch)
    {
      subscribers := [ch] + subscribers;
    }

    method RemoveSubscriber(ch: Channel, ghost chans: set<Channel>)
      requires Valid(chans)
      requires ch in chans
      modifies this
      ensures Valid(chans)
      ensures State(chans) == Removed(old(State(chans)), ch)
    {
      subscribers := Without(subscribers, ch);
      toClose := toClose + [ch];
    }

    method CloseRemoved(ghost chans: set<Channel>) returns (panicked: bool)
      requires Valid(chans)
      modifies chans
      ensures panicked <==> EmitPanics(old(State(chans)))
      ensures forall c :: c in chans ==> c.buf == old(c.buf)
      ensures !panicked ==> forall c :: c in chans ==> (c.closed <==> old(c.closed) || c in toClose)
    {
      ghost var s := State(chans);
      for i := 0 to |toClose|
        invariant forall c :: c in chans ==> c.buf == old(c.buf)
        invariant forall c :: c in chans ==> (c.closed <==> old(c.closed) || c in toClose[..i])
        invariant Distinct(toClose[..i])
        invariant forall c :: c in toClose[..i] ==> !old(c.closed)
      {
        var ch := toClose[i];
        if ch.closed {
          panicked := true;
          if !old(ch.closed) {
            var j :| 0 <= j < i && toClose[j] == ch;
            assert !Distinct(s.toClose);
          } else {
            assert ch in s.toClose && ch in s.closed;
          }
          return;
        }
        ch.closed := true;
        assert toClose[..i + 1] == toClose[..i] + [ch];
      }
      assert toClose[..|toClose|] == toClose;
      panicked := false;
    }

    method SendAll(op: Op, ghost chans: set<Channel>)
      requires Distinct(subscribers) && forall c :: c in subscribers ==> c in chans
      modifies chans
      ensures forall c :: c in chans ==> c.closed == old(c.closed)
      ensures forall c :: c in chans ==> c.buf == if c in subscribers then old(c.buf) + [op] else old(c.buf)
    {
      for i := 0 to |subscribers|
        modifies chans
        invariant forall c :: c in chans ==> c.closed == old(c.closed)
        invariant forall c :: c in chans ==>
          c.buf == if c in subscribers[..i] then old(c.buf) + [op] else old(c.buf)
      {
        var ch := subscribers[i];
        assert ch !in subscribers[..i];
        ch.buf := ch.buf + [op];
        assert subscribers[..i + 1] == subscribers[..i] + [ch];
      }
      assert subscribers[..|subscribers|] == subscribers;
    }

    method Emit(op: Op, ghost chans: set<Channel>) returns (panicked: bool)
      requires Valid(chans)
      modifies this, chans
      ensures panicked <==> EmitPanics(old(State(chans)))
      ensures !panicked ==> Valid(chans) && State(chans) == Published(old(State(chans)), op)
    {
      hide Distinct, EmitPanics;
      ghost var before := State(chans);
      panicked := CloseRemoved(chans);
      if panicked {
        return;
      }
      toClose := [];
      SendAll(op, chans);
      assert State(chans).inbox == Published(before, op).inbox;
      assert State(chans).closed == Published(before, op).closed;
    }
  }
}
