// When the order in which a dump lists its reports shows in a peer's sessions.
module SessionOrder {
  import opened Wrappers
  import opened Sessions

  // Sessions are kept under their own peer.
  predicate Keyed(f: Finder) {
    forall k :: k in f.active ==> f.active[k].peer == k
  }

  function FirstOf(rs: seq<Report>, peer: string): Option<Report> {
    if rs == [] then None
    else
      var front, r := FirstOf(rs[..|rs| - 1], peer), rs[|rs| - 1];
      if front.None? && r.peer == peer then Some(r) else front
  }

  // What the first report of an active peer completes.
  function FirstCompletes(f: Finder, first: Option<Report>, now: int, peer: string): seq<Session> {
    if first.Some? && peer in f.active && !Recent(now, Newest(f, first.value))
    then [f.active[peer].(end := Newest(f, first.value), active := false)] else []
  }

  // Of one dump only the first report of a peer can complete a session.
  lemma {:induction false} DumpCompletes(f: Finder, rs: seq<Report>, now: int, peer: string)
    requires Keyed(f) && forall r :: r in rs ==> r.now == now
    ensures Keyed(Run(f, rs).0)
    ensures Of(peer, Run(f, rs).1) == FirstCompletes(f, FirstOf(rs, peer), now, peer)
  {
    if rs != [] {
      hide Of, FirstCompletes, Keyed, Reported, Analyze;
      var front, r := rs[..|rs| - 1], rs[|rs| - 1];
      assert rs == front + [r] && r in rs;
      DumpCompletes(f, front, now, peer);
      FirstIsReported(f, front, peer);
      ActiveOutcome(f, front, now, peer);
      var (f', out) := Run(f, front);
      AnalyzeKeyed(f', r);
      ReportCompletes(f, f', out, FirstOf(front, peer), r, peer);
    }
  }

  // One report more: only the first one of the peer adds a session.
  lemma {:induction false} ReportCompletes(
    f: Finder, f': Finder, out: seq<Session>, first: Option<Report>, r: Report, peer: string)
    requires Keyed(f') && Of(peer, out) == FirstCompletes(f, first, r.now, peer)
    requires first.None? ==>
      && Open(f', peer) == Open(f, peer) && (peer in f'.last <==> peer in f.last)
      && (peer in f.last ==> f'.last[peer] == f.last[peer])
    requires first.Some? && peer in f'.active ==> peer in f'.last && Recent(r.now, f'.last[peer])
    ensures
      var done := Analyze(f', r).1;
      Of(peer, if done.Some? then out + [done.value] else out) ==
      FirstCompletes(f, if first.None? && r.peer == peer then Some(r) else first, r.now, peer)
  {
    hide Of;
    var done := Analyze(f', r).1;
    AnalyzeKeyed(f', r);
    if done.Some? {
      OfGrows(peer, out, done.value);
    }
    if r.peer == peer && first.Some? {
      RecentStays(f', r);
    } else if r.peer == peer {
      assert Newest(f', r) == Newest(f, r);
    }
  }

  lemma {:induction false} AnalyzeKeyed(f: Finder, r: Report)
    requires Keyed(f)
    ensures Keyed(Analyze(f, r).0)
    ensures Analyze(f, r).1.Some? ==> Analyze(f, r).1.value.peer == r.peer
  {
  }

  // A peer that is active because its newest handshake is recent stays active.
  lemma {:induction false} RecentStays(f: Finder, r: Report)
    requires r.peer in f.active ==> r.peer in f.last && Recent(r.now, f.last[r.peer])
    ensures Analyze(f, r).1.None?
  {
  }

  lemma {:induction false} FirstIsReported(f: Finder, rs: seq<Report>, peer: string)
    ensures FirstOf(rs, peer).Some? <==> Reported(rs, peer)
    ensures FirstOf(rs, peer).None? ==>
      && Open(Run(f, rs).0, peer) == Open(f, peer)
      && (peer in Run(f, rs).0.last <==> peer in f.last)
      && (peer in f.last ==> Run(f, rs).0.last[peer] == f.last[peer])
  {
    if rs != [] {
      var front, r := rs[..|rs| - 1], rs[|rs| - 1];
      assert rs == front + [r] && r in rs;
      FirstIsReported(f, front, peer);
      assert Reported(rs, peer) <==> Reported(front, peer) || r.peer == peer by {
        assert forall x :: x in front ==> x in rs;
      }
    }
  }

  // ---------------------------------------------------------------- the session it leaves open

  // The first report of the peer that brings a recent handshake.
  function FirstRecent(f: Finder, rs: seq<Report>, now: int, peer: string): Option<Report> {
    if rs == [] then None
    else
      var front, r := FirstRecent(f, rs[..|rs| - 1], now, peer), rs[|rs| - 1];
      if front.None? && r.peer == peer && Recent(now, Newest(f, r)) then Some(r) else front
  }

  // The open session stays if the first report is recent. Otherwise a new one
  // begins with the first recent report.
  function OpensWith(f: Finder, first: Option<Report>, recent: Option<Report>, now: int, peer: string): Option<Session> {
    if peer in f.active && (first.None? || Recent(now, Newest(f, first.value))) then Some(f.active[peer])
    else if recent.Some? then Some(Session(peer, Newest(f, recent.value), 0, true))
    else None
  }

  lemma {:induction false} DumpOpens(f: Finder, rs: seq<Report>, now: int, peer: string)
    requires forall r :: r in rs ==> r.now == now
    ensures Open(Run(f, rs).0, peer) == OpensWith(f, FirstOf(rs, peer), FirstRecent(f, rs, now, peer), now, peer)
  {
    if rs != [] {
      hide Reported, Analyze, OpensWith;
      var front, r := rs[..|rs| - 1], rs[|rs| - 1];
      assert rs == front + [r] && r in rs;
      DumpOpens(f, front, now, peer);
      FirstIsReported(f, front, peer);
      ActiveOutcome(f, front, now, peer);
      RunOutcome(f, front, peer);
      FirstRecentIsFirst(f, front, now, peer);
      ReportOpens(f, Run(f, front).0, FirstOf(front, peer), FirstRecent(f, front, now, peer), r, peer);
    } else {
      assert FirstRecent(f, rs, now, peer) == None;
    }
  }

  lemma {:induction false} FirstRecentIsFirst(f: Finder, rs: seq<Report>, now: int, peer: string)
    ensures FirstOf(rs, peer).None? ==> FirstRecent(f, rs, now, peer).None?
    ensures FirstRecent(f, rs, now, peer).Some? ==>
      var r := FirstRecent(f, rs, now, peer).value;
      r in rs && r.peer == peer && Recent(now, Newest(f, r))
    ensures FirstRecent(f, rs, now, peer).None? ==>
      forall r :: r in rs && r.peer == peer ==> !Recent(now, Newest(f, r))
  {
    if rs != [] {
      FirstRecentIsFirst(f, rs[..|rs| - 1], now, peer);
      assert rs == rs[..|rs| - 1] + [rs[|rs| - 1]];
    }
  }

  // One report more.
  lemma {:induction false} ReportOpens(
    f: Finder, f': Finder, first: Option<Report>, recent: Option<Report>, r: Report, peer: string)
    requires Open(f', peer) == OpensWith(f, first, recent, r.now, peer)
    requires first.None? ==>
      && recent.None? && (peer in f'.last <==> peer in f.last)
      && (peer in f.last ==> f'.last[peer] == f.last[peer])
    requires first.Some? ==>
      && peer in f'.last && (peer in f'.active <==> Recent(r.now, f'.last[peer]))
      && (peer in f.last ==> f.last[peer] <= f'.last[peer])
    ensures
      var mine := r.peer == peer;
      Open(Analyze(f', r).0, peer) ==
      OpensWith(f, if first.None? && mine then Some(r) else first,
                if recent.None? && mine && Recent(r.now, Newest(f, r)) then Some(r) else recent, r.now, peer)
  {
  }

  // ---------------------------------------------------------------- the order

  // Every order of the dump completes the same sessions of the peer and leaves
  // the same one open.
  ghost predicate SessionsOrderBlind(f: Finder, rs: seq<Report>, peer: string) {
    forall rs' :: multiset(rs') == multiset(rs) ==> SameSessions(f, rs', rs, peer)
  }

  ghost predicate SameSessions(f: Finder, rs': seq<Report>, rs: seq<Report>, peer: string) {
    && Of(peer, Run(f, rs').1) == Of(peer, Run(f, rs).1)
    && Open(Run(f, rs').0, peer) == Open(Run(f, rs).0, peer)
  }

  // Two reports that mean the same to the finder: for an active peer both are
  // recent or they bring the same newest handshake, for an inactive one they
  // bring the same newest handshake or one of them is not recent.
  predicate SameEffect(f: Finder, now: int, a: Report, b: Report) {
    || Newest(f, a) == Newest(f, b)
    || if a.peer in f.active then Recent(now, Newest(f, a)) && Recent(now, Newest(f, b))
       else !Recent(now, Newest(f, a)) || !Recent(now, Newest(f, b))
  }

  ghost predicate AllSameEffect(f: Finder, rs: seq<Report>, now: int, peer: string) {
    forall a, b :: a in rs && b in rs && a.peer == peer && b.peer == peer ==> SameEffect(f, now, a, b)
  }

  // The order of a dump does not show in a peer's sessions, completed or open,
  // if and only if any two of its reports have the same effect.
  lemma {:induction false} DumpOrderIff(f: Finder, rs: seq<Report>, now: int, peer: string)
    requires Keyed(f) && forall r :: r in rs ==> r.now == now
    ensures SessionsOrderBlind(f, rs, peer) <==> AllSameEffect(f, rs, now, peer)
  {
    hide Run, Of, FirstOf, FirstRecent, Keyed, SameEffect, SameSessions;
    if AllSameEffect(f, rs, now, peer) {
      forall rs' | multiset(rs') == multiset(rs) ensures SameSessions(f, rs', rs, peer) {
        OrderHidden(f, rs, rs', now, peer);
      }
    } else {
      var a, b :| a in rs && b in rs && a.peer == peer && b.peer == peer && !SameEffect(f, now, a, b);
      OrderShows(f, rs, now, peer, a, b);
    }
  }

  lemma {:induction false} OrderHidden(f: Finder, rs: seq<Report>, rs': seq<Report>, now: int, peer: string)
    requires Keyed(f) && (forall r :: r in rs ==> r.now == now) && multiset(rs') == multiset(rs)
    requires AllSameEffect(f, rs, now, peer)
    ensures SameSessions(f, rs', rs, peer)
  {
    hide Run, Of, FirstOf, FirstRecent, Keyed;
    SameReports(rs, rs');
    DumpCompletes(f, rs, now, peer);
    DumpCompletes(f, rs', now, peer);
    DumpOpens(f, rs, now, peer);
    DumpOpens(f, rs', now, peer);
    FirstListed(rs, peer);
    FirstListed(rs', peer);
    FirstIsReported(f, rs, peer);
    FirstIsReported(f, rs', peer);
    FirstRecentIsFirst(f, rs, now, peer);
    FirstRecentIsFirst(f, rs', now, peer);
    assert Reported(rs, peer) <==> Reported(rs', peer);
    SameFirsts(f, rs, rs', now, peer);
  }

  // Whatever comes first, it completes and opens the same.
  lemma {:induction false} SameFirsts(f: Finder, rs: seq<Report>, rs': seq<Report>, now: int, peer: string)
    requires AllSameEffect(f, rs, now, peer) && forall r :: r in rs <==> r in rs'
    requires FirstOf(rs, peer).Some? <==> FirstOf(rs', peer).Some?
    requires FirstOf(rs, peer).Some? ==> FirstOf(rs, peer).value in rs && FirstOf(rs, peer).value.peer == peer
    requires FirstOf(rs', peer).Some? ==> FirstOf(rs', peer).value in rs && FirstOf(rs', peer).value.peer == peer
    ensures FirstCompletes(f, FirstOf(rs, peer), now, peer) == FirstCompletes(f, FirstOf(rs', peer), now, peer)
    ensures OpensWith(f, FirstOf(rs, peer), FirstRecent(f, rs, now, peer), now, peer) ==
            OpensWith(f, FirstOf(rs', peer), FirstRecent(f, rs', now, peer), now, peer)
  {
    hide FirstOf, FirstRecent, AllSameEffect;
    FirstRecentIsFirst(f, rs, now, peer);
    FirstRecentIsFirst(f, rs', now, peer);
    var first, first' := FirstOf(rs, peer), FirstOf(rs', peer);
    var recent, recent' := FirstRecent(f, rs, now, peer), FirstRecent(f, rs', now, peer);
    if first.Some? {
      EffectOf(f, rs, now, peer, first.value, first'.value);
    }
    if recent.Some? && recent'.Some? {
      EffectOf(f, rs, now, peer, recent.value, recent'.value);
      EffectOf(f, rs, now, peer, first.value, recent.value);
    }
  }

  lemma {:induction false} EffectOf(f: Finder, rs: seq<Report>, now: int, peer: string, a: Report, b: Report)
    requires AllSameEffect(f, rs, now, peer) && a in rs && b in rs && a.peer == peer && b.peer == peer
    ensures SameEffect(f, now, a, b)
  {
  }

  lemma {:induction false} OrderShows(f: Finder, rs: seq<Report>, now: int, peer: string, a: Report, b: Report)
    requires Keyed(f) && (forall r :: r in rs ==> r.now == now)
    requires a in rs && b in rs && a.peer == peer && b.peer == peer && !SameEffect(f, now, a, b)
    ensures !SessionsOrderBlind(f, rs, peer)
  {
    hide Run, Of, FirstOf, FirstRecent, Keyed;
    var rs1 := PutFirst(f, rs, now, peer, a);
    var rs2 := PutFirst(f, rs, now, peer, b);
    DifferentEffects(f, now, peer, a, b);
    assert !SameSessions(f, rs1, rs, peer) || !SameSessions(f, rs2, rs, peer);
  }

  lemma {:induction false} DifferentEffects(f: Finder, now: int, peer: string, a: Report, b: Report)
    requires a.peer == b.peer == peer && !SameEffect(f, now, a, b)
    ensures peer in f.active ==> FirstCompletes(f, Some(a), now, peer) != FirstCompletes(f, Some(b), now, peer)
    ensures peer !in f.active ==> Recent(now, Newest(f, a)) && Recent(now, Newest(f, b)) && Newest(f, a) != Newest(f, b)
  {
    var s, s' := FirstCompletes(f, Some(a), now, peer), FirstCompletes(f, Some(b), now, peer);
    assert |s| == |s'| == 1 ==> s[0].end != s'[0].end;
  }

  lemma {:induction false} FirstListed(rs: seq<Report>, peer: string)
    ensures FirstOf(rs, peer).Some? ==> FirstOf(rs, peer).value in rs && FirstOf(rs, peer).value.peer == peer
  {
    if rs != [] {
      FirstListed(rs[..|rs| - 1], peer);
    }
  }

  // An order of the dump that begins with the given report.
  lemma {:induction false} PutFirst(f: Finder, rs: seq<Report>, now: int, peer: string, a: Report)
    returns (rs': seq<Report>)
    requires Keyed(f) && (forall r :: r in rs ==> r.now == now) && a in rs && a.peer == peer
    ensures multiset(rs') == multiset(rs) && Of(peer, Run(f, rs').1) == FirstCompletes(f, Some(a), now, peer)
    ensures peer !in f.active && Recent(now, Newest(f, a)) ==>
      Open(Run(f, rs').0, peer) == Some(Session(peer, Newest(f, a), 0, true))
  {
    hide Run, FirstOf, FirstRecent, Of, FirstCompletes, Keyed;
    var rest := Moved(rs, a);
    rs' := [a] + rest;
    SameReports(rs, rs');
    FirstStays(f, a, rest, now);
    DumpCompletes(f, rs', now, peer);
    DumpOpens(f, rs', now, peer);
  }

  lemma {:induction false} Moved(rs: seq<Report>, a: Report) returns (rest: seq<Report>)
    requires a in rs
    ensures multiset([a] + rest) == multiset(rs)
  {
    var i :| 0 <= i < |rs| && rs[i] == a;
    rest := rs[..i] + rs[i + 1..];
    assert rs == rs[..i] + [a] + rs[i + 1..];
  }

  lemma {:induction false} FirstStays(f: Finder, a: Report, rest: seq<Report>, now: int)
    ensures FirstOf([a] + rest, a.peer) == Some(a)
    ensures Recent(now, Newest(f, a)) ==> FirstRecent(f, [a] + rest, now, a.peer) == Some(a)
  {
    if rest == [] {
      assert [a] + rest == [a] && [a][..0] == [];
    } else {
      assert ([a] + rest)[..|rest|] == [a] + rest[..|rest| - 1];
      FirstStays(f, a, rest[..|rest| - 1], now);
    }
  }

  // ---------------------------------------------------------------- two dumps whose order shows

  // The sessions it completes can depend on the order.
  lemma {:induction false} DumpOrderChangesSessions()
    ensures
      var f := Finder(map["p" := Session("p", 0, 0, true)], map["p" := 0]);
      var now := SESSION_INACTIVITY_TIMEOUT;
      var stale, new_ := Report(now, "p", 0), Report(now, "p", now);
      Run(f, [stale, new_]).1 == [Session("p", 0, 0, false)] && Run(f, [new_, stale]).1 == []
  {
    var f := Finder(map["p" := Session("p", 0, 0, true)], map["p" := 0]);
    var now := SESSION_INACTIVITY_TIMEOUT;
    var stale, new_ := Report(now, "p", 0), Report(now, "p", now);
    var s := Session("p", 0, 0, false);
    var closed := Finder(map[], map["p" := 0]);
    var renewed := Finder(f.active, map["p" := now]);
    AnalyzeOnly(f, stale, closed, Some(s));
    AnalyzeOnly(closed, new_, Finder(map["p" := Session("p", now, 0, true)], map["p" := now]), None);
    AnalyzeOnly(f, new_, renewed, None);
    AnalyzeOnly(renewed, stale, renewed, None);
    RunGrows(f, [], stale);
    RunGrows(f, [stale], new_);
    RunGrows(f, [], new_);
    RunGrows(f, [new_], stale);
  }

  // So can the begin of the session it opens.
  lemma {:induction false} DumpOrderChangesBegin()
    ensures
      var one, two := Report(0, "p", 1), Report(0, "p", 2);
      && Open(Run(NEW_FINDER, [one, two]).0, "p") == Some(Session("p", 1, 0, true))
      && Open(Run(NEW_FINDER, [two, one]).0, "p") == Some(Session("p", 2, 0, true))
  {
    var one, two := Report(0, "p", 1), Report(0, "p", 2);
    hide Run, OpensWith;
    FirstStays(NEW_FINDER, one, [two], 0);
    FirstStays(NEW_FINDER, two, [one], 0);
    assert [one] + [two] == [one, two] && [two] + [one] == [two, one];
    DumpOpens(NEW_FINDER, [one, two], 0, "p");
    DumpOpens(NEW_FINDER, [two, one], 0, "p");
    OpensNew(one, two);
  }

  lemma {:induction false} OpensNew(one: Report, two: Report)
    requires one == Report(0, "p", 1) && two == Report(0, "p", 2)
    ensures OpensWith(NEW_FINDER, Some(one), Some(one), 0, "p") == Some(Session("p", 1, 0, true))
    ensures OpensWith(NEW_FINDER, Some(two), Some(two), 0, "p") == Some(Session("p", 2, 0, true))
  {
  }
}
