// Edge detection on handshake reports: a peer's session begins when its newest
// handshake is recent and ends when it no longer is. Reports come from several
// gateways, late and out of order. Times are nanoseconds.
module Sessions {
  import opened Wrappers

  const SESSION_INACTIVITY_TIMEOUT: int := 600_000_000_000

  datatype Session = Session(peer: string, begin: int, end: int, active: bool)

  datatype Report = Report(now: int, peer: string, handshake: int)

  datatype Finder = Finder(active: map<string, Session>, last: map<string, int>)

  const NEW_FINDER := Finder(map[], map[])

  // ---------------------------------------------------------------- one report

  // The newest handshake seen for a peer, this report included.
  function Newest(f: Finder, r: Report): int {
    if r.peer in f.last && r.handshake < f.last[r.peer] then f.last[r.peer] else r.handshake
  }

  predicate Recent(now: int, handshake: int) {
    now - SESSION_INACTIVITY_TIMEOUT < handshake
  }

  // The state after a report, and the session it completes, if any.
  function Analyze(f: Finder, r: Report): (Finder, Option<Session>) {
    var ht := Newest(f, r);
    var last := f.last[r.peer := ht];
    if r.peer !in f.active && Recent(r.now, ht) then
      (Finder(f.active[r.peer := Session(r.peer, ht, 0, true)], last), None)
    else if r.peer in f.active && !Recent(r.now, ht) then
      (Finder(f.active - {r.peer}, last), Some(f.active[r.peer].(end := ht, active := false)))
    else (Finder(f.active, last), None)
  }

  // ---------------------------------------------------------------- runs

  // The state after a run of reports, and the sessions completed, in order.
  function Run(f: Finder, rs: seq<Report>): (Finder, seq<Session>) {
    if rs == [] then (f, [])
    else
      var (f', out) := Run(f, rs[..|rs| - 1]);
      var (f'', done) := Analyze(f', rs[|rs| - 1]);
      (f'', if done.Some? then out + [done.value] else out)
  }

  function Of(peer: string, ss: seq<Session>): seq<Session> {
    if ss == [] then []
    else
      var front, last := Of(peer, ss[..|ss| - 1]), ss[|ss| - 1];
      if last.peer == peer then front + [last] else front
  }

  lemma {:induction false} OfGrows(peer: string, ss: seq<Session>, s: Session)
    ensures Of(peer, ss + [s]) == if s.peer == peer then Of(peer, ss) + [s] else Of(peer, ss)
  {
    assert (ss + [s])[..|ss|] == ss;
  }

  ghost predicate ClockForward(rs: seq<Report>) {
    forall i, j :: 0 <= i < j < |rs| ==> rs[i].now <= rs[j].now
  }

  // ---------------------------------------------------------------- linear history

  // Completed sessions follow one another, and the open one follows them all.
  ghost predicate Linear(h: seq<Session>, open: Option<Session>, strict: bool) {
    && (forall i :: 0 <= i < |h| ==> h[i].begin <= h[i].end && !h[i].active)
    && (forall i, j :: 0 <= i < j < |h| ==> Before(h[i], h[j], strict))
    && (open.Some? ==> open.value.active && forall i :: 0 <= i < |h| ==> Before(h[i], open.value, strict))
  }

  predicate Before(a: Session, b: Session, strict: bool) {
    if strict then a.end < b.begin else a.end <= b.begin
  }

  function Open(f: Finder, peer: string): Option<Session> {
    if peer in f.active then Some(f.active[peer]) else None
  }

  // What keeps a peer's history linear: nothing lies beyond its newest
  // handshake.
  ghost predicate PeerOk(f: Finder, h: seq<Session>, peer: string) {
    && Linear(h, Open(f, peer), false)
    && (peer in f.active ==> f.active[peer].peer == peer && peer in f.last && f.active[peer].begin <= f.last[peer])
    && (forall i :: 0 <= i < |h| ==> h[i].peer == peer && peer in f.last && h[i].end <= f.last[peer])
  }

  lemma {:induction false} StepKeepsPeerOk(f: Finder, h: seq<Session>, r: Report, peer: string)
    requires PeerOk(f, h, peer)
    ensures
      var (f', done) := Analyze(f, r);
      PeerOk(f', if done.Some? && r.peer == peer then h + [done.value] else h, peer)
  {
    var (f', done) := Analyze(f, r);
    if r.peer != peer {
      OtherPeerOk(f, h, r, peer);
    } else if done.Some? {
      var h' := h + [done.value];
      assert Linear(h', None, false);
    } else {
      assert Linear(h, Open(f', peer), false);
    }
  }

  lemma {:induction false} OtherPeerOk(f: Finder, h: seq<Session>, r: Report, peer: string)
    requires PeerOk(f, h, peer) && r.peer != peer
    ensures PeerOk(Analyze(f, r).0, h, peer)
  {
    hide Linear;
    var f' := Analyze(f, r).0;
    SameForOthers(f, r, peer);
    hide Analyze;
    assert Open(f', peer) == Open(f, peer);
  }

  // A report is about its own peer only.
  lemma {:induction false} SameForOthers(f: Finder, r: Report, peer: string)
    requires r.peer != peer
    ensures
      var f' := Analyze(f, r).0;
      && (peer in f'.active <==> peer in f.active) && (peer in f.active ==> f'.active[peer] == f.active[peer])
      && (peer in f'.last <==> peer in f.last) && (peer in f.last ==> f'.last[peer] == f.last[peer])
  {
  }

  // However stale or reordered the reports: every completed session begins
  // before it ends, and a peer's sessions follow one another, the open one last.
  lemma {:induction false} LinearHistory(rs: seq<Report>, peer: string)
    ensures
      var (f, out) := Run(NEW_FINDER, rs);
      Linear(Of(peer, out), Open(f, peer), false) && PeerOk(f, Of(peer, out), peer)
  {
    if rs != [] {
      var front, r := rs[..|rs| - 1], rs[|rs| - 1];
      LinearHistory(front, peer);
      HistoryGrows(front, r, peer);
      StepKeepsPeerOk(Run(NEW_FINDER, front).0, Of(peer, Run(NEW_FINDER, front).1), r, peer);
    }
  }

  lemma {:induction false} HistoryGrows(front: seq<Report>, r: Report, peer: string)
    ensures
      var (f, out) := Run(NEW_FINDER, front);
      var (f', done) := Analyze(f, r);
      && Run(NEW_FINDER, front + [r]).0 == f'
      && Of(peer, Run(NEW_FINDER, front + [r]).1) ==
         if done.Some? && r.peer == peer then Of(peer, out) + [done.value] else Of(peer, out)
  {
    var (f, out) := Run(NEW_FINDER, front);
    var done := Analyze(f, r).1;
    OwnSessions(front, r.peer);
    RunGrows(NEW_FINDER, front, r);
    if done.Some? {
      OfGrows(peer, out, done.value);
    }
  }

  lemma {:induction false} OwnSessions(rs: seq<Report>, peer: string)
    ensures
      var f := Run(NEW_FINDER, rs).0;
      peer in f.active ==> f.active[peer].peer == peer
  {
    if rs != [] {
      OwnSessions(rs[..|rs| - 1], peer);
    }
  }

  // ---------------------------------------------------------------- when sessions touch

  // The highest handshake reported for a peer.
  function Highest(rs: seq<Report>, peer: string): Option<int> {
    if rs == [] then None
    else
      var front, r := Highest(rs[..|rs| - 1], peer), rs[|rs| - 1];
      if r.peer != peer || (front.Some? && r.handshake < front.value) then front else Some(r.handshake)
  }

  // The peer's latest report left its highest handshake recent.
  predicate LatestRecent(rs: seq<Report>, peer: string) {
    if rs == [] then false
    else if rs[|rs| - 1].peer != peer then LatestRecent(rs[..|rs| - 1], peer)
    else Highest(rs, peer).Some? && Recent(rs[|rs| - 1].now, Highest(rs, peer).value)
  }

  // Report k of the peer finds its highest handshake, recent until then, recent no more.
  ghost predicate FallsAt(rs: seq<Report>, k: nat, peer: string) {
    k < |rs| && LatestRecent(rs[..k], peer) && !LatestRecent(rs[..k + 1], peer)
  }

  // After report k, and with no newer handshake, report j finds it recent again.
  ghost predicate Touch(rs: seq<Report>, k: nat, j: nat, peer: string) {
    && k < j < |rs| && FallsAt(rs, k, peer)
    && rs[j].peer == peer && LatestRecent(rs[..j + 1], peer)
    && Highest(rs[..k + 1], peer) == Highest(rs[..j + 1], peer)
  }

  ghost predicate Touches(rs: seq<Report>, peer: string) {
    exists k: nat, j: nat :: Touch(rs, k, j, peer)
  }

  // The finder's maps, read off the reports.
  lemma {:induction false} Tracks(rs: seq<Report>, peer: string)
    ensures
      var f := Run(NEW_FINDER, rs).0;
      && (peer in f.last <==> Highest(rs, peer).Some?)
      && (peer in f.last ==> Highest(rs, peer).value == f.last[peer])
      && (peer in f.active <==> LatestRecent(rs, peer))
  {
    if rs != [] {
      Tracks(rs[..|rs| - 1], peer);
    }
  }

  ghost predicate EndsWith(h: seq<Session>, end: int) {
    exists i :: 0 <= i < |h| && h[i].end == end
  }

  ghost predicate FallsFrom(rs: seq<Report>, peer: string, ht: int) {
    exists k: nat :: k < |rs| && FallsAt(rs, k, peer) && Highest(rs[..k + 1], peer) == Some(ht)
  }

  // A report more adds only itself to the falls and the touches.
  lemma {:induction false} FallsGrow(front: seq<Report>, r: Report, peer: string, ht: int)
    ensures FallsFrom(front + [r], peer, ht) <==>
      FallsFrom(front, peer, ht) || (FallsAt(front + [r], |front|, peer) && Highest(front + [r], peer) == Some(ht))
  {
    hide LatestRecent, Highest, FallsAt;
    var rs := front + [r];
    assert rs[..|front| + 1] == rs;
    forall k: nat | k < |front|
      ensures rs[..k + 1] == front[..k + 1] && (FallsAt(rs, k, peer) <==> FallsAt(front, k, peer))
    {
      FallsPrefix(front, r, k, peer);
    }
    if FallsFrom(front, peer, ht) {
      var k: nat :| k < |front| && FallsAt(front, k, peer) && Highest(front[..k + 1], peer) == Some(ht);
      assert FallsAt(rs, k, peer) && Highest(rs[..k + 1], peer) == Some(ht);
    }
    if FallsFrom(rs, peer, ht) {
      var k: nat :| k < |rs| && FallsAt(rs, k, peer) && Highest(rs[..k + 1], peer) == Some(ht);
      assert k < |front| ==> FallsAt(front, k, peer) && Highest(front[..k + 1], peer) == Some(ht);
    }
  }

  lemma {:induction false} TouchesGrow(front: seq<Report>, r: Report, peer: string)
    ensures Touches(front + [r], peer) <==>
      || Touches(front, peer)
      || (r.peer == peer && LatestRecent(front + [r], peer) && Highest(front + [r], peer).Some? &&
          FallsFrom(front, peer, Highest(front + [r], peer).value))
  {
    hide LatestRecent, Highest, FallsAt;
    var rs := front + [r];
    assert rs[..|front| + 1] == rs;
    forall k: nat | k < |front|
      ensures rs[..k + 1] == front[..k + 1] && (FallsAt(rs, k, peer) <==> FallsAt(front, k, peer))
    {
      FallsPrefix(front, r, k, peer);
    }
    forall k: nat, j: nat | j < |front| ensures Touch(rs, k, j, peer) <==> Touch(front, k, j, peer) {
      if k < j {
        assert rs[..j + 1] == front[..j + 1] && rs[..k + 1] == front[..k + 1];
      }
    }
    LastTouch(front, r, peer);
    if Touches(front, peer) {
      var k: nat, j: nat :| Touch(front, k, j, peer);
      assert Touch(rs, k, j, peer);
    }
    if Touches(rs, peer) {
      var k: nat, j: nat :| Touch(rs, k, j, peer);
      assert j < |front| ==> Touch(front, k, j, peer);
    }
  }

  lemma {:induction false} FallsPrefix(front: seq<Report>, r: Report, k: nat, peer: string)
    requires k < |front|
    ensures (front + [r])[..k + 1] == front[..k + 1]
    ensures FallsAt(front + [r], k, peer) <==> FallsAt(front, k, peer)
  {
    assert (front + [r])[..k] == front[..k] && (front + [r])[..k + 1] == front[..k + 1];
  }

  lemma {:induction false} LastTouch(front: seq<Report>, r: Report, peer: string)
    ensures (exists k: nat :: Touch(front + [r], k, |front|, peer)) <==>
      (r.peer == peer && LatestRecent(front + [r], peer) && Highest(front + [r], peer).Some? &&
       FallsFrom(front, peer, Highest(front + [r], peer).value))
  {
    hide LatestRecent, Highest, FallsAt;
    var rs := front + [r];
    assert rs[..|front| + 1] == rs;
    forall k: nat | k < |front|
      ensures rs[..k + 1] == front[..k + 1] && (FallsAt(rs, k, peer) <==> FallsAt(front, k, peer))
    {
      FallsPrefix(front, r, k, peer);
    }
    if k: nat :| Touch(rs, k, |front|, peer) {
      FallsKnown(front, k, peer);
    }
    if r.peer == peer && LatestRecent(rs, peer) && Highest(rs, peer).Some? &&
       FallsFrom(front, peer, Highest(rs, peer).value) {
      var k: nat :|
        k < |front| && FallsAt(front, k, peer) && Highest(front[..k + 1], peer) == Some(Highest(rs, peer).value);
      assert k < |front| by {
        FallsKnown(front, k, peer);
      }
      assert Touch(rs, k, |front|, peer);
    }
  }

  lemma {:induction false} FallsKnown(rs: seq<Report>, k: nat, peer: string)
    requires FallsAt(rs, k, peer)
    ensures k < |rs| && Highest(rs[..k + 1], peer).Some?
  {
    Tracks(rs[..k], peer);
    Tracks(rs[..k + 1], peer);
    LinearHistory(rs[..k], peer);
    assert rs[..k + 1][..k] == rs[..k];
  }

  // The completed sessions of a peer end at the handshakes it falls from.
  lemma {:induction false} EndsAreFalls(rs: seq<Report>, peer: string, end: int)
    ensures EndsWith(Of(peer, Run(NEW_FINDER, rs).1), end) <==> FallsFrom(rs, peer, end)
  {
    hide Run, Highest, LatestRecent, FallsAt;
    if rs == [] {
      NoFalls(peer, end);
    } else {
      var front, r := rs[..|rs| - 1], rs[|rs| - 1];
      assert rs == front + [r];
      EndsAreFalls(front, peer, end);
      FallsGrow(front, r, peer, end);
      HistoryGrows(front, r, peer);
      LastFall(front, r, peer);
      EndsGrow(Of(peer, Run(NEW_FINDER, front).1), peer, end);
    }
  }

  lemma {:induction false} NoFalls(peer: string, end: int)
    ensures !FallsFrom([], peer, end) && Run(NEW_FINDER, []).1 == []
  {
  }

  lemma {:induction false} EndsGrow(h: seq<Session>, peer: string, end: int)
    ensures forall s :: EndsWith(h + [s], end) <==> EndsWith(h, end) || s.end == end
  {
    forall s ensures EndsWith(h + [s], end) <==> EndsWith(h, end) || s.end == end {
      assert (h + [s])[|h|] == s;
      if EndsWith(h, end) {
        var i :| 0 <= i < |h| && h[i].end == end;
        assert (h + [s])[i].end == end;
      }
    }
  }

  // A report completes a session if and only if the peer falls, and there it ends.
  lemma {:induction false} LastFall(front: seq<Report>, r: Report, peer: string)
    ensures
      var done := Analyze(Run(NEW_FINDER, front).0, r).1;
      && (done.Some? && r.peer == peer <==> FallsAt(front + [r], |front|, peer))
      && (done.Some? && r.peer == peer ==> Highest(front + [r], peer) == Some(done.value.end))
  {
    var rs := front + [r];
    Tracks(front, peer);
    Tracks(rs, peer);
    RunGrows(NEW_FINDER, front, r);
    hide Run, Highest, LatestRecent;
    assert rs[..|front|] == front && rs[..|front| + 1] == rs;
  }

  // A peer's sessions keep strictly apart if and only if its highest handshake
  // is never found recent, then not, then recent again.
  lemma {:induction false} ApartIff(rs: seq<Report>, peer: string)
    ensures
      var (f, out) := Run(NEW_FINDER, rs);
      Linear(Of(peer, out), Open(f, peer), true) <==> !Touches(rs, peer)
  {
    hide Highest, LatestRecent, FallsFrom, Touches, EndsWith, Linear, Run, Of, Analyze, PeerOk, Newest;
    if rs == [] {
      NothingApart(peer);
    } else {
      var front, r := rs[..|rs| - 1], rs[|rs| - 1];
      assert rs == front + [r];
      ApartIff(front, peer);
      var (f, out) := Run(NEW_FINDER, front);
      LinearHistory(front, peer);
      HistoryGrows(front, r, peer);
      TouchesGrow(front, r, peer);
      if r.peer == peer {
        NewestIsHighest(front, r);
        EndsAreFalls(front, peer, Newest(f, r));
      }
      ApartStep(f, Of(peer, out), r, peer);
    }
  }

  lemma {:induction false} NewestIsHighest(front: seq<Report>, r: Report)
    ensures
      var rs, ht := front + [r], Newest(Run(NEW_FINDER, front).0, r);
      Highest(rs, r.peer) == Some(ht) && (LatestRecent(rs, r.peer) <==> Recent(r.now, ht))
  {
    Tracks(front, r.peer);
    assert (front + [r])[..|front|] == front;
  }

  lemma {:induction false} NothingApart(peer: string)
    ensures Linear(Of(peer, Run(NEW_FINDER, []).1), Open(Run(NEW_FINDER, []).0, peer), true) && !Touches([], peer)
  {
  }

  // One report breaks the distance if and only if it finds recent a handshake
  // that a completed session ended with.
  lemma {:induction false} ApartStep(f: Finder, h: seq<Session>, r: Report, peer: string)
    requires PeerOk(f, h, peer)
    ensures
      var (f', done) := Analyze(f, r);
      Linear(if done.Some? && r.peer == peer then h + [done.value] else h, Open(f', peer), true) <==>
        && Linear(h, Open(f, peer), true)
        && !(r.peer == peer && Recent(r.now, Newest(f, r)) && EndsWith(h, Newest(f, r)))
  {
    var (f', done) := Analyze(f, r);
    var h' := if done.Some? && r.peer == peer then h + [done.value] else h;
    var ht := Newest(f, r);
    if r.peer == peer && Recent(r.now, ht) && EndsWith(h, ht) {
      var i :| 0 <= i < |h| && h[i].end == ht;
      assert Open(f', peer).Some? && Open(f', peer).value.begin <= ht;
      assert !Before(h[i], Open(f', peer).value, true);
    } else if Linear(h, Open(f, peer), true) {
      assert Linear(h', Open(f', peer), true);
    } else {
      StaysTouching(f, h, r, peer);
    }
  }

  lemma {:induction false} StaysTouching(f: Finder, h: seq<Session>, r: Report, peer: string)
    requires PeerOk(f, h, peer) && !Linear(h, Open(f, peer), true)
    ensures
      var (f', done) := Analyze(f, r);
      !Linear(if done.Some? && r.peer == peer then h + [done.value] else h, Open(f', peer), true)
  {
    var (f', done) := Analyze(f, r);
    var h' := if done.Some? && r.peer == peer then h + [done.value] else h;
    if i, j :| 0 <= i < j < |h| && !Before(h[i], h[j], true) {
      assert h'[i] == h[i] && h'[j] == h[j];
    } else {
      var i :| Open(f, peer).Some? && 0 <= i < |h| && !Before(h[i], Open(f, peer).value, true);
      if done.Some? && r.peer == peer {
        assert h'[i] == h[i] && !Before(h'[i], h'[|h|], true);
      }
    }
  }

  // If the clock never goes back, sessions keep apart.
  lemma {:induction false} ClockForwardApart(rs: seq<Report>, peer: string)
    requires ClockForward(rs)
    ensures Linear(Of(peer, Run(NEW_FINDER, rs).1), Open(Run(NEW_FINDER, rs).0, peer), true)
  {
    hide Linear;
    ApartIff(rs, peer);
    forall k: nat, j: nat | k < j < |rs| ensures !Touch(rs, k, j, peer) {
      NoTouch(rs, k, j, peer);
    }
  }

  lemma {:induction false} NoTouch(rs: seq<Report>, k: nat, j: nat, peer: string)
    requires ClockForward(rs) && k < j < |rs|
    ensures !Touch(rs, k, j, peer)
  {
    assert rs[..k + 1][..k] == rs[..k];
    assert rs[k].now <= rs[j].now;
  }

  // With a clock that goes back, two sessions can touch.
  lemma {:induction false} ClockBackTouches()
    ensures
      var rs := [Report(0, "p", 0), Report(SESSION_INACTIVITY_TIMEOUT, "p", 0), Report(0, "p", 0)];
      var (f, out) := Run(NEW_FINDER, rs);
      && Of("p", out) == [Session("p", 0, 0, false)] && Open(f, "p") == Some(Session("p", 0, 0, true))
      && !Linear(Of("p", out), Open(f, "p"), true)
  {
    assert Run(NEW_FINDER, []) == (NEW_FINDER, []) && Of("p", []) == [];
    hide Run, Analyze, Linear, Of;
    var r0, r1 := Report(0, "p", 0), Report(SESSION_INACTIVITY_TIMEOUT, "p", 0);
    var s := Session("p", 0, 0, false);
    var f1 := Finder(map["p" := s.(active := true)], map["p" := 0]);
    var f2 := Finder(map[], map["p" := 0]);
    AnalyzeOnly(NEW_FINDER, r0, f1, None);
    AnalyzeOnly(f1, r1, f2, Some(s));
    AnalyzeOnly(f2, r0, f1, None);
    RunGrows(NEW_FINDER, [], r0);
    RunGrows(NEW_FINDER, [r0], r1);
    RunGrows(NEW_FINDER, [r0, r1], r0);
    assert [r0, r1] + [r0] == [r0, r1, r0] && [r0] + [r1] == [r0, r1] && [] + [r0] == [r0];
    OfGrows("p", [], s);
    assert [] + [s] == [s];
    TouchingPair(s, s.(active := true));
  }

  lemma {:induction false} TouchingPair(s: Session, open: Session)
    requires s.end == open.begin
    ensures !Linear([s], Some(open), true)
  {
    assert !Before([s][0], open, true);
  }

  lemma {:induction false} RunGrows(f: Finder, front: seq<Report>, r: Report)
    ensures
      var (f', out) := Run(f, front);
      var (f'', done) := Analyze(f', r);
      Run(f, front + [r]) == (f'', if done.Some? then out + [done.value] else out)
  {
    assert (front + [r])[..|front|] == front;
  }

  // A report that is about the only peer there is.
  lemma {:induction false} AnalyzeOnly(f: Finder, r: Report, f': Finder, done: Option<Session>)
    requires f.active.Keys <= {r.peer} && f.last.Keys <= {r.peer} && f'.last == map[r.peer := Newest(f, r)]
    requires
      var ht := Newest(f, r);
      if r.peer !in f.active && Recent(r.now, ht) then
        f'.active == map[r.peer := Session(r.peer, ht, 0, true)] && done == None
      else if r.peer in f.active && !Recent(r.now, ht) then
        f'.active == map[] && done == Some(f.active[r.peer].(end := ht, active := false))
      else f'.active == f.active && done == None
    ensures Analyze(f, r) == (f', done)
  {
    assert f.last[r.peer := Newest(f, r)] == f'.last;
    assert r.peer in f.active ==> f.active - {r.peer} == map[];
  }

  // ---------------------------------------------------------------- the timeout

  // In numbers: a peer is active up to and not including 600 seconds after its
  // newest handshake. Two reports of one handshake make a session, which begins
  // and ends with it, if and only if the first comes before that and the second
  // does not.
  lemma {:induction false} TimeoutEdge(peer: string, handshake: int, first: int, second: int)
    ensures
      var rs := [Report(first, peer, handshake), Report(second, peer, handshake)];
      var (f, out) := Run(NEW_FINDER, rs);
      && (peer in Run(NEW_FINDER, rs[..1]).0.active <==> first - handshake < 600_000_000_000)
      && (peer in f.active <==> second - handshake < 600_000_000_000)
      && out == (if first - handshake < 600_000_000_000 <= second - handshake
                 then [Session(peer, handshake, handshake, false)] else [])
  {
    var a, b := Report(first, peer, handshake), Report(second, peer, handshake);
    assert Run(NEW_FINDER, []) == (NEW_FINDER, []);
    RunGrows(NEW_FINDER, [], a);
    RunGrows(NEW_FINDER, [a], b);
    assert [] + [a] == [a] && [a] + [b] == [a, b] && [a, b][..1] == [a];
  }

  // ---------------------------------------------------------------- conservation

  datatype Edge = Up | Down

  // The edges of one peer, in order.
  function Edges(f: Finder, rs: seq<Report>, peer: string): seq<Edge> {
    if rs == [] then []
    else
      var front := Edges(f, rs[..|rs| - 1], peer);
      var before, after := Run(f, rs[..|rs| - 1]).0, Run(f, rs).0;
      if peer !in before.active && peer in after.active then front + [Up]
      else if peer in before.active && peer !in after.active then front + [Down]
      else front
  }

  function Count(es: seq<Edge>, e: Edge): nat {
    if es == [] then 0 else Count(es[..|es| - 1], e) + if es[|es| - 1] == e then 1 else 0
  }

  // Edges alternate, up first. Every session opened is completed or still open:
  // one completed session for each down edge.
  lemma {:induction false} SessionsConserved(rs: seq<Report>, peer: string)
    ensures
      var (f, out) := Run(NEW_FINDER, rs);
      var es := Edges(NEW_FINDER, rs, peer);
      && (forall i :: 0 <= i < |es| ==> es[i] == if i % 2 == 0 then Up else Down)
      && (peer in f.active <==> |es| % 2 == 1)
      && Count(es, Down) == |Of(peer, out)|
      && Count(es, Up) == |Of(peer, out)| + if peer in f.active then 1 else 0
  {
    EdgesAlternate(rs, peer);
    EdgesComplete(rs, peer);
    CountAlternating(Edges(NEW_FINDER, rs, peer));
  }

  lemma {:induction false} EdgesAlternate(rs: seq<Report>, peer: string)
    ensures
      var es := Edges(NEW_FINDER, rs, peer);
      && (forall i :: 0 <= i < |es| ==> es[i] == if i % 2 == 0 then Up else Down)
      && (peer in Run(NEW_FINDER, rs).0.active <==> |es| % 2 == 1)
  {
    hide Analyze;
    if rs != [] {
      EdgesAlternate(rs[..|rs| - 1], peer);
    }
  }

  // A session is completed at each down edge, and only there.
  lemma {:induction false} EdgesComplete(rs: seq<Report>, peer: string)
    ensures Count(Edges(NEW_FINDER, rs, peer), Down) == |Of(peer, Run(NEW_FINDER, rs).1)|
  {
    if rs != [] {
      var front, r := rs[..|rs| - 1], rs[|rs| - 1];
      EdgesComplete(front, peer);
      var (f, out) := Run(NEW_FINDER, front);
      var es := Edges(NEW_FINDER, front, peer);
      assert (es + [Up])[..|es|] == es && (es + [Down])[..|es|] == es;
      OwnSessions(front, r.peer);
      var (f', done) := Analyze(f, r);
      DownEdge(f, r, peer);
      hide Analyze;
      assert Run(NEW_FINDER, rs).0 == f';
      if done.Some? {
        OfGrows(peer, out, done.value);
      }
    }
  }

  lemma {:induction false} DownEdge(f: Finder, r: Report, peer: string)
    requires r.peer in f.active ==> f.active[r.peer].peer == r.peer
    ensures
      var (f', done) := Analyze(f, r);
      peer in f.active && peer !in f'.active <==> done.Some? && done.value.peer == peer
  {
  }

  lemma {:induction false} CountAlternating(es: seq<Edge>)
    requires forall i :: 0 <= i < |es| ==> es[i] == if i % 2 == 0 then Up else Down
    ensures Count(es, Down) == |es| / 2 && Count(es, Up) == |es| - |es| / 2
  {
    if es != [] {
      CountAlternating(es[..|es| - 1]);
    }
  }

  // ---------------------------------------------------------------- one dump, any order

  // The newest handshake of a peer in a list of reports, from some start.
  ghost predicate IsNewest(f: Finder, rs: seq<Report>, peer: string, ht: int) {
    && ((peer in f.last && ht == f.last[peer]) || exists r :: r in rs && r.peer == peer && r.handshake == ht)
    && (peer in f.last ==> f.last[peer] <= ht)
    && (forall r :: r in rs && r.peer == peer ==> r.handshake <= ht)
  }

  ghost predicate Reported(rs: seq<Report>, peer: string) {
    exists r :: r in rs && r.peer == peer
  }

  // What the finder keeps of a peer after a run: the maximum of all it has
  // seen, and, after reports taken at one time, an open session if and only
  // if that maximum is recent.
  lemma {:induction false} RunOutcome(f: Finder, rs: seq<Report>, peer: string)
    ensures
      var f' := Run(f, rs).0;
      && (peer in f'.last <==> peer in f.last || Reported(rs, peer))
      && (peer in f'.last ==> IsNewest(f, rs, peer, f'.last[peer]))
  {
    if rs != [] {
      var front, r := rs[..|rs| - 1], rs[|rs| - 1];
      assert rs == front + [r];
      RunOutcome(f, front, peer);
      assert Reported(rs, peer) <==> Reported(front, peer) || r.peer == peer by {
        assert r in rs;
        assert forall x :: x in front ==> x in rs;
      }
      var f1, f2 := Run(f, front).0, Run(f, rs).0;
      if peer in f2.last {
        NewestGrows(f, front, r, peer, f1, f2);
      }
    }
  }

  lemma {:induction false} NewestGrows(f: Finder, front: seq<Report>, r: Report, peer: string, f1: Finder, f2: Finder)
    requires f2 == Analyze(f1, r).0 && peer in f2.last
    requires peer in f1.last <==> peer in f.last || Reported(front, peer)
    requires peer in f1.last ==> IsNewest(f, front, peer, f1.last[peer])
    ensures IsNewest(f, front + [r], peer, f2.last[peer])
  {
    var rs := front + [r];
    assert r in rs;
    assert forall x :: x in rs <==> x in front || x == r;
    if r.peer != peer {
      assert f2.last[peer] == f1.last[peer];
    } else if peer !in f1.last {
      assert forall x :: x in front ==> x.peer != peer;
    }
  }

  lemma {:induction false} ActiveOutcome(f: Finder, rs: seq<Report>, now: int, peer: string)
    requires forall r :: r in rs ==> r.now == now
    ensures
      var f' := Run(f, rs).0;
      peer in f'.active <==>
        if Reported(rs, peer) then peer in f'.last && Recent(now, f'.last[peer]) else peer in f.active
  {
    if rs != [] {
      var front, r := rs[..|rs| - 1], rs[|rs| - 1];
      assert rs == front + [r];
      assert r in rs;
      ActiveOutcome(f, front, now, peer);
      assert Reported(rs, peer) <==> Reported(front, peer) || r.peer == peer by {
        assert forall x :: x in front ==> x in rs;
      }
    }
  }

  // Any order of one dump leaves the same handshakes and the same peers active.
  lemma {:induction false} DumpOrderBlind(f: Finder, rs1: seq<Report>, rs2: seq<Report>, now: int)
    requires multiset(rs1) == multiset(rs2)
    requires forall r :: r in rs1 ==> r.now == now
    ensures Run(f, rs1).0.last == Run(f, rs2).0.last
    ensures Run(f, rs1).0.active.Keys == Run(f, rs2).0.active.Keys
  {
    hide Run;
    var f1, f2 := Run(f, rs1).0, Run(f, rs2).0;
    SameReports(rs1, rs2);
    forall peer
      ensures peer in f1.last <==> peer in f2.last
      ensures peer in f1.last ==> f1.last[peer] == f2.last[peer]
      ensures peer in f1.active <==> peer in f2.active
    {
      RunOutcome(f, rs1, peer);
      RunOutcome(f, rs2, peer);
      assert Reported(rs1, peer) <==> Reported(rs2, peer);
      if peer in f1.last {
        NewestUnique(f, rs1, rs2, peer, f1.last[peer], f2.last[peer]);
      }
      ActiveOutcome(f, rs1, now, peer);
      ActiveOutcome(f, rs2, now, peer);
    }
    assert f1.last == f2.last;
  }

  lemma {:induction false} SameReports(rs1: seq<Report>, rs2: seq<Report>)
    requires multiset(rs1) == multiset(rs2)
    ensures forall r :: r in rs1 <==> r in rs2
  {
    forall r ensures r in rs1 <==> r in rs2 {
      assert r in multiset(rs1) <==> r in multiset(rs2);
    }
  }

  lemma {:induction false} NewestUnique(f: Finder, rs1: seq<Report>, rs2: seq<Report>, peer: string, a: int, b: int)
    requires forall r :: r in rs1 <==> r in rs2
    requires IsNewest(f, rs1, peer, a) && IsNewest(f, rs2, peer, b)
    ensures a == b
  {
  }
}
