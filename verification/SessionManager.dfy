// The session finder and the session manager as objects: the finder's maps
// live in memory, completed sessions are rows of a SQL table.
module SessionManager {
  import opened Wrappers
  import opened Sessions

  class SessionFinder {
    var activeSessions: map<string, Session>
    var lastHandshake: map<string, int>

    ghost function Value(): Finder
      reads this
    {
      Finder(activeSessions, lastHandshake)
    }

    constructor ()
      ensures Value() == NEW_FINDER
    {
      activeSessions, lastHandshake := map[], map[];
    }

    method SetHandshakeTime(peer: string, handshake: int) returns (newest: int)
      modifies this`lastHandshake
      ensures forall now :: newest == Newest(old(Value()), Report(now, peer, handshake))
      ensures lastHandshake == old(lastHandshake)[peer := newest]
    {
      if peer in lastHandshake && handshake < lastHandshake[peer] {
        assert lastHandshake[peer := lastHandshake[peer]] == lastHandshake;
        return lastHandshake[peer];
      }
      lastHandshake := lastHandshake[peer := handshake];
      newest := handshake;
    }

    method Analyze(now: int, peer: string, handshake: int) returns (done: Option<Session>)
      modifies this
      ensures (Value(), done) == Sessions.Analyze(old(Value()), Report(now, peer, handshake))
    {
      var ht := SetHandshakeTime(peer, handshake);
      assert ht == Newest(old(Value()), Report(now, peer, handshake));
      var active := now - SESSION_INACTIVITY_TIMEOUT < ht;
      if peer !in activeSessions && active {
        activeSessions := activeSessions[peer := Session(peer, ht, 0, true)];
      } else if peer in activeSessions && !active {
        var cur := activeSessions[peer];
        activeSessions := activeSessions - {peer};
        return Some(cur.(end := ht, active := false));
      }
      done := None;
    }
  }

  datatype PeerStats = PeerStats(peer: string, handshake: int)

  function Reports(now: int, dump: seq<PeerStats>): (rs: seq<Report>)
    ensures |rs| == |dump|
    ensures forall i :: 0 <= i < |dump| ==> rs[i] == Report(now, dump[i].peer, dump[i].handshake)
  {
    seq(|dump|, i requires 0 <= i < |dump| => Report(now, dump[i].peer, dump[i].handshake))
  }

  class Manager {
    const finder: SessionFinder
    var rows: seq<Session>

    constructor ()
      ensures fresh(finder) && finder.Value() == NEW_FINDER && rows == []
    {
      finder := new SessionFinder();
      rows := [];
    }

    // Analyse one dump in a transaction. `writes` is how many inserts the
    // database takes before one fails, `commits` whether the commit succeeds.
    // If nothing fails, exactly the sessions this dump completes are appended,
    // in order. Otherwise the rows are rolled back and the finder keeps what it
    // has done: the sessions completed so far are lost. A failing insert also
    // leaves the rest of the dump unseen.
    method ReceivePeerStats(now: int, dump: seq<PeerStats>, writes: nat, commits: bool) returns (ok: bool)
      modifies this, finder
      ensures ok <==> |Run(old(finder.Value()), Reports(now, dump)).1| <= writes && commits
      ensures rows == if ok then old(rows) + Run(old(finder.Value()), Reports(now, dump)).1 else old(rows)
      ensures |Run(old(finder.Value()), Reports(now, dump)).1| <= writes ==>
        finder.Value() == Run(old(finder.Value()), Reports(now, dump)).0
      ensures |Run(old(finder.Value()), Reports(now, dump)).1| > writes ==> exists n ::
        && 0 <= n < |dump|
        && |Run(old(finder.Value()), Reports(now, dump)[..n]).1| == writes
        && |Run(old(finder.Value()), Reports(now, dump)[..n + 1]).1| == writes + 1
        && finder.Value() == Run(old(finder.Value()), Reports(now, dump)[..n + 1]).0
    {
      var saved := rows;
      ghost var f, rs := finder.Value(), Reports(now, dump);
      for i := 0 to |dump|
        invariant finder.Value() == Run(f, rs[..i]).0
        invariant rows == old(rows) + Run(f, rs[..i]).1
        invariant |Run(f, rs[..i]).1| <= writes
      {
        assert rs[..i + 1][..i] == rs[..i];
        var done := finder.Analyze(now, dump[i].peer, dump[i].handshake);
        if done.Some? {
          if |rows| - |saved| == writes {
            MoreReports(f, rs, i + 1);
            rows := saved;
            return false;
          }
          rows := rows + [done.value];
        }
      }
      assert rs[..|dump|] == rs;
      if !commits {
        rows := saved;
      }
      ok := commits;
    }
  }

  lemma {:induction false} MoreReports(f: Finder, rs: seq<Report>, n: nat)
    requires n <= |rs|
    ensures |Run(f, rs[..n]).1| <= |Run(f, rs).1|
    decreases |rs| - n
  {
    if n < |rs| {
      assert rs[..n + 1][..n] == rs[..n];
      MoreReports(f, rs, n + 1);
    } else {
      assert rs[..n] == rs;
    }
  }

  // ---------------------------------------------------------------- the whole history

  datatype Dump = Dump(now: int, stats: seq<PeerStats>)

  // All reports of a run of dumps, in order of arrival.
  function AllReports(dumps: seq<Dump>): seq<Report> {
    if dumps == [] then []
    else AllReports(dumps[..|dumps| - 1]) + Reports(dumps[|dumps| - 1].now, dumps[|dumps| - 1].stats)
  }

  lemma {:induction false} RunConcat(f: Finder, a: seq<Report>, b: seq<Report>)
    ensures Run(f, a + b).0 == Run(Run(f, a).0, b).0
    ensures Run(f, a + b).1 == Run(f, a).1 + Run(Run(f, a).0, b).1
  {
    if b == [] {
      assert a + b == a;
    } else {
      RunConcat(f, a, b[..|b| - 1]);
      assert (a + b)[..|a + b| - 1] == a + b[..|b| - 1];
    }
  }

  // While transactions commit, the table holds every completed session exactly
  // once, in order, and the finder has seen every report.
  method ReceiveAll(dumps: seq<Dump>) returns (m: Manager)
    ensures m.rows == Run(NEW_FINDER, AllReports(dumps)).1
    ensures m.finder.Value() == Run(NEW_FINDER, AllReports(dumps)).0
  {
    m := new Manager();
    for i := 0 to |dumps|
      invariant fresh(m) && fresh(m.finder)
      invariant m.rows == Run(NEW_FINDER, AllReports(dumps[..i])).1
      invariant m.finder.Value() == Run(NEW_FINDER, AllReports(dumps[..i])).0
    {
      assert dumps[..i + 1][..i] == dumps[..i];
      var now, stats := dumps[i].now, dumps[i].stats;
      RunConcat(NEW_FINDER, AllReports(dumps[..i]), Reports(now, stats));
      CompletedBound(m.finder.Value(), Reports(now, stats));
      var ok := m.ReceivePeerStats(now, stats, |stats|, true);
    }
    assert dumps[..|dumps|] == dumps;
  }

  lemma {:induction false} CompletedBound(f: Finder, rs: seq<Report>)
    ensures |Run(f, rs).1| <= |rs|
  {
    if rs != [] {
      CompletedBound(f, rs[..|rs| - 1]);
    }
  }
}
