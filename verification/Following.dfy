// The follow loop: subscribe after the local sequence, fall back to one
// snapshot if that is past the source's horizon, then apply what arrives; and
// the outer loop that starts again when the stream ends.
module Following {
  import opened Wrappers
  import opened Tables
  import opened LogStore
  import opened Snapshots
  import opened Datastore
  import PubSub

  // What one call meets: the source's state, or the error of the transport,
  // when Subscribe, Snapshot and the second Subscribe are served; then the
  // operations emitted while the stream is open, how many of all that is sent
  // arrive before it ends, and whether it ends because the caller gives up.
  datatype Source = Source(
    first: Result<Store, Error>, snap: Result<Snapshot, Error>, second: Result<Store, Error>,
    live: seq<Op>, arrived: nat, cancelled: bool)

  datatype Outcome =
    | StreamEnded
    | Cancelled
    | SubscriptionError(error: Error)
    | SnapshotError(error: Error)
    | LoadError(error: Error)
    | ApplyError(seqNum: nat, error: Error)

  function SubscribeAt(at: Result<Store, Error>, start: nat): Result<seq<Op>, Error> {
    match at
    case Err(e) => Err(e)
    case Ok(s) => if start > s.seqNum + 1 then Err(Horizon) else Ok(Since(s.log, start))
  }

  function Received(preload: seq<Op>, src: Source): seq<Op> {
    var stream := preload + src.live;
    if src.arrived <= |stream| then stream[..src.arrived] else stream
  }

  function Ending(src: Source, d: Delivery): Outcome {
    match d.failed
    case Some(f) => ApplyError(f.seqNum, f.error)
    case None => if src.cancelled then Cancelled else StreamEnded
  }

  function Consume(s: Store, preload: seq<Op>, src: Source): (Store, Outcome) {
    var d := Deliver(s, Received(preload, src));
    (d.store, Ending(src, d))
  }

  function Retry(s: Store, snap: Snapshot, src: Source): (Store, Outcome) {
    match SinkLoad(s, snap)
    case Err(e) => (s, LoadError(e))
    case Ok(s') =>
      match SubscribeAt(src.second, snap.seqNum + 1)
      case Err(e) => (s', SubscriptionError(e))
      case Ok(preload) => Consume(s', preload, src)
  }

  predicate PastHorizon(s: Store, src: Source) {
    SubscribeAt(src.first, s.seqNum + 1) == Err(Horizon)
  }

  function FollowOnce(s: Store, src: Source): (Store, Outcome) {
    match SubscribeAt(src.first, s.seqNum + 1)
    case Ok(preload) => Consume(s, preload, src)
    case Err(e) =>
      if e != Horizon then (s, SubscriptionError(e))
      else
        match src.snap
        case Err(e') => (s, SnapshotError(e'))
        case Ok(snap) => Retry(s, snap, src)
  }

  // ---------------------------------------------------------------- the loops

  // Nobody has closed one of the sink's subscriptions twice.
  ghost predicate Ready(dst: Database)
    reads dst, dst.pubsub, dst.chans
  {
    dst.Valid() && !PubSub.EmitPanics(dst.Feed())
  }

  method ApplyStream(dst: Database, ops: seq<Op>) returns (failed: Option<Failure>)
    requires Ready(dst)
    modifies dst, dst.pubsub, dst.chans
    ensures Ready(dst) && dst.chans == old(dst.chans)
    ensures Delivery(dst.State(), failed) == Deliver(old(dst.State()), ops)
  {
    for i := 0 to |ops|
      modifies dst, dst.pubsub, dst.chans
      invariant Ready(dst) && dst.chans == old(dst.chans)
      invariant Delivery(dst.State(), None) == Deliver(old(dst.State()), ops[..i])
    {
      assert ops[..i + 1][..i] == ops[..i];
      var r, panicked := dst.Apply(ops[i], true, true);
      if r.Err? {
        DeliveryStops(old(dst.State()), ops, i + 1);
        return Some(Failure(ops[i].seqNum, r.error));
      }
    }
    assert ops[..|ops|] == ops;
    failed := None;
  }

  // One attempt. It asks for at most one snapshot, and exactly when the first
  // Subscribe reports the horizon.
  method DoFollow(src: Source, dst: Database) returns (outcome: Outcome, snapshots: nat)
    requires Ready(dst)
    modifies dst, dst.pubsub, dst.chans
    ensures Ready(dst) && dst.chans == old(dst.chans)
    ensures (dst.State(), outcome) == FollowOnce(old(dst.State()), src)
    ensures snapshots == if PastHorizon(old(dst.State()), src) then 1 else 0
  {
    hide Since, Deliver, SinkApply, SinkLoad, PubSub.EmitPanics, Received;
    snapshots := 0;
    var start := dst.LatestSequence();
    var restartFromSnapshot := true;
    var preload := [];
    while true
      invariant Ready(dst) && dst.chans == old(dst.chans)
      invariant restartFromSnapshot ==>
        snapshots == 0 && start == old(dst.seqNum) && dst.State() == old(dst.State())
      invariant !restartFromSnapshot ==>
        && snapshots == 1 && PastHorizon(old(dst.State()), src)
        && src.snap.Ok? && start == src.snap.value.seqNum
        && SinkLoad(old(dst.State()), src.snap.value) == Ok(dst.State())
      decreases restartFromSnapshot
    {
      var sub := SubscribeAt(if restartFromSnapshot then src.first else src.second, start + 1);
      if sub == Err(Horizon) && restartFromSnapshot {
        snapshots := snapshots + 1;
        if src.snap.Err? {
          return SnapshotError(src.snap.error), snapshots;
        }
        var loaded := dst.LoadSnapshot(src.snap.value);
        if loaded.Err? {
          return LoadError(loaded.error), snapshots;
        }
        start := src.snap.value.seqNum;
        restartFromSnapshot := false;
        continue;
      }
      if sub.Err? {
        return SubscriptionError(sub.error), snapshots;
      }
      preload := sub.value;
      break;
    }
    var failed := ApplyStream(dst, Received(preload, src));
    outcome := if failed.Some? then ApplyError(failed.value.seqNum, failed.value.error)
               else if src.cancelled then Cancelled else StreamEnded;
  }

  // Start again after every stream that ends without an error.
  function FollowAll(s: Store, rounds: seq<Source>): (Store, Outcome) {
    if rounds == [] then (s, StreamEnded)
    else
      match FollowAll(s, rounds[..|rounds| - 1])
      case (s', StreamEnded) => FollowOnce(s', rounds[|rounds| - 1])
      case stopped => stopped
  }

  lemma {:induction false} FollowingStops(s: Store, rounds: seq<Source>, n: nat)
    requires n <= |rounds|
    requires FollowAll(s, rounds[..n]).1 != StreamEnded
    ensures FollowAll(s, rounds) == FollowAll(s, rounds[..n])
    decreases |rounds| - n
  {
    if n < |rounds| {
      assert rounds[..n + 1][..n] == rounds[..n];
      FollowingStops(s, rounds, n + 1);
    } else {
      assert rounds[..n] == rounds;
    }
  }

  method Follow(rounds: seq<Source>, dst: Database) returns (outcome: Outcome)
    requires Ready(dst)
    modifies dst, dst.pubsub, dst.chans
    ensures Ready(dst) && dst.chans == old(dst.chans)
    ensures (dst.State(), outcome) == FollowAll(old(dst.State()), rounds)
  {
    for i := 0 to |rounds|
      modifies dst, dst.pubsub, dst.chans
      invariant Ready(dst) && dst.chans == old(dst.chans)
      invariant (dst.State(), StreamEnded) == FollowAll(old(dst.State()), rounds[..i])
    {
      assert rounds[..i + 1][..i] == rounds[..i];
      var snapshots;
      outcome, snapshots := DoFollow(rounds[i], dst);
      if outcome != StreamEnded {
        FollowingStops(old(dst.State()), rounds, i + 1);
        return;
      }
    }
    assert rounds[..|rounds|] == rounds;
    outcome := StreamEnded;
  }

  // ---------------------------------------------------------------- how it ends

  // The first Subscribe is past the horizon if and only if the source says so,
  // or the sink is ahead of it.
  lemma {:induction false} PastHorizonIff(s: Store, src: Source)
    ensures PastHorizon(s, src) <==>
      src.first == Err(Horizon) || (src.first.Ok? && src.first.value.seqNum < s.seqNum)
  {
  }

  // Which errors one attempt ends with, and what the sink then holds.
  lemma {:induction false} FollowErrors(s: Store, src: Source, e: Error)
    ensures
      var (s', outcome) := FollowOnce(s, src);
      var ahead := src.first == Err(Horizon) || (src.first.Ok? && src.first.value.seqNum < s.seqNum);
      && (outcome == SnapshotError(e) <==> ahead && src.snap == Err(e))
      && (outcome == LoadError(e) <==> ahead && src.snap.Ok? && SinkLoad(s, src.snap.value) == Err(e))
      && (outcome == SubscriptionError(e) <==>
          || (src.first == Err(e) && e != Horizon)
          || (&& ahead && src.snap.Ok? && SinkLoad(s, src.snap.value).Ok?
              && (|| src.second == Err(e)
                  || (e == Horizon && src.second.Ok? && src.second.value.seqNum < src.snap.value.seqNum))))
      && (outcome.SnapshotError? || outcome.LoadError? || (outcome.SubscriptionError? && !ahead) ==> s' == s)
      && (outcome.SubscriptionError? && ahead ==> src.snap.Ok? && SinkLoad(s, src.snap.value) == Ok(s'))
      && (outcome == Cancelled ==> src.cancelled) && (outcome == StreamEnded ==> !src.cancelled)
  {
    hide Since, SinkLoad, Deliver, Received;
  }

  // The loop ends in the first round whose stream does not end by itself, with
  // the outcome and the sink of that round; if there is none, it has run them all.
  lemma {:induction false} FollowEnds(s: Store, rounds: seq<Source>, n: nat)
    requires n < |rounds|
    requires forall i :: 0 <= i < n ==> FollowOnce(FollowAll(s, rounds[..i]).0, rounds[i]).1 == StreamEnded
    ensures FollowAll(s, rounds[..n + 1]) == FollowOnce(FollowAll(s, rounds[..n]).0, rounds[n])
    ensures FollowOnce(FollowAll(s, rounds[..n]).0, rounds[n]).1 != StreamEnded ==>
      FollowAll(s, rounds) == FollowOnce(FollowAll(s, rounds[..n]).0, rounds[n])
  {
    hide FollowOnce;
    assert rounds[..n + 1][..n] == rounds[..n];
    if n > 0 {
      FollowEnds(s, rounds, n - 1);
    }
    if FollowOnce(FollowAll(s, rounds[..n]).0, rounds[n]).1 != StreamEnded {
      FollowingStops(s, rounds, n + 1);
    }
  }

  // ---------------------------------------------------------------- streams cut from a history

  // A store that serves a history: its log agrees with it and covers it from
  // `start` on.
  ghost predicate Serves(s: Store, hist: seq<Op>, start: nat) {
    && Agrees(s.log, hist) && s.seqNum <= |hist|
    && 1 <= start <= s.seqNum + 1 && Covers(s, start)
  }

  // After a subscription at `at`, the history goes on and is streamed.
  ghost predicate GoesOn(src: Source, at: nat, hist: seq<Op>) {
    at + |src.live| <= |hist| && src.live == hist[at..at + |src.live|]
  }

  // How far a follower at `start` gets, if nothing fails.
  function Reached(src: Source, start: nat, at: nat): nat {
    if start + src.arrived <= at + |src.live| then start + src.arrived else at + |src.live|
  }

  // What arrives is a slice of the history.
  lemma {:induction false} ReceivedSlice(s: Store, src: Source, hist: seq<Op>, start: nat)
    requires Numbered(hist) && Serves(s, hist, start + 1) && GoesOn(src, s.seqNum, hist)
    ensures start <= Reached(src, start, s.seqNum) <= s.seqNum + |src.live|
    ensures Received(Since(s.log, start + 1), src) == hist[start..Reached(src, start, s.seqNum)]
  {
    hide Since;
    var top := s.seqNum + |src.live|;
    SinceSlice(s.log, hist, start + 1, s.seqNum);
    JoinAndCut(hist, start, s.seqNum, top, Reached(src, start, s.seqNum));
  }

  lemma {:induction false} JoinAndCut(hist: seq<Op>, a: nat, b: nat, c: nat, cut: nat)
    requires a <= b <= c <= |hist| && a <= cut <= c
    ensures hist[a..b] + hist[b..c] == hist[a..c]
    ensures hist[a..c][..cut - a] == hist[a..cut]
  {
  }

  // ---------------------------------------------------------------- ahead of the source

  // What a follower at a point of the history ends with when it receives the
  // history up to `upto`.
  function Settled(base: Tables, s: Store, hist: seq<Op>, upto: nat, src: Source): (Store, Outcome)
    requires upto <= |hist|
  {
    if InTheWay(s, upto) == {} then
      (Advanced(base, s, hist, upto), if src.cancelled then Cancelled else StreamEnded)
    else
      var first := Least(InTheWay(s, upto));
      (Advanced(base, s, hist, first - 1), ApplyError(first, SequenceConflict))
  }

  lemma {:induction false} ConsumeSettles(base: Tables, s: Store, at: Store, hist: seq<Op>, src: Source)
    requires Numbered(hist) && Replays(base, hist)
    requires s.seqNum <= |hist| && s.tables == StateAt(base, hist, s.seqNum)
    requires Serves(at, hist, s.seqNum + 1) && GoesOn(src, at.seqNum, hist)
    ensures Reached(src, s.seqNum, at.seqNum) <= |hist|
    ensures Consume(s, Since(at.log, s.seqNum + 1), src) ==
      Settled(base, s, hist, Reached(src, s.seqNum, at.seqNum), src)
  {
    hide StateAt, Since, Deliver, Advanced, Replays, Received;
    ReceivedSlice(at, src, hist, s.seqNum);
    DeliverOutcome(base, s, hist, Reached(src, s.seqNum, at.seqNum));
  }

  // A follower that is ahead of its source, in full. It takes one snapshot. If
  // that lists a peer before its interface, nothing changes. If the source goes
  // back before the second Subscribe, that reports the horizon again.
  // Otherwise the follower applies what arrives, and stops with a conflict if
  // and only if an old entry of its own log is among it.
  lemma {:induction false} AheadOutcome(base: Tables, s: Store, src: Source, hist: seq<Op>)
    requires Integrity(base) && Numbered(hist) && Replays(base, hist)
    requires src.first.Ok? && src.first.value.seqNum < s.seqNum
    requires src.snap.Ok? && src.snap.value.seqNum <= |hist|
    requires Listing(src.snap.value.items, StateAt(base, hist, src.snap.value.seqNum))
    requires src.second.Ok?
    requires src.second.value.seqNum >= src.snap.value.seqNum ==>
      Serves(src.second.value, hist, src.snap.value.seqNum + 1) && GoesOn(src, src.second.value.seqNum, hist)
    ensures
      var n, at := src.snap.value.seqNum, src.second.value.seqNum;
      var loaded := Store(StateAt(base, hist, n), s.log, n);
      var (s', outcome) := FollowOnce(s, src);
      if !InterfacesFirst(src.snap.value.items) then s' == s && outcome == LoadError(ForeignKey)
      else if at < n then s' == loaded && outcome == SubscriptionError(Horizon)
      else
        && Reached(src, n, at) <= |hist|
        && (s', outcome) == Settled(base, loaded, hist, Reached(src, n, at), src)
  {
    hide StateAt, Since, Deliver, Advanced, Replays, Received, Consume, Settled, Listing, InterfacesFirst, Integrity;
    var n := src.snap.value.seqNum;
    SnapshotPlusTail(base, s, src.snap.value, hist, n);
    ReplayKeepsIntegrity(base, hist, n);
    LoadRestoresIff(StateAt(base, hist, n), src.snap.value.items);
    if InterfacesFirst(src.snap.value.items) && src.second.value.seqNum >= n {
      ConsumeSettles(base, Store(StateAt(base, hist, n), s.log, n), src.second.value, hist, src);
    }
  }

  // If the follower got ahead by applying operations, its own last entry is in
  // the way as soon as the history is streamed that far: it stops before it.
  lemma {:induction false} AheadFollowerBlocked(base: Tables, s: Store, src: Source, hist: seq<Op>)
    requires Integrity(base) && Numbered(hist) && Replays(base, hist)
    requires src.first.Ok? && src.first.value.seqNum < s.seqNum
    requires src.snap.Ok? && src.snap.value.seqNum < s.seqNum && src.snap.value.seqNum <= |hist|
    requires Listing(src.snap.value.items, StateAt(base, hist, src.snap.value.seqNum))
    requires InterfacesFirst(src.snap.value.items)
    requires src.second.Ok? && src.second.value.seqNum >= src.snap.value.seqNum
    requires Serves(src.second.value, hist, src.snap.value.seqNum + 1) && GoesOn(src, src.second.value.seqNum, hist)
    requires s.seqNum in s.log && s.seqNum <= Reached(src, src.snap.value.seqNum, src.second.value.seqNum)
    ensures
      var (s', outcome) := FollowOnce(s, src);
      && outcome == ApplyError(s'.seqNum + 1, SequenceConflict)
      && s'.seqNum < s.seqNum && s'.seqNum + 1 in s'.log
      && s'.seqNum <= |hist| && s'.tables == StateAt(base, hist, s'.seqNum)
  {
    hide StateAt, Since, Replays, FollowOnce, Listing, InterfacesFirst, Integrity, Serves, GoesOn;
    AheadOutcome(base, s, src, hist);
    var n := src.snap.value.seqNum;
    var loaded, upto := Store(StateAt(base, hist, n), s.log, n), Reached(src, n, src.second.value.seqNum);
    assert s.seqNum in InTheWay(loaded, upto);
    var first := Least(InTheWay(loaded, upto));
    ReloggedAt(s.log, hist, n, first - 1, first);
  }

  // A follower at a point of the history, with an entry for a later number in its log.
  ghost predicate Blocked(base: Tables, s: Store, hist: seq<Op>, k: nat) {
    && k in s.log && s.seqNum < k
    && s.seqNum <= |hist| && s.tables == StateAt(base, hist, s.seqNum)
  }

  // Whatever the source serves is of that history, and a snapshot it gives
  // does not reach that number.
  ghost predicate ServesBelow(base: Tables, s: Store, src: Source, hist: seq<Op>, k: nat) {
    if PastHorizon(s, src) then
      src.snap.Ok? ==>
        && src.snap.value.seqNum < k && src.snap.value.seqNum <= |hist|
        && Listing(src.snap.value.items, StateAt(base, hist, src.snap.value.seqNum))
        && ServesFrom(src.second, src, src.snap.value.seqNum, hist)
    else ServesFrom(src.first, src, s.seqNum, hist)
  }

  ghost predicate ServesFrom(at: Result<Store, Error>, src: Source, start: nat, hist: seq<Op>) {
    at.Ok? && start <= at.value.seqNum ==>
      Serves(at.value, hist, start + 1) && GoesOn(src, at.value.seqNum, hist)
  }

  // No later attempt helps, with one snapshot more or none, whatever its
  // outcome: the follower stays below that number. If the very next entry is in
  // the way and no snapshot is taken, nothing changes at all.
  lemma {:induction false} BlockedStaysBlocked(base: Tables, s: Store, src: Source, hist: seq<Op>, k: nat)
    requires Integrity(base) && Numbered(hist) && Replays(base, hist)
    requires Blocked(base, s, hist, k) && ServesBelow(base, s, src, hist, k)
    ensures Blocked(base, FollowOnce(s, src).0, hist, k)
    ensures s.seqNum + 1 in s.log && !PastHorizon(s, src) ==> FollowOnce(s, src).0 == s
    ensures s.seqNum + 1 in s.log && src.first.Ok? && !PastHorizon(s, src) &&
            Reached(src, s.seqNum, src.first.value.seqNum) > s.seqNum ==>
      FollowOnce(s, src).1 == ApplyError(s.seqNum + 1, SequenceConflict)
  {
    hide StateAt, Since, Replays, Consume, Serves, GoesOn, Listing, Integrity, Numbered, SinkLoad;
    match SubscribeAt(src.first, s.seqNum + 1)
    case Ok(preload) => ConsumeBlocked(base, s, src.first.value, hist, src, k);
    case Err(e) =>
      if e == Horizon && src.snap.Ok? {
        RetryBlocked(base, s, src, hist, k);
      }
  }

  // The stream stops below the entry in the way.
  lemma {:induction false} ConsumeBlocked(base: Tables, s: Store, at: Store, hist: seq<Op>, src: Source, k: nat)
    requires Numbered(hist) && Replays(base, hist) && Blocked(base, s, hist, k)
    requires Serves(at, hist, s.seqNum + 1) && GoesOn(src, at.seqNum, hist)
    ensures
      var (s', outcome) := Consume(s, Since(at.log, s.seqNum + 1), src);
      && Blocked(base, s', hist, k) && (s.seqNum + 1 in s.log ==> s' == s)
      && (s.seqNum + 1 in s.log && Reached(src, s.seqNum, at.seqNum) > s.seqNum ==>
          outcome == ApplyError(s.seqNum + 1, SequenceConflict))
  {
    hide StateAt, Since, Replays, Consume, Serves, GoesOn, Numbered, Settled;
    ConsumeSettles(base, s, at, hist, src);
    ReceivedSlice(at, src, hist, s.seqNum);
    SettledBlocked(base, s, hist, Reached(src, s.seqNum, at.seqNum), src, k);
  }

  lemma {:induction false} SettledBlocked(base: Tables, s: Store, hist: seq<Op>, upto: nat, src: Source, k: nat)
    requires Blocked(base, s, hist, k) && s.seqNum <= upto <= |hist|
    ensures
      var (s', outcome) := Settled(base, s, hist, upto, src);
      && Blocked(base, s', hist, k) && (s.seqNum + 1 in s.log ==> s' == s)
      && (s.seqNum + 1 in s.log && upto > s.seqNum ==> outcome == ApplyError(s.seqNum + 1, SequenceConflict))
  {
    hide StateAt;
    assert k <= upto ==> k in InTheWay(s, upto);
    var stop := if InTheWay(s, upto) == {} then upto else Least(InTheWay(s, upto)) - 1;
    assert stop < k;
    assert s.seqNum + 1 in s.log && upto > s.seqNum ==> s.seqNum + 1 in InTheWay(s, upto);
    ReloggedAt(s.log, hist, s.seqNum, stop, k);
  }

  // Nor does a snapshot below that number.
  lemma {:induction false} RetryBlocked(base: Tables, s: Store, src: Source, hist: seq<Op>, k: nat)
    requires Integrity(base) && Numbered(hist) && Replays(base, hist)
    requires Blocked(base, s, hist, k) && PastHorizon(s, src) && src.snap.Ok? && ServesBelow(base, s, src, hist, k)
    ensures Blocked(base, Retry(s, src.snap.value, src).0, hist, k)
  {
    hide StateAt, Since, Replays, Consume, Serves, GoesOn, Listing, Integrity, Numbered, SinkLoad;
    var snap := src.snap.value;
    SnapshotPlusTail(base, s, snap, hist, snap.seqNum);
    if SinkLoad(s, snap).Ok? {
      var loaded := SinkLoad(s, snap).value;
      assert Blocked(base, loaded, hist, k);
      if SubscribeAt(src.second, snap.seqNum + 1).Ok? {
        ConsumeBlocked(base, loaded, src.second.value, hist, src, k);
      }
    }
  }

  // Any number of attempts, whatever their outcomes: each begins with the store
  // the one before has left.
  lemma {:induction false} BlockedForEver(base: Tables, stores: seq<Store>, srcs: seq<Source>, hist: seq<Op>, k: nat)
    requires Integrity(base) && Numbered(hist) && Replays(base, hist)
    requires |stores| == |srcs| + 1 && Blocked(base, stores[0], hist, k)
    requires forall i :: 0 <= i < |srcs| ==>
      stores[i + 1] == FollowOnce(stores[i], srcs[i]).0 && ServesBelow(base, stores[i], srcs[i], hist, k)
    ensures forall i :: 0 <= i < |stores| ==> Blocked(base, stores[i], hist, k)
  {
    hide Blocked, ServesBelow, FollowOnce, Integrity, Numbered, Replays;
    for n := 0 to |srcs|
      invariant forall i :: 0 <= i <= n ==> Blocked(base, stores[i], hist, k)
    {
      BlockedStaysBlocked(base, stores[n], srcs[n], hist, k);
    }
  }

  // ---------------------------------------------------------------- horizon discipline

  // Nothing the source can send in a round is numbered above n. Its log may
  // have holes.
  ghost predicate SendsBelow(src: Source, n: nat) {
    && (src.first.Ok? ==> Keyed(src.first.value.log) && forall k :: k in src.first.value.log ==> k <= n)
    && (forall op :: op in src.live ==> op.seqNum <= n)
  }

  // A source that answers and never goes back: in every round its number is at
  // least the follower's at the start, and at least all it has sent before.
  ghost predicate NeverBack(s: Store, rounds: seq<Source>) {
    && (forall i :: 0 <= i < |rounds| ==> rounds[i].first.Ok? && s.seqNum <= rounds[i].first.value.seqNum)
    && (forall i, j :: 0 <= i < j < |rounds| ==> SendsBelow(rounds[i], rounds[j].first.value.seqNum))
  }

  // A follower that keeps to such a source is never past its horizon, whatever
  // it holds and wherever streams are cut.
  lemma {:induction false} NeverPastHorizon(s: Store, rounds: seq<Source>)
    requires NeverBack(s, rounds)
    ensures forall i :: 0 <= i < |rounds| ==> !PastHorizon(FollowAll(s, rounds[..i]).0, rounds[i])
  {
    hide SendsBelow, FollowAll;
    forall i | 0 <= i < |rounds| ensures !PastHorizon(FollowAll(s, rounds[..i]).0, rounds[i]) {
      assert forall j :: 0 <= j < i ==> SendsBelow(rounds[..i][j], rounds[i].first.value.seqNum);
      FollowBelow(s, rounds[..i], rounds[i].first.value.seqNum);
    }
  }

  // It never gets beyond what the source has sent.
  lemma {:induction false} FollowBelow(s: Store, rounds: seq<Source>, n: nat)
    requires NeverBack(s, rounds) && s.seqNum <= n
    requires forall i :: 0 <= i < |rounds| ==> SendsBelow(rounds[i], n)
    ensures FollowAll(s, rounds).0.seqNum <= n
  {
    hide SendsBelow, FollowOnce;
    if rounds != [] {
      var m := |rounds| - 1;
      var front, last := rounds[..m], rounds[m];
      FollowBelow(s, front, n);
      FollowBelow(s, front, last.first.value.seqNum);
      RoundBelow(FollowAll(s, front).0, last, n);
    }
  }

  lemma {:induction false} RoundBelow(s: Store, src: Source, n: nat)
    requires src.first.Ok? && s.seqNum <= src.first.value.seqNum && s.seqNum <= n && SendsBelow(src, n)
    ensures FollowOnce(s, src).0.seqNum <= n
  {
    hide Since, Deliver;
    var preload := Since(src.first.value.log, s.seqNum + 1);
    forall op | op in Received(preload, src) ensures op.seqNum <= n {
      assert op in preload + src.live;
      if op in preload {
        SinceContents(src.first.value.log, s.seqNum + 1, op);
      }
    }
    DeliverBelow(s, Received(preload, src), n);
  }

  lemma {:induction false} DeliverBelow(s: Store, ops: seq<Op>, n: nat)
    requires s.seqNum <= n && forall op :: op in ops ==> op.seqNum <= n
    ensures Deliver(s, ops).store.seqNum <= n
  {
    if ops != [] {
      assert ops == ops[..|ops| - 1] + [ops[|ops| - 1]];
      DeliverBelow(s, ops[..|ops| - 1], n);
    }
  }

  // One source that never goes back: in every round it serves its history of
  // that moment, and streams how the history goes on.
  ghost predicate OneSource(base: Tables, rounds: seq<Source>, served: seq<nat>, hist: seq<Op>) {
    && |served| == |rounds|
    && (forall i, j :: 0 <= i < j < |served| ==> served[i] + |rounds[i].live| <= served[j])
    && (forall i :: 0 <= i < |rounds| ==> RoundOk(base, rounds[i], served[i], hist))
  }

  ghost predicate RoundOk(base: Tables, src: Source, served: nat, hist: seq<Op>) {
    GoesOn(src, served, hist) && src.first.Ok? && PrimaryLog(base, src.first.value, hist[..served])
  }

  predicate AnyCancelled(rounds: seq<Source>) {
    exists i :: 0 <= i < |rounds| && rounds[i].cancelled
  }

  // Where a new follower stands after these rounds, read off what arrives: each
  // round takes it on by what arrives, at most to the end of what is sent, until
  // one is cancelled.
  function Standing(rounds: seq<Source>, served: seq<nat>): nat
    requires |served| == |rounds|
  {
    if rounds == [] then 0
    else
      var n := |rounds| - 1;
      var before, top := Standing(rounds[..n], served[..n]), served[n] + |rounds[n].live|;
      if AnyCancelled(rounds[..n]) then before
      else if before + rounds[n].arrived <= top then before + rounds[n].arrived
      else top
  }

  // Following one source that never goes back: however often the stream ends
  // and wherever it is cut, no round is past the horizon, nothing fails, the
  // loop goes on until it is cancelled, and the follower holds exactly the
  // prefix of the history that has arrived.
  lemma {:induction false} FollowOneSource(base: Tables, rounds: seq<Source>, served: seq<nat>, hist: seq<Op>)
    requires Numbered(hist) && Replays(base, hist)
    requires OneSource(base, rounds, served, hist)
    ensures
      var (s, outcome), at := FollowAll(Store(base, map[], 0), rounds), Standing(rounds, served);
      && outcome == (if AnyCancelled(rounds) then Cancelled else StreamEnded)
      && at <= |hist| && PrimaryLog(base, s, hist[..at]) && s.seqNum == at
      && (rounds != [] ==> at <= served[|rounds| - 1] + |rounds[|rounds| - 1].live|)
    ensures rounds != [] ==>
      !PastHorizon(FollowAll(Store(base, map[], 0), rounds[..|rounds| - 1]).0, rounds[|rounds| - 1])
  {
    hide Numbered, Replays, StateAt, PrimaryLog, FollowOnce, Since, AnyCancelled;
    CancelledGrows(rounds);
    if rounds == [] {
      assert hist[..0] == [];
      FreshLog(base);
      PrimaryCounter(base, Store(base, map[], 0), []);
    } else {
      var n := |rounds| - 1;
      FollowOneSource(base, rounds[..n], served[..n], hist);
      var s := FollowAll(Store(base, map[], 0), rounds[..n]).0;
      assert RoundOk(base, rounds[n], served[n], hist);
      PrimaryCounter(base, rounds[n].first.value, hist[..served[n]]);
      assert n > 0 ==> served[n - 1] + |rounds[n - 1].live| <= served[n];
      RoundDelivers(base, s, rounds[n], served[n], hist);
    }
  }

  lemma {:induction false} CancelledGrows(rounds: seq<Source>)
    ensures rounds == [] ==> !AnyCancelled(rounds)
    ensures rounds != [] ==>
      (AnyCancelled(rounds) <==> AnyCancelled(rounds[..|rounds| - 1]) || rounds[|rounds| - 1].cancelled)
  {
    if rounds != [] {
      var front := rounds[..|rounds| - 1];
      if AnyCancelled(front) {
        var i :| 0 <= i < |front| && front[i].cancelled;
        assert rounds[i].cancelled;
      }
      if AnyCancelled(rounds) {
        var i :| 0 <= i < |rounds| && rounds[i].cancelled;
        assert i < |front| ==> front[i].cancelled;
      }
    }
  }

  // Once a round that nobody has cancelled before brings all that is sent, the
  // follower has everything its source has, whatever was lost before.
  lemma {:induction false} FollowCatchesUp(base: Tables, rounds: seq<Source>, served: seq<nat>, hist: seq<Op>)
    requires Numbered(hist) && Replays(base, hist)
    requires OneSource(base, rounds, served, hist) && rounds != [] && !AnyCancelled(rounds[..|rounds| - 1])
    requires
      var n := |rounds| - 1;
      rounds[n].arrived >= served[n] + |rounds[n].live| - Standing(rounds[..n], served[..n])
    ensures
      var n := |rounds| - 1;
      var at := served[n] + |rounds[n].live|;
      at <= |hist| && PrimaryLog(base, FollowAll(Store(base, map[], 0), rounds).0, hist[..at])
  {
    hide Numbered, Replays, PrimaryLog, FollowAll;
    FollowOneSource(base, rounds, served, hist);
    assert RoundOk(base, rounds[|rounds| - 1], served[|rounds| - 1], hist);
  }

  lemma {:induction false} RoundDelivers(base: Tables, s: Store, src: Source, served: nat, hist: seq<Op>)
    requires Numbered(hist) && Replays(base, hist)
    requires RoundOk(base, src, served, hist)
    requires s.seqNum <= served && PrimaryLog(base, s, hist[..s.seqNum])
    ensures
      var (s', outcome) := FollowOnce(s, src);
      && outcome == (if src.cancelled then Cancelled else StreamEnded)
      && s'.seqNum == Reached(src, s.seqNum, served) <= |hist| && PrimaryLog(base, s', hist[..s'.seqNum])
  {
    hide Replays, StateAt, Since, PrimaryLog, Numbered, Consume, Serves;
    var at := src.first.value;
    PrimaryCounter(base, at, hist[..served]);
    PrimaryServes(base, at, hist, s.seqNum + 1);
    PrimaryAt(base, s, hist);
    ConsumeSettles(base, s, at, hist, src);
    var upto := Reached(src, s.seqNum, served);
    NothingInTheWay(base, s, hist[..s.seqNum], upto);
    AdvancedPrimary(base, s, hist, upto);
  }

  lemma {:induction false} PrimaryServes(base: Tables, s: Store, hist: seq<Op>, start: nat)
    requires s.seqNum <= |hist| && PrimaryLog(base, s, hist[..s.seqNum])
    requires 1 <= start <= s.seqNum + 1
    ensures Serves(s, hist, start)
  {
    hide StateAt, Replays;
  }

  lemma {:induction false} PrimaryAt(base: Tables, s: Store, hist: seq<Op>)
    requires Replays(base, hist) && s.seqNum <= |hist| && PrimaryLog(base, s, hist[..s.seqNum])
    ensures s.tables == StateAt(base, hist, s.seqNum)
  {
    hide StateAt, Replays;
    ReplayPrefix(base, hist, s.seqNum);
  }

  lemma {:induction false} NothingInTheWay(base: Tables, s: Store, hist: seq<Op>, upto: nat)
    requires PrimaryLog(base, s, hist)
    ensures InTheWay(s, upto) == {}
  {
    hide StateAt, Replays;
  }

  lemma {:induction false} AdvancedPrimary(base: Tables, s: Store, hist: seq<Op>, upto: nat)
    requires Numbered(hist) && Replays(base, hist)
    requires s.seqNum <= upto <= |hist| && PrimaryLog(base, s, hist[..s.seqNum])
    ensures PrimaryLog(base, Advanced(base, s, hist, upto), hist[..upto])
  {
    hide StateAt, Replays;
    ReplayPrefix(base, hist, upto);
    forall k: nat
      ensures k in Advanced(base, s, hist, upto).log <==> 1 <= k <= upto
      ensures 1 <= k <= upto ==> Advanced(base, s, hist, upto).log[k] == hist[k - 1]
    {
      ReloggedAt(s.log, hist, s.seqNum, upto, k);
    }
  }

  lemma {:induction false} PrimaryCounter(base: Tables, s: Store, hist: seq<Op>)
    requires PrimaryLog(base, s, hist)
    ensures s.seqNum == |hist|
  {
  }
}
