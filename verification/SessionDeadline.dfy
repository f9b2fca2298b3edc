/** The handshake never stalls: a session that is stepped often enough is listening by a known time. */
module SessionDeadline {
  import opened Basics
  import opened Environment
  import opened SessionModel

  /** Waiting and stepping in turn. */
  function Ticks(c: Config, p: Progress, waits: seq<nat>): Progress
    decreases waits
  {
    if waits == [] then p else Ticks(c, StepOf(c, p.s, Pass(p.w, waits[0])), waits[1..])
  }

  /** When the last step of such a run starts. */
  function LastStart(c: Config, p: Progress, waits: seq<nat>): int
    requires waits != []
    decreases waits
  {
    var start := Pass(p.w, waits[0]);
    if |waits| == 1 then start.now else LastStart(c, StepOf(c, p.s, start), waits[1..])
  }

  /** Steps start at most `d` apart, the first within `d` of `last`, and none of them closes the session: no write
      or read fails. What arrives is unconstrained. */
  predicate Punctual(c: Config, p: Progress, last: int, d: nat, waits: seq<nat>)
    decreases waits
  {
    waits == [] ||
    var start := Pass(p.w, waits[0]);
    && start.now - last <= d
    && StepOf(c, p.s, start).s.open
    && Punctual(c, StepOf(c, p.s, start), start.now, d, waits[1..])
  }

  /** The longest the clock can run in a phase without the timeout noticing. */
  function Patience(c: Config): nat {
    if c.ackTimeoutMs < 0 then 0 else (c.ackTimeoutMs + 1) * TICKS_PER_MS
  }

  lemma PatienceRunsOut(c: Config, ticks: int)
    requires ticks >= Patience(c)
    ensures Ms(ticks) > c.ackTimeoutMs
  {
  }

  // -------------------------------------------------------------------------
  // What one step does to the phase and its start
  // -------------------------------------------------------------------------

  /** From `s` to `q`, if `q` is still waiting: either nothing moved, or the handshake phase gave way to the features
      phase, entered by now. */
  predicate Moves(s: SessionState, now: int, q: Progress) {
    && q.w.now >= now
    && (q.s.open && Waiting(q.s) ==>
          || (q.s.phase == s.phase && q.s.phaseAt == s.phaseAt)
          || (s.phase == WaitHandshakeAck && q.s.phase == WaitFeaturesAck && q.s.phaseAt <= q.w.now))
    && (q.s.open && s.phase == Listening ==> q.s.phase == Listening)
    && (q.s.open ==> q.s.phase != Closed)
  }

  lemma LeaveHandshakeMoves(c: Config, p: Progress, early: bool)
    requires p.s.open && p.s.phase == WaitHandshakeAck
    ensures var q := LeaveHandshake(c, p, early);
            && Moves(p.s, p.w.now, q)
            && (q.s.open ==> q.s.phase != WaitHandshakeAck)
            && (!p.out.closed ==> q.s.open == !q.out.closed)
  {
  }

  lemma LeaveFeaturesMoves(c: Config, p: Progress)
    requires p.s.open
    ensures var q := LeaveFeatures(c, p);
            && Moves(p.s, p.w.now, q)
            && (q.s.open ==> q.s.phase == Listening)
            && (!p.out.closed ==> q.s.open == !q.out.closed)
  {
  }

  lemma TimeoutMoves(c: Config, s: SessionState, w: World)
    requires s.open && s.phase != Closed
    ensures Moves(s, w.now, TimeoutStage(c, s, w))
    ensures var q := TimeoutStage(c, s, w); q.s.open == !q.out.closed
    ensures var q := TimeoutStage(c, s, w);
            q.s.open && Waiting(q.s) && q.s.phase == s.phase ==> w.now - s.phaseAt < Patience(c)
  {
    if Waiting(s) && Clock(w).now - s.phaseAt >= Patience(c) {
      PatienceRunsOut(c, Clock(w).now - s.phaseAt);
    }
    if s.phase == WaitHandshakeAck {
      LeaveHandshakeMoves(c, Progress(s, Clock(w), QUIET.(note := Some(HandshakeAckTimeout))), false);
    } else {
      LeaveFeaturesMoves(c, Progress(s, Clock(w), QUIET.(note := Some(FeaturesAckTimeout))));
    }
  }

  lemma ResendMoves(c: Config, p: Progress)
    requires p.s.open == !p.out.closed && (p.s.open ==> p.s.phase != Closed)
    ensures var q := ResendStage(c, p);
            && q.w.now >= p.w.now && q.s.open == !q.out.closed
            && (q.s.open ==> q.s.phase == p.s.phase && q.s.phaseAt == p.s.phaseAt)
            && (q.s.open ==> p.s.open)
  {
  }

  lemma AckMoves(c: Config, p: Progress)
    requires p.s.open && p.s.phase != Closed
    ensures Moves(p.s, p.w.now, AckStage(c, p))
  {
    if p.s.phase == WaitHandshakeAck {
      LeaveHandshakeMoves(c, p, true);
    } else {
      LeaveFeaturesMoves(c, p);
    }
  }

  lemma ReadMoves(c: Config, p: Progress)
    requires p.s.open == !p.out.closed && (p.s.open ==> p.s.phase != Closed)
    ensures Moves(p.s, p.w.now, ReadStage(c, p))
    ensures ReadStage(c, p).s.open ==> p.s.open
  {
    if p.s.open && ReadOutcome(p.w).Packet? {
      var q := BatteryStage(Progress(p.s, AfterRead(p.w), p.out.(packet := true, bytes := ReadOutcome(p.w).bytes)));
      assert q.s.open && q.s.phase == p.s.phase && q.s.phaseAt == p.s.phaseAt && q.w.now >= p.w.now;
      AckMoves(c, q);
    }
  }

  lemma StepMoves(c: Config, s: SessionState, w: World)
    requires s.open && s.phase != Closed
    ensures var q := StepOf(c, s, w);
            && Moves(s, w.now, q)
            && (q.s.open && Waiting(q.s) && q.s.phase == s.phase ==> w.now - s.phaseAt < Patience(c))
  {
    var p1 := TimeoutStage(c, s, w);
    TimeoutMoves(c, s, w);
    ResendMoves(c, p1);
    ReadMoves(c, ResendStage(c, p1));
  }

  // -------------------------------------------------------------------------
  // The deadline
  // -------------------------------------------------------------------------

  /** How far behind a session opened by time `from` can be, its last step having started at `last`. */
  predicate OnTime(c: Config, from: int, d: nat, p: Progress, last: int) {
    && p.s.open && last <= p.w.now
    && match p.s.phase
       case Closed => false
       case WaitHandshakeAck => p.s.phaseAt <= from && last <= from + Patience(c)
       case WaitFeaturesAck =>
         && p.s.phaseAt <= p.w.now
         && (last <= from + Patience(c) + d
             || (p.s.phaseAt <= from + Patience(c) + 2 * d && last <= p.s.phaseAt + Patience(c)))
       case Listening => true
  }

  /** One punctual step keeps a session on time, and one that starts late enough ends with it listening. */
  lemma StepOnTime(c: Config, from: int, d: nat, p: Progress, last: int, wait: nat)
    requires OnTime(c, from, d, p, last)
    requires Pass(p.w, wait).now - last <= d && StepOf(c, p.s, Pass(p.w, wait)).s.open
    ensures var start := Pass(p.w, wait);
            && OnTime(c, from, d, StepOf(c, p.s, start), start.now)
            && (start.now > from + 2 * (Patience(c) + d) ==> StepOf(c, p.s, start).s.phase == Listening)
  {
    StepMoves(c, p.s, Pass(p.w, wait));
  }

  lemma {:induction false} TicksOnTime(c: Config, from: int, d: nat, p: Progress, last: int, waits: seq<nat>)
    requires OnTime(c, from, d, p, last) && Punctual(c, p, last, d, waits) && waits != []
    ensures LastStart(c, p, waits) > from + 2 * (Patience(c) + d) ==> Ticks(c, p, waits).s.phase == Listening
    decreases waits
  {
    var start := Pass(p.w, waits[0]);
    StepOnTime(c, from, d, p, last, waits[0]);
    if |waits| > 1 {
      TicksOnTime(c, from, d, StepOf(c, p.s, start), start.now, waits[1..]);
    }
  }

  /** After some of the steps, but not all, the session is listening and it is not yet past `due`. */
  ghost predicate ListensBy(c: Config, p: Progress, waits: seq<nat>, due: int) {
    exists n :: 0 < n < |waits| && ListensAfter(c, p, waits[..n], due)
  }

  predicate ListensAfter(c: Config, p: Progress, waits: seq<nat>, due: int) {
    var q := Ticks(c, p, waits);
    q.s.phase == Listening && q.w.now <= due
  }

  /** The first late step listens, and the one after it starts in time. */
  lemma {:induction false} TicksListen(c: Config, from: int, d: nat, p: Progress, last: int, waits: seq<nat>)
    requires OnTime(c, from, d, p, last) && Punctual(c, p, last, d, waits) && waits != []
    requires last <= from + 2 * (Patience(c) + d) && LastStart(c, p, waits) > from + 2 * Patience(c) + 3 * d
    ensures ListensBy(c, p, waits, from + 2 * (Patience(c) + 2 * d))
    decreases waits
  {
    var start := Pass(p.w, waits[0]);
    var q := StepOf(c, p.s, start);
    StepOnTime(c, from, d, p, last, waits[0]);
    if start.now > from + 2 * (Patience(c) + d) {
      assert Pass(q.w, waits[1]).now - start.now <= d;
      assert Ticks(c, p, waits[..1]) == Ticks(c, q, waits[..1][1..]) == q;
      assert ListensAfter(c, p, waits[..1], from + 2 * (Patience(c) + 2 * d));
    } else {
      TicksListen(c, from, d, q, start.now, waits[1..]);
      var n :| 0 < n < |waits[1..]| && ListensAfter(c, q, waits[1..][..n], from + 2 * (Patience(c) + 2 * d));
      assert waits[..n + 1][1..] == waits[1..][..n];
      assert ListensAfter(c, p, waits[..n + 1], from + 2 * (Patience(c) + 2 * d));
    }
  }

  lemma OpenMoves(c: Config, s: SessionState, w: World)
    requires OpenOf(c, s, w).0.open
    ensures var (s1, w1) := OpenOf(c, s, w);
            s1.phase == Listening || (s1.phase == WaitHandshakeAck && s1.phaseAt <= w1.now)
  {
  }

  /** Once open() has returned at time T and steps start at most d apart without a failure, every step that starts after
      T + 2 * (ack timeout + d) ends with the session listening; and one of the steps ends so by
      T + 2 * (ack timeout + 2 * d), if they go on long enough for one to start after T + 2 * ack timeout + 3 * d.
      What arrives does not matter. */
  lemma HandshakeDeadline(c: Config, s: SessionState, w: World, d: nat, waits: seq<nat>)
    requires OpenOf(c, s, w).0.open && waits != []
    requires var (s1, w1) := OpenOf(c, s, w); Punctual(c, Progress(s1, w1, QUIET), w1.now, d, waits)
    ensures var (s1, w1) := OpenOf(c, s, w);
            var p := Progress(s1, w1, QUIET);
            && (LastStart(c, p, waits) > w1.now + 2 * (Patience(c) + d) ==> Ticks(c, p, waits).s.phase == Listening)
            && (LastStart(c, p, waits) > w1.now + 2 * Patience(c) + 3 * d ==>
                  ListensBy(c, p, waits, w1.now + 2 * (Patience(c) + 2 * d)))
  {
    OpenMoves(c, s, w);
    var (s1, w1) := OpenOf(c, s, w);
    var p := Progress(s1, w1, QUIET);
    TicksOnTime(c, w1.now, d, p, w1.now, waits);
    if LastStart(c, p, waits) > w1.now + 2 * Patience(c) + 3 * d {
      TicksListen(c, w1.now, d, p, w1.now, waits);
    }
  }
}
