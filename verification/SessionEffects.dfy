/** What a session operation can and cannot change: connects tried, and what an idle step leaves alone. */
module SessionEffects {
  import opened Basics
  import opened Protocol
  import opened Environment
  import opened SessionModel

  /** How many times a connect was tried. */
  function Tries(log: seq<Event>): nat {
    if log == [] then 0 else Tries(log[..|log| - 1]) + if log[|log| - 1].kind.Tried? then 1 else 0
  }

  // -------------------------------------------------------------------------
  // What a step writes in the transcript
  // -------------------------------------------------------------------------

  /** The second transcript goes on from the first with packets only: no connect is tried or succeeds. */
  predicate Converses(before: seq<Event>, after: seq<Event>) {
    before <= after && forall i :: |before| <= i < |after| ==> after[i].kind.Sent? || after[i].kind.Received?
  }

  /** From one world to the next only packets went over the channel, and BlueZ was asked nothing. */
  predicate Talks(w: World, v: World) {
    Converses(w.log, v.log) && v.replies == w.replies
  }

  lemma EmitTalks(w: World, what: What, bytes: seq<byte>)
    ensures Talks(w, AfterEmit(w, what, bytes))
  {
  }

  lemma ListenTalks(c: Config, s: SessionState, w: World)
    ensures Talks(w, RequestNotify(c, s, w).1)
    ensures Talks(w, Listen(c, s, w).1)
  {
    EmitTalks(w, Notify, c.notifyRequest);
  }

  lemma LeaveTalks(c: Config, p: Progress, early: bool)
    ensures Talks(p.w, LeaveHandshake(c, p, early).w)
    ensures Talks(p.w, LeaveFeatures(c, p).w)
  {
    EmitTalks(p.w, HostCaps, c.hostCaps);
    var w1 := AfterEmit(p.w, HostCaps, c.hostCaps);
    ListenTalks(c, Enter(p.s, w1, Listening), Clock(w1));
    ListenTalks(c, p.s, p.w);
  }

  lemma TimeoutTalks(c: Config, s: SessionState, w: World)
    ensures Talks(w, TimeoutStage(c, s, w).w)
  {
    LeaveTalks(c, Progress(s, Clock(w), QUIET.(note := Some(HandshakeAckTimeout))), false);
    LeaveTalks(c, Progress(s, Clock(w), QUIET.(note := Some(FeaturesAckTimeout))), false);
  }

  lemma ResendTalks(c: Config, p: Progress)
    ensures Talks(p.w, ResendStage(c, p).w)
  {
    ListenTalks(c, p.s.(notifyResent := true), Clock(p.w));
  }

  lemma AckTalks(c: Config, p: Progress)
    ensures Talks(p.w, AckStage(c, p).w)
  {
    LeaveTalks(c, p, true);
  }

  lemma BatteryKeepsLog(p: Progress)
    ensures BatteryStage(p).w.log == p.w.log
    ensures BatteryStage(p).out.packet == p.out.packet
  {
  }

  lemma ReadTalks(c: Config, p: Progress)
    ensures Talks(p.w, ReadStage(c, p).w)
  {
    if !p.out.closed && ReadOutcome(p.w).Packet? {
      var q := Progress(p.s, AfterRead(p.w), p.out.(packet := true, bytes := ReadOutcome(p.w).bytes));
      BatteryKeepsLog(q);
      AckTalks(c, BatteryStage(q));
    }
  }

  /** A step only ever adds packets to the connection it finds, and asks BlueZ nothing. */
  lemma StepTalks(c: Config, s: SessionState, w: World)
    ensures Talks(w, StepOf(c, s, w).w)
  {
    var p := TimeoutStage(c, s, w);
    TimeoutTalks(c, s, w);
    ResendTalks(c, p);
    ReadTalks(c, ResendStage(c, p));
  }

  lemma SendAllTalks(c: Config, s: SessionState, w: World)
    ensures Talks(w, SendAll(c, s, w).1)
  {
    var w1 := Clock(Pass(w, SETTLE_TICKS));
    var w2 := AfterEmit(w1, HostCaps, c.hostCaps);
    EmitTalks(w1, HostCaps, c.hostCaps);
    ListenTalks(c, s, if c.hostCaps == [] then w2 else Clock(Pass(w2, SETTLE_TICKS)));
  }

  // -------------------------------------------------------------------------
  // Connects
  // -------------------------------------------------------------------------

  lemma RecordTries(w: World, kind: Kind)
    ensures Tries(Record(w, kind).log) == Tries(w.log) + if kind.Tried? then 1 else 0
  {
    assert Record(w, kind).log[..|w.log|] == w.log;
  }

  lemma {:induction false} ConversesTries(before: seq<Event>, after: seq<Event>)
    requires Converses(before, after)
    ensures Tries(after) == Tries(before)
    decreases |after|
  {
    if |after| > |before| {
      ConversesTries(before, after[..|after| - 1]);
    } else {
      assert after == before;
    }
  }

  /** A step never tries to connect. */
  lemma StepTries(c: Config, s: SessionState, w: World)
    ensures Tries(StepOf(c, s, w).w.log) == Tries(w.log)
  {
    StepTalks(c, s, w);
    ConversesTries(w.log, StepOf(c, s, w).w.log);
  }

  lemma ConnectedTries(c: Config, s: SessionState, w: World)
    ensures Tries(AfterConnected(c, s, w).1.log) == Tries(w.log)
    ensures AfterConnected(c, s, w).1.replies == w.replies
  {
    RecordTries(Clock(w), Opened);
    var w1 := Record(Clock(w), Opened);
    var w3 := if c.sendHandshake then AfterEmit(Clock(w1), Handshake, HANDSHAKE) else Clock(w1);
    EmitTalks(Clock(w1), Handshake, HANDSHAKE);
    SendAllTalks(c, Renewed(s, w1), w3);
    ConversesTries(w1.log, AfterConnected(c, s, w).1.log);
  }

  /** Opening tries exactly once, and asks BlueZ nothing. */
  lemma OpenTries(c: Config, s: SessionState, w: World)
    ensures Tries(OpenOf(c, s, w).1.log) == Tries(w.log) + 1
    ensures OpenOf(c, s, w).1.replies == w.replies
  {
    RecordTries(Clock(w.(connects := Tail(w.connects))), Tried);
    if ConnectOutcome(w).ok {
      ConnectedTries(c, s, AfterConnect(w));
    }
  }

  // -------------------------------------------------------------------------
  // Idle steps
  // -------------------------------------------------------------------------

  /** The part of a session a snapshot shows. */
  predicate SameFace(s: SessionState, t: SessionState) {
    s.open == t.open && s.phase == t.phase && s.battery == t.battery && s.refusals == t.refusals
  }

  lemma TimersIdle(c: Config, s: SessionState, w: World)
    ensures var p := TimeoutStage(c, s, w); p.out.Idle() ==> p.s == s
    ensures forall p: Progress :: ResendStage(c, p).out.Idle() ==> p.out.Idle() && ResendStage(c, p).s == p.s
  {
  }

  /** An idle step changes nothing a snapshot shows, so nothing need be published after it. */
  lemma IdleStepKeeps(c: Config, s: SessionState, w: World)
    requires StepOf(c, s, w).out.Idle()
    ensures SameFace(s, StepOf(c, s, w).s)
  {
    TimersIdle(c, s, w);
    ReadIdle(c, ResendStage(c, TimeoutStage(c, s, w)));
  }

  lemma AckKeepsPacket(c: Config, p: Progress)
    ensures AckStage(c, p).out.packet == p.out.packet
  {
  }

  lemma ReadIdle(c: Config, p: Progress)
    ensures ReadStage(c, p).out.Idle() ==> p.out.Idle() && ReadStage(c, p).s == p.s
  {
    if !p.out.closed && ReadOutcome(p.w).Packet? {
      var q := Progress(p.s, AfterRead(p.w), p.out.(packet := true, bytes := ReadOutcome(p.w).bytes));
      BatteryKeepsLog(q);
      AckKeepsPacket(c, BatteryStage(q));
    }
  }
}
