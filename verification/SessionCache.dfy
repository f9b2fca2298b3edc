/** The cache refines history: what a session remembers is a function of every packet it ever received. */
module SessionCache {
  import opened Basics
  import opened Protocol
  import opened Battery
  import opened Environment
  import opened SessionModel

  predicate Accepted(e: Event) {
    e.kind.Received? && Parse(e.kind.bytes).Some?
  }

  predicate Refused(e: Event) {
    e.kind.Received? && OpcodeOf(e.kind.bytes) == OP_BATTERY && Parse(e.kind.bytes).None?
  }

  /** The report of the last accepted battery packet in a transcript. */
  function LastAccepted(log: seq<Event>): Option<Report> {
    if log == [] then None
    else if Accepted(log[|log| - 1]) then Parse(log[|log| - 1].kind.bytes)
    else LastAccepted(log[..|log| - 1])
  }

  /** The bytes it was read from. */
  function LastAcceptedPacket(log: seq<Event>): Option<seq<byte>> {
    if log == [] then None
    else if Accepted(log[|log| - 1]) then Some(log[|log| - 1].kind.bytes)
    else LastAcceptedPacket(log[..|log| - 1])
  }

  lemma {:induction false} AcceptedPacketParses(log: seq<Event>)
    ensures LastAcceptedPacket(log).None? ==> LastAccepted(log).None?
    ensures LastAcceptedPacket(log).Some? ==>
              LastAccepted(log).Some? && LastAccepted(log) == Parse(LastAcceptedPacket(log).value)
  {
    if log != [] && !Accepted(log[|log| - 1]) {
      AcceptedPacketParses(log[..|log| - 1]);
    }
  }

  function Refusals(log: seq<Event>): nat {
    if log == [] then 0
    else Refusals(log[..|log| - 1]) + if Refused(log[|log| - 1]) then 1 else 0
  }

  /** `at` lies between the last accepted packet and whatever came next in the transcript, or `now`. */
  predicate Stamped(log: seq<Event>, at: int, now: int) {
    log != [] &&
    var e := log[|log| - 1];
    if Accepted(e) then e.at <= at <= now else Stamped(log[..|log| - 1], at, e.at)
  }

  predicate Remembers(s: SessionState, w: World) {
    && s.battery == LastAccepted(w.log)
    && s.refusals == Refusals(w.log)
    && (s.battery.Some? ==> Stamped(w.log, s.batteryAt, w.now))
  }

  lemma RecordQuiet(s: SessionState, w: World, kind: Kind)
    requires Remembers(s, w) && !kind.Received?
    ensures Remembers(s, Record(w, kind))
  {
    assert Record(w, kind).log[..|w.log|] == w.log;
  }

  lemma EmitQuiet(s: SessionState, w: World, what: What, bytes: seq<byte>)
    requires Remembers(s, w)
    ensures Remembers(s, AfterEmit(w, what, bytes))
  {
    if bytes != [] {
      RecordQuiet(s, Clock(w.(writes := Tail(w.writes))), Sent(what, bytes));
    }
  }

  lemma NotifyQuiet(c: Config, s: SessionState, w: World)
    requires Remembers(s, w)
    ensures var (s1, w1) := RequestNotify(c, s, w); Remembers(s1, w1)
  {
    EmitQuiet(s, w, Notify, c.notifyRequest);
  }

  lemma LeaveHandshakeQuiet(c: Config, p: Progress, early: bool)
    requires Remembers(p.s, p.w)
    ensures var q := LeaveHandshake(c, p, early); Remembers(q.s, q.w)
  {
    var w1 := AfterEmit(p.w, HostCaps, c.hostCaps);
    EmitQuiet(p.s, p.w, HostCaps, c.hostCaps);
    NotifyQuiet(c, Enter(p.s, w1, Listening), Clock(w1));
  }

  lemma ListenQuiet(c: Config, s: SessionState, w: World)
    requires Remembers(s, w)
    ensures var (s1, w1) := Listen(c, s, w); Remembers(s1, w1)
  {
    NotifyQuiet(c, s, w);
  }

  lemma LeaveFeaturesQuiet(c: Config, p: Progress)
    requires Remembers(p.s, p.w)
    ensures var q := LeaveFeatures(c, p); Remembers(q.s, q.w)
  {
    ListenQuiet(c, p.s, p.w);
  }

  lemma TimeoutQuiet(c: Config, s: SessionState, w: World)
    requires Remembers(s, w)
    ensures var p := TimeoutStage(c, s, w); Remembers(p.s, p.w)
  {
    if s.phase == WaitHandshakeAck {
      LeaveHandshakeQuiet(c, Progress(s, Clock(w), QUIET.(note := Some(HandshakeAckTimeout))), false);
    } else {
      LeaveFeaturesQuiet(c, Progress(s, Clock(w), QUIET.(note := Some(FeaturesAckTimeout))));
    }
  }

  lemma ResendQuiet(c: Config, p: Progress)
    requires Remembers(p.s, p.w)
    ensures var q := ResendStage(c, p); Remembers(q.s, q.w)
  {
    NotifyQuiet(c, p.s.(notifyResent := true), Clock(p.w));
  }

  lemma AckQuiet(c: Config, p: Progress)
    requires Remembers(p.s, p.w)
    ensures var q := AckStage(c, p); Remembers(q.s, q.w)
  {
    if p.s.phase == WaitHandshakeAck {
      LeaveHandshakeQuiet(c, p, true);
    } else {
      LeaveFeaturesQuiet(c, p);
    }
  }

  lemma PacketRemembered(s: SessionState, w: World, out: Step)
    requires Remembers(s, w) && ReadOutcome(w).Packet? && out.bytes == ReadOutcome(w).bytes
    ensures var p := BatteryStage(Progress(s, AfterRead(w), out)); Remembers(p.s, p.w)
  {
    assert AfterRead(w).log[..|w.log|] == w.log;
  }

  lemma ReadRemembers(c: Config, p: Progress)
    requires Remembers(p.s, p.w)
    ensures var q := ReadStage(c, p); Remembers(q.s, q.w)
  {
    if !p.out.closed && ReadOutcome(p.w).Packet? {
      var out := p.out.(packet := true, bytes := ReadOutcome(p.w).bytes);
      PacketRemembered(p.s, p.w, out);
      AckQuiet(c, BatteryStage(Progress(p.s, AfterRead(p.w), out)));
    }
  }

  lemma StepRemembers(c: Config, s: SessionState, w: World)
    requires Remembers(s, w)
    ensures var p := StepOf(c, s, w); Remembers(p.s, p.w)
  {
    TimeoutQuiet(c, s, w);
    ResendQuiet(c, TimeoutStage(c, s, w));
    ReadRemembers(c, ResendStage(c, TimeoutStage(c, s, w)));
  }

  lemma SendAllQuiet(c: Config, s: SessionState, w: World)
    requires Remembers(s, w)
    ensures var (s1, w1) := SendAll(c, s, w); Remembers(s1, w1)
  {
    var w1 := Clock(Pass(w, SETTLE_TICKS));
    var w2 := AfterEmit(w1, HostCaps, c.hostCaps);
    EmitQuiet(s, w1, HostCaps, c.hostCaps);
    ListenQuiet(c, s, if c.hostCaps == [] then w2 else Clock(Pass(w2, SETTLE_TICKS)));
  }

  lemma ConnectedRemembers(c: Config, s: SessionState, w: World)
    requires Remembers(s, w)
    ensures var (s1, w1) := AfterConnected(c, s, w); Remembers(s1, w1)
  {
    RecordQuiet(s, Clock(w), Opened);
    var w1 := Record(Clock(w), Opened);
    EmitQuiet(s, Clock(w1), Handshake, HANDSHAKE);
    var s2 := Renewed(s, w1);
    SendAllQuiet(c, s2, if c.sendHandshake then AfterEmit(Clock(w1), Handshake, HANDSHAKE) else Clock(w1));
  }

  lemma OpenRemembers(c: Config, s: SessionState, w: World)
    requires Remembers(s, w)
    ensures var (s1, w1) := OpenOf(c, s, w); Remembers(s1, w1)
  {
    RecordQuiet(s, Clock(w.(connects := Tail(w.connects))), Tried);
    if ConnectOutcome(w).ok {
      ConnectedRemembers(c, s, AfterConnect(w));
    }
  }

  /** Over any interleaving of opens, failed opens, steps, closes and waits. */
  lemma {:induction false} RunRemembers(c: Config, p: Progress, ops: seq<Op>)
    requires Remembers(p.s, p.w)
    ensures Remembers(Run(c, p, ops).s, Run(c, p, ops).w)
    decreases ops
  {
    if ops != [] {
      match ops[0] {
        case Open => OpenRemembers(c, p.s, p.w);
        case DoStep => StepRemembers(c, p.s, p.w);
        case _ =>
      }
      RunRemembers(c, Apply(c, p, ops[0]), ops[1..]);
    }
  }

  /** The cache is the parse of the last accepted battery packet ever received, the refusal count is the number
      refused, and the age is -1 or the time since that packet was read, whatever opened or closed meanwhile. */
  lemma CacheRefinesHistory(c: Config, w: World, ops: seq<Op>, now: int)
    requires w.log == []
    ensures var p := Run(c, Progress(FRESH, w, QUIET), ops);
            && p.s.battery == LastAccepted(p.w.log)
            && p.s.refusals == Refusals(p.w.log)
            && (LastAccepted(p.w.log).None? ==> BatteryAgeMs(p.s, now) == -1)
            && (LastAccepted(p.w.log).Some? ==>
                  exists at :: Stamped(p.w.log, at, p.w.now) && BatteryAgeMs(p.s, now) == Ms(now - at))
  {
    RunRemembers(c, Progress(FRESH, w, QUIET), ops);
    var p := Run(c, Progress(FRESH, w, QUIET), ops);
    assert Remembers(p.s, p.w);
    if LastAccepted(p.w.log).Some? {
      assert Stamped(p.w.log, p.s.batteryAt, p.w.now);
    }
  }
}
