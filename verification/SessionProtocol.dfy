/** What a session may put on the wire, and why it did: the send language and the cause of every packet. */
module SessionProtocol {
  import opened Basics
  import opened Protocol
  import opened Environment
  import opened SessionModel

  // -------------------------------------------------------------------------
  // Reading a transcript
  // -------------------------------------------------------------------------

  /** The events of the latest connection, from its Opened event on; empty before the first one. */
  function Connection(log: seq<Event>): seq<Event> {
    if log == [] then []
    else
      var e, front := log[|log| - 1], Connection(log[..|log| - 1]);
      if e.kind.Opened? then [e] else if front == [] then [] else front + [e]
  }

  /** The packets written, in order. */
  function Sends(events: seq<Event>): seq<Kind> {
    if events == [] then []
    else Sends(events[..|events| - 1]) + if events[|events| - 1].kind.Sent? then [events[|events| - 1].kind] else []
  }

  /** The events after the last packet of the given sort. */
  function Since(events: seq<Event>, what: What): seq<Event> {
    if events == [] then []
    else
      var e := events[|events| - 1];
      if e.kind.Sent? && e.kind.what == what then [] else Since(events[..|events| - 1], what) + [e]
  }

  /** When the last packet of the given sort was written. */
  function TimeOf(events: seq<Event>, what: What): Option<int> {
    if events == [] then None
    else
      var e := events[|events| - 1];
      if e.kind.Sent? && e.kind.what == what then Some(e.at) else TimeOf(events[..|events| - 1], what)
  }

  predicate Heard(events: seq<Event>, opcode: int) {
    exists i :: 0 <= i < |events| && events[i].kind.Received? && OpcodeOf(events[i].kind.bytes) == opcode
  }

  predicate HeardAck(events: seq<Event>) {
    exists i :: 0 <= i < |events| && events[i].kind.Received? && IsHandshakeAck(events[i].kind.bytes)
  }

  // -------------------------------------------------------------------------
  // What is promised
  // -------------------------------------------------------------------------

  function Opening(c: Config): seq<Kind> {
    if c.sendHandshake then [Sent(Handshake, HANDSHAKE)] else []
  }

  function Caps(c: Config): seq<Kind> {
    if c.hostCaps == [] then [] else [Sent(HostCaps, c.hostCaps)]
  }

  function Request(c: Config): seq<Kind> {
    if c.notifyRequest == [] then [] else [Sent(Notify, c.notifyRequest)]
  }

  /** Handshake, capabilities, request, one re-send; configured-out packets are missing. */
  function Script(c: Config): seq<Kind> {
    Opening(c) + Caps(c) + Request(c) + Request(c)
  }

  /** A handshake ack has arrived on this connection, or more than the timeout has passed since it opened. */
  predicate HandshakeOver(c: Config, before: seq<Event>, at: int)
    requires before != []
  {
    HeardAck(before) || Ms(at - before[0].at) > c.ackTimeoutMs
  }

  /** A features ack has arrived since the capabilities went out, or more than the timeout has passed since. */
  predicate FeaturesOver(c: Config, before: seq<Event>, at: int) {
    && TimeOf(before, HostCaps).Some?
    && (Heard(Since(before, HostCaps), OP_FEATURES_ACK) || Ms(at - TimeOf(before, HostCaps).value) > c.ackTimeoutMs)
  }

  /** No battery packet on this connection, and the re-send delay has passed on its millisecond clock. */
  predicate ResendDue(c: Config, before: seq<Event>, at: int)
    requires before != []
  {
    && !Heard(before, OP_BATTERY)
    && TimeOf(before, Notify).Some?
    && 0 <= c.notifyResendMs <= Ms(at - before[0].at) - Ms(TimeOf(before, Notify).value - before[0].at)
  }

  predicate Caused(c: Config, before: seq<Event>, at: int, what: What)
    requires before != []
  {
    match what
    case Handshake => true
    case HostCaps => c.ackDriven && c.sendHandshake ==> HandshakeOver(c, before, at)
    case Notify =>
      if TimeOf(before, Notify).Some? then ResendDue(c, before, at)
      else c.ackDriven && c.sendHandshake ==>
        if c.hostCaps == [] then HandshakeOver(c, before, at) else FeaturesOver(c, before, at)
  }

  /** A packet may follow `before` on its connection: the script continues with it and it has a cause. */
  predicate Permitted(c: Config, before: seq<Event>, e: Event) {
    && before != []
    && Sends(before) + [e.kind] <= Script(c)
    && (e.kind.Sent? ==> Caused(c, before, e.at, e.kind.what))
  }

  /** Every packet of every connection in the transcript was permitted where it stands. */
  predicate Disciplined(c: Config, log: seq<Event>) {
    log == [] ||
    var before, e := log[..|log| - 1], log[|log| - 1];
    Disciplined(c, before) && (e.kind.Sent? ==> Permitted(c, Connection(before), e))
  }

  // -------------------------------------------------------------------------
  // The invariant: the phase says exactly what has been sent
  // -------------------------------------------------------------------------

  predicate Abreast(c: Config, s: SessionState, conn: seq<Event>, now: int) {
    && conn != [] && conn[0].at == s.started <= s.phaseAt <= now
    && (s.batterySeen <==> Heard(conn, OP_BATTERY))
    && match s.phase
       case Closed => false
       case WaitHandshakeAck => Sends(conn) == Opening(c) && !s.notifyResent
       case WaitFeaturesAck =>
         && c.hostCaps != [] && Sends(conn) == Opening(c) + Caps(c) && !s.notifyResent
         && TimeOf(conn, HostCaps).Some? && TimeOf(conn, HostCaps).value <= s.phaseAt
         && TimeOf(conn, Notify).None?
       case Listening =>
         if s.notifyResent then Sends(conn) == Opening(c) + Caps(c) + Request(c) + Request(c)
         else Sends(conn) == Opening(c) + Caps(c) + Request(c) && Requested(c, s, conn)
  }

  predicate Requested(c: Config, s: SessionState, conn: seq<Event>) {
    c.notifyRequest != [] ==>
      && TimeOf(conn, Notify).Some?
      && Ms(TimeOf(conn, Notify).value - s.started) <= s.notifySentAt
  }

  predicate Speaks(c: Config, s: SessionState, w: World) {
    Disciplined(c, w.log) && (s.open ==> Abreast(c, s, Connection(w.log), w.now))
  }

  predicate Mentions(kinds: seq<Kind>, what: What) {
    exists i :: 0 <= i < |kinds| && kinds[i].Sent? && kinds[i].what == what
  }

  lemma {:induction false} SendsToTimes(events: seq<Event>, what: What)
    ensures TimeOf(events, what).Some? <==> Mentions(Sends(events), what)
  {
    if events != [] {
      var before, k := events[..|events| - 1], events[|events| - 1].kind;
      SendsToTimes(before, what);
      if Mentions(Sends(before), what) {
        var i :| 0 <= i < |Sends(before)| && Sends(before)[i].Sent? && Sends(before)[i].what == what;
        assert Sends(events)[i] == Sends(before)[i];
      }
      if k.Sent? {
        assert Sends(events)[|Sends(before)|] == k;
      }
    }
  }

  /** How one more event reads, on a connection already open. */
  lemma Appended(c: Config, w: World, kind: Kind)
    requires Connection(w.log) != [] && !kind.Opened?
    ensures var conn, e := Connection(w.log), Event(w.now, kind);
            && Connection(Record(w, kind).log) == conn + [e]
            && Sends(conn + [e]) == Sends(conn) + (if kind.Sent? then [kind] else [])
            && (forall op ::
                  Heard(conn + [e], op) <==> Heard(conn, op) || (kind.Received? && OpcodeOf(kind.bytes) == op))
            && (forall what :: TimeOf(conn + [e], what) ==
                               (if kind.Sent? && kind.what == what then Some(w.now) else TimeOf(conn, what)))
            && (Disciplined(c, Record(w, kind).log) <==>
                  Disciplined(c, w.log) && (kind.Sent? ==> Permitted(c, conn, e)))
  {
    var conn, e := Connection(w.log), Event(w.now, kind);
    assert Record(w, kind).log[..|w.log|] == w.log;
    assert (conn + [e])[..|conn|] == conn;
    forall op
      ensures Heard(conn + [e], op) <==> Heard(conn, op) || (kind.Received? && OpcodeOf(kind.bytes) == op)
    {
      if Heard(conn, op) {
        var i :| 0 <= i < |conn| && conn[i].kind.Received? && OpcodeOf(conn[i].kind.bytes) == op;
        assert (conn + [e])[i] == conn[i];
      }
      if kind.Received? {
        assert (conn + [e])[|conn|] == e;
      }
    }
  }

  /** Writing a permitted packet. */
  lemma EmitSpeaks(c: Config, w: World, what: What, bytes: seq<byte>)
    requires Disciplined(c, w.log) && Connection(w.log) != []
    requires bytes != [] && Emits(w, bytes) ==> Permitted(c, Connection(w.log), Event(Clock(w).now, Sent(what, bytes)))
    ensures Disciplined(c, AfterEmit(w, what, bytes).log)
    ensures AfterEmit(w, what, bytes).now >= w.now
    ensures var conn, conn' := Connection(w.log), Connection(AfterEmit(w, what, bytes).log);
            && conn' != [] && conn'[0] == conn[0]
            && (Emits(w, bytes) ==>
                  && Sends(conn') == Sends(conn) + (if bytes == [] then [] else [Sent(what, bytes)])
                  && (forall op :: Heard(conn', op) <==> Heard(conn, op))
                  && (bytes != [] ==>
                        && TimeOf(conn', what).Some?
                        && w.now <= TimeOf(conn', what).value <= AfterEmit(w, what, bytes).now)
                  && (forall other :: other != what || bytes == [] ==> TimeOf(conn', other) == TimeOf(conn, other)))
  {
    if bytes != [] && Emits(w, bytes) {
      Appended(c, Clock(w.(writes := Tail(w.writes))), Sent(what, bytes));
    }
  }

  lemma MsMonotone(a: int, b: int)
    requires a <= b
    ensures Ms(a) <= Ms(b)
  {
  }

  /** Requesting notifications where the script allows it. */
  lemma NotifySpeaks(c: Config, s: SessionState, w: World)
    requires s.open && Disciplined(c, w.log) && Connection(w.log) != []
    requires Connection(w.log)[0].at == s.started
    requires c.notifyRequest != [] && Emits(w, c.notifyRequest) ==>
               Permitted(c, Connection(w.log), Event(Clock(w).now, Sent(Notify, c.notifyRequest)))
    ensures var (s1, w1) := RequestNotify(c, s, w);
            && Disciplined(c, w1.log) && w1.now >= w.now
            && (s1.open ==>
                  var conn, conn1 := Connection(w.log), Connection(w1.log);
                  && s1 == s.(notifySentAt := s1.notifySentAt)
                  && conn1 != [] && conn1[0] == conn[0]
                  && Sends(conn1) == Sends(conn) + Request(c)
                  && (forall op :: Heard(conn1, op) <==> Heard(conn, op))
                  && Requested(c, s1, conn1))
  {
    EmitSpeaks(c, w, Notify, c.notifyRequest);
    var w1 := AfterEmit(w, Notify, c.notifyRequest);
    var conn1 := Connection(w1.log);
    if c.notifyRequest != [] && Emits(w, c.notifyRequest) {
      MsMonotone(TimeOf(conn1, Notify).value - s.started, Clock(w1).now - s.started);
    }
  }

  lemma NothingTimed(c: Config, conn: seq<Event>)
    ensures Sends(conn) == Opening(c) ==> TimeOf(conn, HostCaps).None? && TimeOf(conn, Notify).None?
    ensures Sends(conn) == Opening(c) + Caps(c) ==> TimeOf(conn, Notify).None?
  {
    SendsToTimes(conn, HostCaps);
    SendsToTimes(conn, Notify);
  }

  /** Leaving the handshake phase, on an ack or on a timeout. */
  lemma LeaveHandshakeSpeaks(c: Config, p: Progress, early: bool)
    requires p.s.open && Speaks(c, p.s, p.w) && p.s.phase == WaitHandshakeAck
    requires HandshakeOver(c, Connection(p.w.log), p.w.now)
    ensures var q := LeaveHandshake(c, p, early); Speaks(c, q.s, q.w) && q.w.now >= p.w.now
  {
    if c.hostCaps == [] {
      SkipCapsSpeaks(c, p, early);
    } else {
      SendCapsSpeaks(c, p, early);
    }
  }

  lemma SendCapsSpeaks(c: Config, p: Progress, early: bool)
    requires p.s.open && Speaks(c, p.s, p.w) && p.s.phase == WaitHandshakeAck && c.hostCaps != []
    requires HandshakeOver(c, Connection(p.w.log), p.w.now)
    ensures var q := LeaveHandshake(c, p, early); Speaks(c, q.s, q.w) && q.w.now >= p.w.now
  {
    var conn := Connection(p.w.log);
    NothingTimed(c, conn);
    MsMonotone(p.w.now - conn[0].at, Clock(p.w).now - conn[0].at);
    assert Opening(c) + [Sent(HostCaps, c.hostCaps)] <= Script(c);
    EmitSpeaks(c, p.w, HostCaps, c.hostCaps);
    if Emits(p.w, c.hostCaps) {
      NothingTimed(c, Connection(AfterEmit(p.w, HostCaps, c.hostCaps).log));
    }
  }

  lemma SkipCapsSpeaks(c: Config, p: Progress, early: bool)
    requires p.s.open && Speaks(c, p.s, p.w) && p.s.phase == WaitHandshakeAck && c.hostCaps == []
    requires HandshakeOver(c, Connection(p.w.log), p.w.now)
    ensures var q := LeaveHandshake(c, p, early); Speaks(c, q.s, q.w) && q.w.now >= p.w.now
  {
    var conn := Connection(p.w.log);
    var w2 := Clock(p.w);
    NothingTimed(c, conn);
    MsMonotone(p.w.now - conn[0].at, Clock(w2).now - conn[0].at);
    NotifySpeaks(c, Enter(p.s, p.w, Listening), w2);
  }

  /** Starting to listen, where the script has come to the first request. */
  lemma ListenSpeaks(c: Config, s: SessionState, w: World)
    requires s.open && Disciplined(c, w.log) && Connection(w.log) != []
    requires Connection(w.log)[0].at == s.started <= w.now && !s.notifyResent
    requires s.batterySeen <==> Heard(Connection(w.log), OP_BATTERY)
    requires Sends(Connection(w.log)) == Opening(c) + Caps(c)
    requires Caused(c, Connection(w.log), Clock(w).now, Notify)
    ensures var (s1, w1) := Listen(c, s, w); Speaks(c, s1, w1) && w1.now >= w.now
  {
    NotifySpeaks(c, s, w);
  }

  lemma LeaveFeaturesSpeaks(c: Config, p: Progress)
    requires p.s.open && Speaks(c, p.s, p.w) && p.s.phase == WaitFeaturesAck
    requires FeaturesOver(c, Connection(p.w.log), p.w.now)
    ensures var q := LeaveFeatures(c, p); Speaks(c, q.s, q.w) && q.w.now >= p.w.now
  {
    var conn := Connection(p.w.log);
    MsMonotone(p.w.now - TimeOf(conn, HostCaps).value, Clock(p.w).now - TimeOf(conn, HostCaps).value);
    ListenSpeaks(c, p.s, p.w);
  }

  lemma TimeoutSpeaks(c: Config, s: SessionState, w: World)
    requires s.open && Speaks(c, s, w)
    ensures var p := TimeoutStage(c, s, w); Speaks(c, p.s, p.w)
  {
    var w1 := Clock(w);
    var conn := Connection(w.log);
    if Waiting(s) && Ms(w1.now - s.phaseAt) > c.ackTimeoutMs {
      if s.phase == WaitHandshakeAck {
        MsMonotone(w1.now - s.phaseAt, w1.now - conn[0].at);
        LeaveHandshakeSpeaks(c, Progress(s, w1, QUIET.(note := Some(HandshakeAckTimeout))), false);
      } else {
        MsMonotone(w1.now - s.phaseAt, w1.now - TimeOf(conn, HostCaps).value);
        LeaveFeaturesSpeaks(c, Progress(s, w1, QUIET.(note := Some(FeaturesAckTimeout))));
      }
    }
  }

  lemma ResendSpeaks(c: Config, p: Progress)
    requires Speaks(c, p.s, p.w) && p.s.open == !p.out.closed
    ensures var q := ResendStage(c, p); Speaks(c, q.s, q.w)
  {
    if p.s.open && MayResend(c, p.s) {
      var w1 := Clock(p.w);
      var conn := Connection(p.w.log);
      if Ms(w1.now - p.s.started) - p.s.notifySentAt >= c.notifyResendMs {
        MsMonotone(w1.now - p.s.started, Clock(w1).now - p.s.started);
        NotifySpeaks(c, p.s.(notifyResent := true), w1);
      }
    }
  }

  /** What caching a packet leaves of a session that has just received it. */
  predicate Digested(p: Progress, s: SessionState, w: World, bytes: seq<byte>) {
    && p.s == s.(batterySeen := s.batterySeen || OpcodeOf(bytes) == OP_BATTERY,
                 battery := p.s.battery, batteryAt := p.s.batteryAt, refusals := p.s.refusals)
    && p.w.log == w.log && p.w.now >= w.now && p.out.bytes == bytes
  }

  lemma BatteryDigests(p: Progress)
    ensures Digested(BatteryStage(p), p.s, p.w, p.out.bytes)
    ensures BatteryStage(p).out.closed == p.out.closed
  {
  }

  /** A packet is heard before anything is made of it. */
  lemma PacketSpeaks(c: Config, s: SessionState, w: World, bytes: seq<byte>, p: Progress)
    requires s.open && Speaks(c, s, w) && ReadOutcome(w) == Packet(bytes)
    requires Digested(p, s, AfterRead(w), bytes)
    ensures p.s.open && Speaks(c, p.s, p.w)
    ensures var conn := Connection(p.w.log); conn != [] && conn[|conn| - 1].kind == Received(p.out.bytes)
  {
    Appended(c, Clock(w.(polls := Tail(w.polls))), Received(bytes));
    var conn := Connection(w.log) + [Event(Clock(w).now, Received(bytes))];
    assert conn[0] == Connection(w.log)[0];
    assert Connection(p.w.log) == conn;
  }

  lemma AckSpeaks(c: Config, p: Progress)
    requires p.s.open && Speaks(c, p.s, p.w)
    requires var conn := Connection(p.w.log); conn != [] && conn[|conn| - 1].kind == Received(p.out.bytes)
    ensures var q := AckStage(c, p); Speaks(c, q.s, q.w)
  {
    var conn := Connection(p.w.log);
    var last := conn[|conn| - 1];
    if p.s.phase == WaitHandshakeAck && IsHandshakeAck(p.out.bytes) {
      assert HeardAck(conn);
      LeaveHandshakeSpeaks(c, p, true);
    } else if p.s.phase == WaitFeaturesAck && OpcodeOf(p.out.bytes) == OP_FEATURES_ACK {
      var since := Since(conn, HostCaps);
      assert since[|since| - 1] == last;
      assert Heard(since, OP_FEATURES_ACK);
      LeaveFeaturesSpeaks(c, p);
    }
  }

  lemma ReadSpeaks(c: Config, p: Progress)
    requires Speaks(c, p.s, p.w) && p.s.open == !p.out.closed
    ensures var q := ReadStage(c, p); Speaks(c, q.s, q.w)
  {
    if p.s.open && ReadOutcome(p.w).Packet? {
      var bytes := ReadOutcome(p.w).bytes;
      var q := Progress(p.s, AfterRead(p.w), p.out.(packet := true, bytes := bytes));
      BatteryDigests(q);
      PacketSpeaks(c, p.s, p.w, bytes, BatteryStage(q));
      AckSpeaks(c, BatteryStage(q));
    }
  }

  lemma StagesAgree(c: Config, s: SessionState, w: World)
    requires s.open
    ensures var p := TimeoutStage(c, s, w); p.s.open == !p.out.closed
    ensures var p := ResendStage(c, TimeoutStage(c, s, w)); p.s.open == !p.out.closed
  {
    var p := TimeoutStage(c, s, w);
    assert p.s.open == !p.out.closed;
  }

  lemma StepSpeaks(c: Config, s: SessionState, w: World)
    requires Speaks(c, s, w)
    ensures var p := StepOf(c, s, w); Speaks(c, p.s, p.w)
  {
    if s.open {
      StagesAgree(c, s, w);
      TimeoutSpeaks(c, s, w);
      ResendSpeaks(c, TimeoutStage(c, s, w));
      ReadSpeaks(c, ResendStage(c, TimeoutStage(c, s, w)));
    }
  }

  lemma SendAllSpeaks(c: Config, s: SessionState, w: World)
    requires s.open && Speaks(c, s, w) && s.phase == WaitHandshakeAck && (!c.ackDriven || !c.sendHandshake)
    ensures var (s1, w1) := SendAll(c, s, w); Speaks(c, s1, w1)
  {
    var w1 := Clock(Pass(w, SETTLE_TICKS));
    NothingTimed(c, Connection(w.log));
    EmitSpeaks(c, w1, HostCaps, c.hostCaps);
    var w2 := AfterEmit(w1, HostCaps, c.hostCaps);
    if Emits(w1, c.hostCaps) {
      NothingTimed(c, Connection(w2.log));
      assert Opening(c) + [] == Opening(c);
      ListenSpeaks(c, s, if c.hostCaps == [] then w2 else Clock(Pass(w2, SETTLE_TICKS)));
    }
  }

  lemma ConnectedSpeaks(c: Config, s: SessionState, w: World)
    requires Disciplined(c, w.log)
    ensures var (s1, w1) := AfterConnected(c, s, w); Speaks(c, s1, w1)
  {
    var w1 := Record(Clock(w), Opened);
    assert w1.log[..|w.log|] == w.log;
    var s2 := Renewed(s, w1);
    var w2 := Clock(w1);
    assert Sends(Connection(w2.log)) == [];
    if c.sendHandshake {
      EmitSpeaks(c, w2, Handshake, HANDSHAKE);
      assert [] + Opening(c) == Opening(c);
    }
    var w3 := if c.sendHandshake then AfterEmit(w2, Handshake, HANDSHAKE) else w2;
    if (c.sendHandshake ==> Emits(w2, HANDSHAKE)) && (!c.ackDriven || !c.sendHandshake) {
      SendAllSpeaks(c, s2, w3);
    }
  }

  lemma OpenSpeaks(c: Config, s: SessionState, w: World)
    requires Speaks(c, s, w)
    ensures var (s1, w1) := OpenOf(c, s, w); Speaks(c, s1, w1)
  {
    assert AfterConnect(w).log[..|w.log|] == w.log;
    if ConnectOutcome(w).ok {
      ConnectedSpeaks(c, s, AfterConnect(w));
    }
  }

  // -------------------------------------------------------------------------
  // Main results, over every run
  // -------------------------------------------------------------------------

  lemma {:induction false} RunSpeaks(c: Config, p: Progress, ops: seq<Op>)
    requires Speaks(c, p.s, p.w)
    ensures Speaks(c, Run(c, p, ops).s, Run(c, p, ops).w)
    decreases ops
  {
    if ops != [] {
      match ops[0] {
        case Open => OpenSpeaks(c, p.s, p.w);
        case DoStep => StepSpeaks(c, p.s, p.w);
        case _ =>
      }
      RunSpeaks(c, Apply(c, p, ops[0]), ops[1..]);
    }
  }

  lemma {:induction false} DisciplinedPrefix(c: Config, log: seq<Event>, n: nat)
    requires Disciplined(c, log) && n <= |log|
    ensures Disciplined(c, log[..n])
    decreases |log| - n
  {
    if n < |log| {
      DisciplinedPrefix(c, log, n + 1);
      assert log[..n + 1][..n] == log[..n];
    } else {
      assert log[..n] == log;
    }
  }

  lemma {:induction false} SendsWithinScript(c: Config, log: seq<Event>)
    requires Disciplined(c, log)
    ensures Sends(Connection(log)) <= Script(c)
  {
    if log != [] {
      var before, e := log[..|log| - 1], log[|log| - 1];
      SendsWithinScript(c, before);
      var conn := Connection(before);
      if e.kind.Opened? {
        assert Sends([e]) == [];
      } else if conn != [] {
        assert (conn + [e])[..|conn|] == conn;
      }
    }
  }

  /** Whatever arrives and however often the channel is reopened: at every moment of the run the packets of the
      current connection are an initial piece of the script, and each packet ever written had its cause. */
  lemma SendLanguage(c: Config, w: World, ops: seq<Op>, n: nat)
    requires w.log == []
    requires n < |Run(c, Progress(FRESH, w, QUIET), ops).w.log|
    ensures var log := Run(c, Progress(FRESH, w, QUIET), ops).w.log;
            && Sends(Connection(log[..n])) <= Script(c)
            && (log[n].kind.Sent? ==>
                  && Connection(log[..n]) != []
                  && Sends(Connection(log[..n])) + [log[n].kind] <= Script(c)
                  && Caused(c, Connection(log[..n]), log[n].at, log[n].kind.what))
  {
    RunSpeaks(c, Progress(FRESH, w, QUIET), ops);
    var log := Run(c, Progress(FRESH, w, QUIET), ops).w.log;
    DisciplinedPrefix(c, log, n);
    DisciplinedPrefix(c, log, n + 1);
    SendsWithinScript(c, log[..n]);
    assert log[..n + 1][..n] == log[..n];
  }

  /** While the channel is open its phase says exactly what has been written on it. */
  lemma PhaseTellsSends(c: Config, w: World, ops: seq<Op>)
    requires w.log == []
    ensures var p := Run(c, Progress(FRESH, w, QUIET), ops);
            p.s.open ==>
              && Connection(p.w.log) != []
              && Sends(Connection(p.w.log)) ==
                 match p.s.phase
                 case Closed => []
                 case WaitHandshakeAck => Opening(c)
                 case WaitFeaturesAck => Opening(c) + Caps(c)
                 case Listening => Opening(c) + Caps(c) + Request(c) + if p.s.notifyResent then Request(c) else []
  {
    RunSpeaks(c, Progress(FRESH, w, QUIET), ops);
  }

  function Rank(p: Phase): nat {
    match p
    case Closed => 3
    case WaitHandshakeAck => 0
    case WaitFeaturesAck => 1
    case Listening => 2
  }

  lemma TimeoutRank(c: Config, s: SessionState, w: World)
    ensures Rank(s.phase) <= Rank(TimeoutStage(c, s, w).s.phase)
  {
  }

  lemma ResendRank(c: Config, p: Progress)
    ensures Rank(p.s.phase) <= Rank(ResendStage(c, p).s.phase)
  {
  }

  lemma ReadRank(c: Config, p: Progress)
    ensures Rank(p.s.phase) <= Rank(ReadStage(c, p).s.phase)
  {
    if !p.out.closed && ReadOutcome(p.w).Packet? {
      var q := BatteryStage(Progress(p.s, AfterRead(p.w), p.out.(packet := true, bytes := ReadOutcome(p.w).bytes)));
      assert q.s.phase == p.s.phase;
      assert Rank(q.s.phase) <= Rank(AckStage(c, q).s.phase);
    }
  }

  lemma StepRank(c: Config, s: SessionState, w: World)
    ensures Rank(s.phase) <= Rank(StepOf(c, s, w).s.phase)
  {
    TimeoutRank(c, s, w);
    ResendRank(c, TimeoutStage(c, s, w));
    ReadRank(c, ResendStage(c, TimeoutStage(c, s, w)));
  }

  /** Without reopening, the phase never goes back, whatever late or repeated acks arrive. */
  lemma {:induction false} RankNeverFalls(c: Config, p: Progress, ops: seq<Op>)
    requires Open !in ops
    ensures Rank(p.s.phase) <= Rank(Run(c, p, ops).s.phase)
    decreases ops
  {
    if ops != [] {
      assert ops[0] != Open;
      if ops[0] == DoStep {
        StepRank(c, p.s, p.w);
      }
      RankNeverFalls(c, Apply(c, p, ops[0]), ops[1..]);
    }
  }

  /** The phase is Closed exactly when there is no socket. */
  predicate PhaseTells(s: SessionState) {
    s.phase == Closed <==> !s.open
  }

  predicate Shuts(p: Progress) {
    PhaseTells(p.s) && (p.out.closed <==> !p.s.open)
  }

  lemma TimersShut(c: Config, s: SessionState, w: World)
    requires s.open && s.phase != Closed
    ensures Shuts(ResendStage(c, TimeoutStage(c, s, w)))
  {
    var p := TimeoutStage(c, s, w);
    assert Shuts(p);
  }

  lemma AckShuts(c: Config, p: Progress)
    requires Shuts(p) && p.s.open
    ensures Shuts(AckStage(c, p))
  {
  }

  lemma ReadShuts(c: Config, p: Progress)
    requires Shuts(p)
    ensures Shuts(ReadStage(c, p))
  {
    if p.s.open && ReadOutcome(p.w).Packet? {
      var q := Progress(p.s, AfterRead(p.w), p.out.(packet := true, bytes := ReadOutcome(p.w).bytes));
      BatteryDigests(q);
      AckShuts(c, BatteryStage(q));
    }
  }

  /** A step leaves the phase Closed exactly when it leaves the socket closed, and says so. */
  lemma StepShuts(c: Config, s: SessionState, w: World)
    requires PhaseTells(s)
    ensures Shuts(StepOf(c, s, w))
  {
    if s.open {
      TimersShut(c, s, w);
      ReadShuts(c, ResendStage(c, TimeoutStage(c, s, w)));
    }
  }
}
