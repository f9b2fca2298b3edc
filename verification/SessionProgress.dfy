/** What moves a session on: acks, timeouts, the re-send, and a connect whose packets are written. */
module SessionProgress {
  import opened Basics
  import opened Protocol
  import opened Battery
  import opened Environment
  import opened SessionModel
  import opened SessionProtocol

  /** The next poll brings a datagram that begins like this. */
  predicate Brings(w: World, prefix: seq<byte>) {
    var next := Head(w.polls, TimedOut);
    next.Datagram? && prefix <= next.bytes
  }

  /** The next poll or read says that the peer is gone. */
  predicate BringsTheEnd(w: World) {
    Head(w.polls, TimedOut) in {Failed, HungUp, Datagram([])}
  }

  predicate Expired(c: Config, s: SessionState, w: World) {
    Waiting(s) && Ms(Clock(w).now - s.phaseAt) > c.ackTimeoutMs
  }

  /** The packet is skipped, or the next write works. */
  predicate Goes(w: World, bytes: seq<byte>) {
    bytes == [] || Head(w.writes, true)
  }

  // -------------------------------------------------------------------------
  // Acks
  // -------------------------------------------------------------------------

  lemma WaitingReads(c: Config, s: SessionState, w: World)
    requires s.open && Waiting(s) && !Expired(c, s, w)
    ensures StepOf(c, s, w) == ReadStage(c, Progress(s, Clock(w), QUIET))
  {
  }

  lemma ReadPacket(w: World, prefix: seq<byte>)
    requires |prefix| <= READ_BUFFER && prefix != []
    ensures Brings(w, prefix) <==> ReadOutcome(w).Packet? && prefix <= ReadOutcome(w).bytes
    ensures BringsTheEnd(w) <==> ReadOutcome(w) == Gone
  {
  }

  lemma FeaturesOpcode(bytes: seq<byte>)
    ensures OpcodeOf(bytes) == OP_FEATURES_ACK <==> [4, 0, 4, 0, 0x2B, 0] <= bytes
    ensures OpcodeOf(bytes) == OP_BATTERY <==> [4, 0, 4, 0, 4, 0] <= bytes
  {
    if |bytes| >= 6 {
      assert bytes[..6] == bytes[..4] + [bytes[4], bytes[5]];
    }
  }

  /** The session after a read that is not the ack it waits for. */
  lemma OtherwiseWaits(c: Config, s: SessionState, w: World)
    requires s.open && Waiting(s) && !Expired(c, s, w)
    requires s.phase == WaitHandshakeAck ==> !Brings(w, [1, 0, 4, 0])
    requires s.phase == WaitFeaturesAck ==> !Brings(w, [4, 0, 4, 0, 0x2B, 0])
    ensures var q := StepOf(c, s, w);
            && (q.s.open <==> !BringsTheEnd(w))
            && (q.s.open ==> q.s.phase == s.phase)
            && !q.out.phaseChanged
  {
    WaitingReads(c, s, w);
    ReadPacket(Clock(w), [1, 0, 4, 0]);
    ReadPacket(Clock(w), [4, 0, 4, 0, 0x2B, 0]);
    if ReadOutcome(Clock(w)).Packet? {
      FeaturesOpcode(ReadOutcome(Clock(w)).bytes);
    }
  }

  /** Waiting for the features ack, before the timeout: a packet that begins 04 00 04 00 2B 00 makes the session request
      notifications and listen, if the write works, and closes it if not; without one nothing is written, and the
      session goes on waiting unless the peer is gone. */
  lemma FeaturesAckMovesOn(c: Config, s: SessionState, w: World)
    requires s.open && s.phase == WaitFeaturesAck && !Expired(c, s, w) && Speaks(c, s, w)
    ensures var q := StepOf(c, s, w);
            var acked := Brings(w, [4, 0, 4, 0, 0x2B, 0]);
            var moved := && q.s.open && q.s.phase == Listening && q.out.phaseChanged
                         && Sends(Connection(q.w.log)) == Sends(Connection(w.log)) + Request(c)
                         && q.s.notifySentAt <= Ms(q.w.now - s.started);
            && (moved <==> acked && Goes(w, c.notifyRequest))
            && (q.s.open <==> if acked then Goes(w, c.notifyRequest) else !BringsTheEnd(w))
            && (!acked && q.s.open ==>
                  q.s.phase == WaitFeaturesAck && Sends(Connection(q.w.log)) == Sends(Connection(w.log)))
  {
    StepSpeaks(c, s, w);
    if Brings(w, [4, 0, 4, 0, 0x2B, 0]) {
      FeaturesAcked(c, s, w);
    } else {
      OtherwiseWaits(c, s, w);
    }
  }

  lemma FeaturesAcked(c: Config, s: SessionState, w: World)
    requires s.open && s.phase == WaitFeaturesAck && !Expired(c, s, w) && Brings(w, [4, 0, 4, 0, 0x2B, 0])
    ensures var q := StepOf(c, s, w);
            && (q.s.open <==> Goes(w, c.notifyRequest))
            && (q.s.open ==> q.s.phase == Listening && q.out.phaseChanged && q.s.notifyResent == s.notifyResent)
            && (q.s.open ==> q.s.notifySentAt <= Ms(q.w.now - s.started))
  {
    WaitingReads(c, s, w);
    ReadPacket(Clock(w), [4, 0, 4, 0, 0x2B, 0]);
    FeaturesOpcode(ReadOutcome(Clock(w)).bytes);
    var p := Progress(s, AfterRead(Clock(w)), QUIET.(packet := true, bytes := ReadOutcome(Clock(w)).bytes));
    assert BatteryStage(p) == p;
    RequestStamps(c, s, p.w);
  }

  /** A request that goes out is stamped with a reading taken by the time listening begins. */
  lemma RequestStamps(c: Config, s: SessionState, w: World)
    requires s.open
    ensures var (s1, w1) := Listen(c, s, w);
            && (s1.open <==> Emits(w, c.notifyRequest))
            && (s1.open ==> s1.notifySentAt <= Ms(w1.now - s.started))
  {
    var (s0, w0) := RequestNotify(c, s, w);
    MsMonotone(w0.now - s.started, Clock(w0).now - s.started);
  }

  /** Waiting for the handshake ack, before the timeout: a packet that begins 01 00 04 00 makes the session send its
      capabilities and wait for their ack -- or, without capabilities, request notifications and listen -- if the write
      works, and closes it if not; without one nothing is written, and the session goes on waiting unless the peer is
      gone. */
  lemma HandshakeAckMovesOn(c: Config, s: SessionState, w: World)
    requires s.open && s.phase == WaitHandshakeAck && !Expired(c, s, w) && Speaks(c, s, w)
    ensures var q := StepOf(c, s, w);
            var acked := Brings(w, [1, 0, 4, 0]);
            var written := Goes(w, if c.hostCaps == [] then c.notifyRequest else c.hostCaps);
            var moved := && q.s.open && q.out.phaseChanged
                         && q.s.phase == (if c.hostCaps == [] then Listening else WaitFeaturesAck)
                         && Sends(Connection(q.w.log)) == Sends(Connection(w.log))
                                                          + if c.hostCaps == [] then Request(c) else Caps(c);
            && (moved <==> acked && written)
            && (q.s.open <==> if acked then written else !BringsTheEnd(w))
            && (!acked && q.s.open ==>
                  q.s.phase == WaitHandshakeAck && Sends(Connection(q.w.log)) == Sends(Connection(w.log)))
  {
    StepSpeaks(c, s, w);
    if Brings(w, [1, 0, 4, 0]) {
      HandshakeAcked(c, s, w);
    } else {
      OtherwiseWaits(c, s, w);
    }
  }

  lemma HandshakeAcked(c: Config, s: SessionState, w: World)
    requires s.open && s.phase == WaitHandshakeAck && !Expired(c, s, w) && Brings(w, [1, 0, 4, 0])
    ensures var q := StepOf(c, s, w);
            && (q.s.open <==> Goes(w, if c.hostCaps == [] then c.notifyRequest else c.hostCaps))
            && (q.s.open ==> q.out.phaseChanged && q.s.notifyResent == s.notifyResent)
            && (q.s.open ==> q.s.phase == if c.hostCaps == [] then Listening else WaitFeaturesAck)
  {
    WaitingReads(c, s, w);
    ReadPacket(Clock(w), [1, 0, 4, 0]);
    var bytes := ReadOutcome(Clock(w)).bytes;
    AckHasNoOpcode(bytes);
    var p := Progress(s, AfterRead(Clock(w)), QUIET.(packet := true, bytes := bytes));
    assert BatteryStage(p) == p;
  }

  // -------------------------------------------------------------------------
  // The re-send
  // -------------------------------------------------------------------------

  /** On the session's clock the delay since the last request has passed. */
  predicate DelayOver(c: Config, s: SessionState, w: World) {
    c.notifyResendMs >= 0 && s.notifySentAt >= 0 && Ms(Clock(w).now - s.started) - s.notifySentAt >= c.notifyResendMs
  }

  lemma ListeningReads(c: Config, s: SessionState, w: World)
    requires s.open && s.phase == Listening
    ensures TimeoutStage(c, s, w) == Progress(s, w, QUIET)
    ensures !(MayResend(c, s) && DelayOver(c, s, w)) ==>
              var w1 := if MayResend(c, s) then Clock(w) else w; StepOf(c, s, w) == ReadStage(c, Progress(s, w1, QUIET))
  {
  }

  lemma ReadListening(c: Config, p: Progress)
    requires p.s.open && p.s.phase == Listening && !p.out.closed
    ensures var q := ReadStage(c, p);
            && (q.s.open <==> !BringsTheEnd(p.w))
            && q.s.notifyResent == p.s.notifyResent && q.s.notifySentAt == p.s.notifySentAt
            && q.out.phaseChanged == p.out.phaseChanged
  {
    ReadPacket(p.w, [0]);
    if ReadOutcome(p.w).Packet? {
      var q := Progress(p.s, AfterRead(p.w), p.out.(packet := true, bytes := ReadOutcome(p.w).bytes));
      BatteryDigests(q);
      assert BatteryStage(q).out.phaseChanged == p.out.phaseChanged;
      assert AckStage(c, BatteryStage(q)) == BatteryStage(q);
    }
  }

  /** A listening session re-sends its request in a step exactly when it has not yet, no battery packet has been heard
      on the connection, and the delay is over; it then stays open exactly if the write works and the peer is there.
      Otherwise nothing is written. */
  lemma ResendHappens(c: Config, s: SessionState, w: World)
    requires s.open && s.phase == Listening && Speaks(c, s, w)
    ensures var q := StepOf(c, s, w);
            var conn := Connection(w.log);
            var first := Opening(c) + Caps(c) + Request(c);
            var due := !s.notifyResent && !Heard(conn, 4) && DelayOver(c, s, w);
            && (!s.notifyResent ==> Sends(conn) == first)
            && (q.s.open <==> !BringsTheEnd(w) && (due ==> Goes(w, c.notifyRequest)))
            && (q.s.open ==> Sends(Connection(q.w.log)) == if due then first + Request(c) else Sends(conn))
            && (q.s.open ==> q.s.notifyResent == (s.notifyResent || due))
            && !q.out.phaseChanged
  {
    StepSpeaks(c, s, w);
    if MayResend(c, s) && DelayOver(c, s, w) {
      ResendsOnce(c, s, w);
    } else {
      OnlyReads(c, s, w);
    }
    StepRank(c, s, w);
  }

  lemma OnlyReads(c: Config, s: SessionState, w: World)
    requires s.open && s.phase == Listening && !(MayResend(c, s) && DelayOver(c, s, w))
    ensures var q := StepOf(c, s, w);
            && (q.s.open <==> !BringsTheEnd(w)) && q.s.notifyResent == s.notifyResent && !q.out.phaseChanged
  {
    ListeningReads(c, s, w);
    ReadListening(c, Progress(s, if MayResend(c, s) then Clock(w) else w, QUIET));
  }

  lemma ResendsOnce(c: Config, s: SessionState, w: World)
    requires s.open && s.phase == Listening && MayResend(c, s) && DelayOver(c, s, w)
    ensures var q := StepOf(c, s, w);
            && (q.s.open <==> !BringsTheEnd(w) && Goes(w, c.notifyRequest))
            && (q.s.open ==> q.s.notifyResent)
            && !q.out.phaseChanged
  {
    ListeningReads(c, s, w);
    var p := ResendStage(c, Progress(s, w, QUIET));
    assert p == Resend(c, Progress(s, Clock(w), QUIET));
    assert p.s.open <==> Goes(w, c.notifyRequest);
    assert p.w.polls == w.polls;
    if p.s.open {
      ReadListening(c, p);
    }
  }

  // -------------------------------------------------------------------------
  // Connecting
  // -------------------------------------------------------------------------

  predicate TimerDriven(c: Config) {
    !c.ackDriven || !c.sendHandshake
  }

  /** What a connection writes before open() returns. */
  function Plan(c: Config): seq<Kind> {
    if TimerDriven(c) then Opening(c) + Caps(c) + Request(c) else Opening(c)
  }

  /** The next `n` writes work. */
  predicate WritesWork(writes: seq<bool>, n: nat)
    decreases n
  {
    n == 0 || (Head(writes, true) && WritesWork(Tail(writes), n - 1))
  }

  lemma EmitWrites(w: World, what: What, bytes: seq<byte>, more: nat)
    ensures WritesWork(w.writes, more + if bytes == [] then 0 else 1) <==>
            Emits(w, bytes) && WritesWork(AfterEmit(w, what, bytes).writes, more)
  {
  }

  lemma ListenOpens(c: Config, s: SessionState, w: World)
    requires s.open
    ensures Listen(c, s, w).0.open <==> WritesWork(w.writes, if c.notifyRequest == [] then 0 else 1)
  {
    EmitWrites(w, Notify, c.notifyRequest, 0);
  }

  lemma SendAllOpens(c: Config, s: SessionState, w: World)
    requires s.open
    ensures SendAll(c, s, w).0.open <==> WritesWork(w.writes, |Caps(c)| + |Request(c)|)
  {
    var w1 := Clock(Pass(w, SETTLE_TICKS));
    var w2 := AfterEmit(w1, HostCaps, c.hostCaps);
    EmitWrites(w1, HostCaps, c.hostCaps, |Request(c)|);
    ListenOpens(c, s, if c.hostCaps == [] then w2 else Clock(Pass(w2, SETTLE_TICKS)));
  }

  lemma ConnectedOpens(c: Config, s: SessionState, w: World)
    ensures AfterConnected(c, s, w).0.open <==> WritesWork(w.writes, |Plan(c)|)
  {
    var w1 := Record(Clock(w), Opened);
    var w2 := Clock(w1);
    if !TimerDriven(c) {
      EmitWrites(w2, Handshake, HANDSHAKE, 0);
    } else if c.sendHandshake {
      EmitWrites(w2, Handshake, HANDSHAKE, |Caps(c)| + |Request(c)|);
      SendAllOpens(c, Renewed(s, w1), AfterEmit(w2, Handshake, HANDSHAKE));
    } else {
      SendAllOpens(c, Renewed(s, w1), w2);
    }
  }

  /** open() succeeds exactly when the connect and every write of the plan do; the connection has then written exactly
      the plan, and waits for the handshake ack or, where nothing will be acked, listens. */
  lemma OpenSucceeds(c: Config, s: SessionState, w: World)
    requires Speaks(c, s, w)
    ensures var (s1, w1) := OpenOf(c, s, w);
            && (s1.open <==> ConnectOutcome(w).ok && WritesWork(w.writes, |Plan(c)|))
            && (s1.open ==>
                  && s1.phase == (if TimerDriven(c) then Listening else WaitHandshakeAck)
                  && Sends(Connection(w1.log)) == Plan(c))
  {
    OpenSpeaks(c, s, w);
    if ConnectOutcome(w).ok {
      ConnectedOpens(c, s, AfterConnect(w));
      if OpenOf(c, s, w).0.open {
        OpenPhaseOf(c, s, w);
      }
    }
  }

  lemma OpenPhaseOf(c: Config, s: SessionState, w: World)
    requires OpenOf(c, s, w).0.open
    ensures var s1 := OpenOf(c, s, w).0;
            s1.phase == (if TimerDriven(c) then Listening else WaitHandshakeAck) && !s1.notifyResent
  {
  }

  /** Why open() failed: the socket's own answer, the handshake that could not be written, or the socket's words again
      when a later packet of the sequence could not. */
  lemma OpenTellsWhy(c: Config, s: SessionState, w: World)
    ensures var r, answer := OpenResult(c, s, w), ConnectOutcome(w);
            r == if !answer.ok || WritesWork(w.writes, |Plan(c)|) then answer
                 else if c.sendHandshake && !Head(w.writes, true) then
                   ConnectResult(false, answer.reached, "channel opened but the handshake could not be written")
                 else ConnectResult(false, answer.reached, answer.diagnosis)
  {
    if ConnectOutcome(w).ok {
      ConnectedOpens(c, s, AfterConnect(w));
    }
  }

  lemma EmitTimes(c: Config, w: World, what: What, bytes: seq<byte>)
    requires Connection(w.log) != [] && Emits(w, bytes)
    ensures var w1 := AfterEmit(w, what, bytes);
            var conn, conn1 := Connection(w.log), Connection(w1.log);
            && conn1 != [] && conn1[0] == conn[0] && w1.now >= w.now
            && (bytes != [] ==> TimeOf(conn1, what).Some? && w.now <= TimeOf(conn1, what).value <= w1.now)
            && (forall other :: other != what || bytes == [] ==> TimeOf(conn1, other) == TimeOf(conn, other))
  {
    if bytes != [] {
      Appended(c, Clock(w.(writes := Tail(w.writes))), Sent(what, bytes));
    }
  }

  /** Where nothing is acked the packets are spaced out instead: capabilities leave at least 200 ms after the connection
      opened, and the request at least 200 ms after what came before it. */
  predicate Spaced(c: Config, conn: seq<Event>) {
    && conn != []
    && (c.hostCaps != [] ==>
          && TimeOf(conn, HostCaps).Some?
          && TimeOf(conn, HostCaps).value >= conn[0].at + 200_000_000)
    && (c.notifyRequest != [] ==>
          && TimeOf(conn, Notify).Some?
          && TimeOf(conn, Notify).value >=
             (if c.hostCaps != [] then TimeOf(conn, HostCaps).value else conn[0].at) + 200_000_000)
  }

  lemma SendAllSpaced(c: Config, s: SessionState, w: World)
    requires Connection(w.log) != [] && Connection(w.log)[0].at <= w.now && s.open && SendAll(c, s, w).0.open
    ensures Spaced(c, Connection(SendAll(c, s, w).1.log))
  {
    var w1 := Clock(Pass(w, SETTLE_TICKS));
    var w2 := AfterEmit(w1, HostCaps, c.hostCaps);
    EmitTimes(c, w1, HostCaps, c.hostCaps);
    EmitTimes(c, if c.hostCaps == [] then w2 else Clock(Pass(w2, SETTLE_TICKS)), Notify, c.notifyRequest);
  }

  lemma OpenSpaces(c: Config, s: SessionState, w: World)
    requires TimerDriven(c) && OpenOf(c, s, w).0.open
    ensures Spaced(c, Connection(OpenOf(c, s, w).1.log))
  {
    var w1 := Record(Clock(AfterConnect(w)), Opened);
    var w2 := Clock(w1);
    assert w1.log[..|w1.log| - 1] == AfterConnect(w).log;
    assert Connection(w1.log) == [Event(w1.now, Opened)];
    if c.sendHandshake {
      EmitTimes(c, w2, Handshake, HANDSHAKE);
    }
    SendAllSpaced(c, Renewed(s, w1), if c.sendHandshake then AfterEmit(w2, Handshake, HANDSHAKE) else w2);
  }

  // -------------------------------------------------------------------------
  // What a step reports
  // -------------------------------------------------------------------------

  /** The datagram at hand, cut to the read buffer. */
  function Incoming(w: World): seq<byte> {
    var next := Head(w.polls, TimedOut);
    if next.Datagram? then (if |next.bytes| > 1024 then next.bytes[..1024] else next.bytes) else []
  }

  /** Due for a re-send before anything is read. */
  predicate ResendIsDue(c: Config, s: SessionState, w: World) {
    s.phase == Listening && !s.notifyResent && !s.batterySeen && DelayOver(c, s, w)
  }

  /** What the timers report of a session before it reads. */
  lemma TimersReport(c: Config, s: SessionState, w: World)
    requires s.open && s.phase != Closed
    ensures var p := TimeoutStage(c, s, w);
            && !p.out.packet && !p.out.battery && p.out.bytes == [] && p.w.polls == w.polls
            && p.s.open == !p.out.closed
            && (p.s.open ==> (p.out.phaseChanged <==> p.s.phase != s.phase))
            && (p.out.phaseChanged ==> p.out.note.Some?)
            && p.out.note == (if !Expired(c, s, w) then None
                              else if s.phase == WaitHandshakeAck then Some(HandshakeAckTimeout)
                              else Some(FeaturesAckTimeout))
            && (p.out.note.None? ==> p.w.log == w.log && p.s == s && p.out == QUIET)
            && (p.s.open && Expired(c, s, w) ==> p.s.phase != s.phase)
  {
  }

  lemma ResendReports(c: Config, p: Progress)
    requires p.s.open == !p.out.closed
    ensures var q := ResendStage(c, p);
            && q.out.packet == p.out.packet && q.out.battery == p.out.battery && q.out.bytes == p.out.bytes
            && q.out.phaseChanged == p.out.phaseChanged && q.w.polls == p.w.polls
            && q.s.open == !q.out.closed && (q.s.open ==> p.s.open && q.s.phase == p.s.phase)
            && (p.out.note.Some? ==> q.out.note == p.out.note)
            && (p.out.note.None? && p.s.open ==>
                  q.out.note == if ResendIsDue(c, p.s, p.w) then Some(Resending) else None)
            && (p.out.closed ==> q == p)
            && (q.out.note.None? ==> q.w.log == p.w.log && q.out == p.out)
  {
  }

  lemma AckReports(c: Config, p: Progress)
    requires p.s.open == !p.out.closed && p.s.open
    ensures var q := AckStage(c, p);
            && q.out.packet == p.out.packet && q.out.battery == p.out.battery && q.out.bytes == p.out.bytes
            && q.out.note == p.out.note
            && (q.s.open ==> (q.out.phaseChanged <==> p.out.phaseChanged || q.s.phase != p.s.phase))
  {
  }

  lemma ReadReports(c: Config, p: Progress)
    requires p.s.open == !p.out.closed && !p.out.packet && !p.out.battery && p.out.bytes == []
    ensures var q := ReadStage(c, p);
            && (q.out.packet <==> p.s.open && Incoming(p.w) != [])
            && (q.out.packet ==> q.out.bytes == Incoming(p.w))
            && (q.out.battery <==> q.out.packet && Parse(q.out.bytes).Some?)
            && (q.s.open ==> p.s.open && (q.out.phaseChanged <==> p.out.phaseChanged || q.s.phase != p.s.phase))
            && (p.out.note.Some? ==> q.out.note == p.out.note)
            && (p.out.note.None? ==>
                  q.out.note == if p.s.open && BringsTheEnd(p.w) then Some(ClosedByPeer)
                                else if q.out.packet && [4, 0, 4, 0, 4, 0] <= q.out.bytes && Parse(q.out.bytes).None?
                                then Some(ParseRefused) else None)
            && (!q.out.packet ==> q.w.log == p.w.log)
            && (Incoming(p.w) == [] && !BringsTheEnd(p.w) ==> q.out == p.out)
  {
    ReadPacket(p.w, [0]);
    if p.s.open && ReadOutcome(p.w).Packet? {
      var bytes := ReadOutcome(p.w).bytes;
      FeaturesOpcode(bytes);
      AckReports(c, BatteryStage(Progress(p.s, AfterRead(p.w), p.out.(packet := true, bytes := bytes))));
    }
  }

  /** What a step says of itself: the packet it read, whether that was an accepted battery packet, whether the phase is
      another, and the first of a timeout, a re-send, the end of the connection and a refused battery packet. A step is
      idle exactly when no timer had run out and nothing had come; it has then written and read nothing. */
  lemma StepReports(c: Config, s: SessionState, w: World)
    requires s.open && s.phase != Closed
    ensures var q := StepOf(c, s, w);
            && (q.out.packet ==> Incoming(w) != [] && q.out.bytes == Incoming(w))
            && (q.s.open ==> (q.out.packet <==> Incoming(w) != []))
            && (q.out.battery <==> q.out.packet && Parse(q.out.bytes).Some?)
            && (q.s.open ==> (q.out.phaseChanged <==> q.s.phase != s.phase))
            && (q.s.open && Expired(c, s, w) ==> q.s.phase != s.phase)
            && q.out.note == (if Expired(c, s, w) then
                                Some(if s.phase == WaitHandshakeAck then HandshakeAckTimeout else FeaturesAckTimeout)
                              else if ResendIsDue(c, s, w) then Some(Resending)
                              else if BringsTheEnd(w) then Some(ClosedByPeer)
                              else if q.out.packet && [4, 0, 4, 0, 4, 0] <= q.out.bytes && Parse(q.out.bytes).None?
                              then Some(ParseRefused) else None)
            && (q.out.Idle() <==>
                  !Expired(c, s, w) && !ResendIsDue(c, s, w) && !BringsTheEnd(w) && Incoming(w) == [])
            && (q.out.Idle() ==> q.w.log == w.log)
  {
    var p := TimeoutStage(c, s, w);
    var r := ResendStage(c, p);
    TimersReport(c, s, w);
    ResendReports(c, p);
    ReadReports(c, r);
    TimeoutRank(c, s, w);
    ReadRank(c, r);
    SameRank(s.phase, p.s.phase);
    SameRank(r.s.phase, StepOf(c, s, w).s.phase);
  }

  lemma SameRank(a: Phase, b: Phase)
    ensures Rank(a) == Rank(b) <==> a == b
  {
  }
}
