/** If left and right were exchanged in every battery packet, BlueZ could not tell: the whole daemon commutes with the
    exchange, and the number it publishes is symmetric. */
module Transposition {
  import opened Basics
  import opened Protocol
  import opened Battery
  import opened Environment
  import opened SessionModel

  // -------------------------------------------------------------------------
  // Packets and reports
  // -------------------------------------------------------------------------

  function MirrorComponent(c: Component): Component {
    match c
    case Left => Right
    case Right => Left
    case Case => Case
  }

  function MirrorByte(b: byte): byte {
    if b == 2 then 4 else if b == 4 then 2 else b
  }

  /** Exchanging the component byte of every block. */
  function MirrorBlocks(p: seq<byte>): seq<byte> {
    seq(|p|, i requires 0 <= i < |p| => if i % BLOCK_SIZE == 0 then MirrorByte(p[i]) else p[i])
  }

  function MirrorPacket(p: seq<byte>): seq<byte> {
    if WellFramed(p) then p[..FIRST_BLOCK] + MirrorBlocks(p[FIRST_BLOCK..]) else p
  }

  function MirrorReading(r: Reading): Reading {
    r.(component := MirrorComponent(r.component))
  }

  function MirrorReport(report: Report): Report {
    seq(|report|, i requires 0 <= i < |report| => MirrorReading(report[i]))
  }

  function MirrorDecoded(bs: seq<Block>): seq<Block> {
    seq(|bs|, i requires 0 <= i < |bs| => bs[i].(component := MirrorComponent(bs[i].component)))
  }

  lemma {:induction false} MirrorDecodes(p: seq<byte>)
    requires |p| % BLOCK_SIZE == 0
    ensures DecodeBlocks(MirrorBlocks(p)) ==
            match DecodeBlocks(p) case None => None case Some(bs) => Some(MirrorDecoded(bs))
  {
    if p == [] {
      assert MirrorDecoded([]) == [];
    } else {
      var q := MirrorBlocks(p);
      assert q[BLOCK_SIZE..] == MirrorBlocks(p[BLOCK_SIZE..]);
      MirrorDecodes(p[BLOCK_SIZE..]);
      assert q[0] == MirrorByte(p[0]) && q[1] == p[1] && q[2] == p[2] && q[3] == p[3] && q[4] == p[4];
      assert DecodeBlock(q) == match DecodeBlock(p) case None => None
                               case Some(b) => Some(b.(component := MirrorComponent(b.component)));
      if DecodeBlocks(p).Some? {
        var b, bs := DecodeBlock(p).value, DecodeBlocks(p[BLOCK_SIZE..]).value;
        assert MirrorDecoded([b] + bs) == [b.(component := MirrorComponent(b.component))] + MirrorDecoded(bs);
      }
    }
  }

  /** The exchange changes no classification and exchanges exactly the readings. */
  lemma MirrorParses(p: seq<byte>)
    ensures |MirrorPacket(p)| == |p|
    ensures OpcodeOf(MirrorPacket(p)) == OpcodeOf(p)
    ensures IsHandshakeAck(MirrorPacket(p)) == IsHandshakeAck(p)
    ensures Parse(MirrorPacket(p)) == match Parse(p) case None => None case Some(r) => Some(MirrorReport(r))
  {
    if WellFramed(p) {
      var q := MirrorPacket(p);
      assert q[..FIRST_BLOCK] == p[..FIRST_BLOCK];
      assert forall i :: 0 <= i < FIRST_BLOCK ==> q[i] == q[..FIRST_BLOCK][i] == p[i];
      assert q[FIRST_BLOCK..] == MirrorBlocks(p[FIRST_BLOCK..]);
      assert q[..4] == p[..4];
      MirrorDecodes(p[FIRST_BLOCK..]);
      if Blocks(p).Some? {
        assert ReadBlocks(MirrorDecoded(Blocks(p).value)) == MirrorReport(ReadBlocks(Blocks(p).value));
      }
    }
  }

  // -------------------------------------------------------------------------
  // Worlds and sessions
  // -------------------------------------------------------------------------

  /** A datagram longer than the buffer never reaches the parser whole and is left alone. */
  function MirrorPoll(p: Poll): Poll {
    match p
    case Datagram(bytes) => if |bytes| > READ_BUFFER then p else Datagram(MirrorPacket(bytes))
    case _ => p
  }

  function MirrorEvent(e: Event): Event {
    if e.kind.Received? then Event(e.at, Received(MirrorPacket(e.kind.bytes))) else e
  }

  function MirrorPolls(polls: seq<Poll>): seq<Poll> {
    seq(|polls|, i requires 0 <= i < |polls| => MirrorPoll(polls[i]))
  }

  function MirrorLog(log: seq<Event>): seq<Event> {
    seq(|log|, i requires 0 <= i < |log| => MirrorEvent(log[i]))
  }

  function MirrorWorld(w: World): World {
    w.(polls := MirrorPolls(w.polls), log := MirrorLog(w.log))
  }

  function MirrorSession(s: SessionState): SessionState {
    s.(battery := if s.battery.None? then None else Some(MirrorReport(s.battery.value)))
  }

  function MirrorProgress(p: Progress): Progress {
    Progress(MirrorSession(p.s), MirrorWorld(p.w), p.out.(bytes := MirrorPacket(p.out.bytes)))
  }

  function MirrorPair(p: (SessionState, World)): (SessionState, World) {
    (MirrorSession(p.0), MirrorWorld(p.1))
  }

  lemma MirrorRecord(w: World, kind: Kind)
    ensures MirrorWorld(Record(w, kind)) == Record(MirrorWorld(w), MirrorEvent(Event(0, kind)).kind)
  {
    assert MirrorLog(w.log + [Event(w.now, kind)]) == MirrorLog(w.log) + [MirrorEvent(Event(w.now, kind))];
  }

  lemma MirrorEmit(w: World, what: What, bytes: seq<byte>)
    ensures Emits(MirrorWorld(w), bytes) == Emits(w, bytes)
    ensures AfterEmit(MirrorWorld(w), what, bytes) == MirrorWorld(AfterEmit(w, what, bytes))
  {
    MirrorRecord(Clock(w.(writes := Tail(w.writes))), Sent(what, bytes));
  }

  lemma MirrorListen(c: Config, s: SessionState, w: World)
    ensures RequestNotify(c, MirrorSession(s), MirrorWorld(w)) == MirrorPair(RequestNotify(c, s, w))
    ensures Listen(c, MirrorSession(s), MirrorWorld(w)) == MirrorPair(Listen(c, s, w))
  {
    MirrorEmit(w, Notify, c.notifyRequest);
  }

  lemma MirrorLeaveHandshake(c: Config, p: Progress, early: bool)
    ensures LeaveHandshake(c, MirrorProgress(p), early) == MirrorProgress(LeaveHandshake(c, p, early))
  {
    MirrorEmit(p.w, HostCaps, c.hostCaps);
    if Emits(p.w, c.hostCaps) && c.hostCaps == [] {
      MirrorEnter(p.s, p.w, Listening);
      MirrorListen(c, Enter(p.s, p.w, Listening), Clock(p.w));
    }
  }

  lemma MirrorLeaveFeatures(c: Config, p: Progress)
    ensures LeaveFeatures(c, MirrorProgress(p)) == MirrorProgress(LeaveFeatures(c, p))
  {
    MirrorListen(c, p.s, p.w);
  }

  lemma MirrorEnter(s: SessionState, w: World, p: Phase)
    ensures Enter(MirrorSession(s), MirrorWorld(w), p) == MirrorSession(Enter(s, w, p))
    ensures MirrorWorld(Clock(w)) == Clock(MirrorWorld(w))
  {
  }

  lemma MirrorNoted(s: SessionState, w: World, note: Note)
    ensures Progress(MirrorSession(s), Clock(MirrorWorld(w)), QUIET.(note := Some(note)))
         == MirrorProgress(Progress(s, Clock(w), QUIET.(note := Some(note))))
  {
  }

  lemma MirrorTimeout(c: Config, s: SessionState, w: World)
    ensures TimeoutStage(c, MirrorSession(s), MirrorWorld(w)) == MirrorProgress(TimeoutStage(c, s, w))
  {
    if s.phase == WaitHandshakeAck {
      MirrorNoted(s, w, HandshakeAckTimeout);
      MirrorLeaveHandshake(c, Progress(s, Clock(w), QUIET.(note := Some(HandshakeAckTimeout))), false);
    } else if s.phase == WaitFeaturesAck {
      MirrorNoted(s, w, FeaturesAckTimeout);
      MirrorLeaveFeatures(c, Progress(s, Clock(w), QUIET.(note := Some(FeaturesAckTimeout))));
    }
  }

  lemma MirrorResend(c: Config, p: Progress)
    ensures Resend(c, MirrorProgress(p)) == MirrorProgress(Resend(c, p))
  {
    MirrorListen(c, p.s.(notifyResent := true), p.w);
    assert MirrorSession(p.s.(notifyResent := true)) == MirrorSession(p.s).(notifyResent := true);
  }

  lemma MirrorResendStage(c: Config, p: Progress)
    ensures ResendStage(c, MirrorProgress(p)) == MirrorProgress(ResendStage(c, p))
  {
    MirrorResend(c, p.(w := Clock(p.w)));
    assert MirrorProgress(p.(w := Clock(p.w))) == MirrorProgress(p).(w := Clock(MirrorWorld(p.w)));
  }

  lemma MirrorDigest(p: Progress, report: Option<Report>)
    ensures Digest(MirrorProgress(p), match report case None => None case Some(r) => Some(MirrorReport(r)))
         == MirrorProgress(Digest(p, report))
  {
  }

  lemma MirrorBattery(p: Progress)
    ensures BatteryStage(MirrorProgress(p)) == MirrorProgress(BatteryStage(p))
  {
    MirrorParses(p.out.bytes);
    MirrorDigest(p, Parse(p.out.bytes));
  }

  lemma MirrorAck(c: Config, p: Progress)
    ensures AckStage(c, MirrorProgress(p)) == MirrorProgress(AckStage(c, p))
  {
    MirrorParses(p.out.bytes);
    if p.s.phase == WaitHandshakeAck {
      MirrorLeaveHandshake(c, p, true);
    } else {
      MirrorLeaveFeatures(c, p);
    }
  }

  lemma MirrorReadOutcome(w: World)
    ensures ReadOutcome(MirrorWorld(w)) ==
            match ReadOutcome(w) case Packet(b) => Packet(MirrorPacket(b)) case other => other
    ensures AfterRead(MirrorWorld(w)) == MirrorWorld(AfterRead(w))
  {
    if w.polls != [] {
      assert MirrorPolls(w.polls)[1..] == MirrorPolls(w.polls[1..]);
    }
    if w.polls != [] && w.polls[0].Datagram? {
      var bytes := w.polls[0].bytes;
      MirrorParses(bytes);
      if |bytes| > READ_BUFFER {
        assert !WellFramed(bytes[..READ_BUFFER]);
      }
      if bytes != [] {
        MirrorRecord(Clock(w.(polls := Tail(w.polls))), Received(ReadOutcome(w).bytes));
      }
    }
  }

  lemma MirrorRead(c: Config, p: Progress)
    ensures ReadStage(c, MirrorProgress(p)) == MirrorProgress(ReadStage(c, p))
  {
    MirrorReadOutcome(p.w);
    if ReadOutcome(p.w).Packet? {
      var q := Progress(p.s, AfterRead(p.w), p.out.(packet := true, bytes := ReadOutcome(p.w).bytes));
      MirrorBattery(q);
      MirrorAck(c, BatteryStage(q));
    }
  }

  lemma MirrorStep(c: Config, s: SessionState, w: World)
    ensures StepOf(c, MirrorSession(s), MirrorWorld(w)) == MirrorProgress(StepOf(c, s, w))
  {
    MirrorTimeout(c, s, w);
    MirrorResendStage(c, TimeoutStage(c, s, w));
    MirrorRead(c, ResendStage(c, TimeoutStage(c, s, w)));
  }

  lemma MirrorPass(w: World, ticks: nat)
    ensures MirrorWorld(Clock(Pass(w, ticks))) == Clock(Pass(MirrorWorld(w), ticks))
  {
  }

  lemma MirrorSendAll(c: Config, s: SessionState, w: World)
    ensures SendAll(c, MirrorSession(s), MirrorWorld(w)) == MirrorPair(SendAll(c, s, w))
  {
    var w1 := Clock(Pass(w, SETTLE_TICKS));
    MirrorPass(w, SETTLE_TICKS);
    MirrorEmit(w1, HostCaps, c.hostCaps);
    if Emits(w1, c.hostCaps) {
      var w2 := AfterEmit(w1, HostCaps, c.hostCaps);
      MirrorPass(w2, SETTLE_TICKS);
      MirrorListen(c, s, if c.hostCaps == [] then w2 else Clock(Pass(w2, SETTLE_TICKS)));
    }
  }

  lemma MirrorRenewed(s: SessionState, w: World)
    ensures Renewed(MirrorSession(s), MirrorWorld(w)) == MirrorSession(Renewed(s, w))
  {
  }

  lemma MirrorConnected(c: Config, s: SessionState, w: World)
    ensures AfterConnected(c, MirrorSession(s), MirrorWorld(w)) == MirrorPair(AfterConnected(c, s, w))
  {
    MirrorRecord(Clock(w), Opened);
    var w1 := Record(Clock(w), Opened);
    var s2, w2 := Renewed(s, w1), Clock(w1);
    MirrorRenewed(s, w1);
    MirrorEmit(w2, Handshake, HANDSHAKE);
    MirrorSendAll(c, s2, if c.sendHandshake then AfterEmit(w2, Handshake, HANDSHAKE) else w2);
  }

  lemma MirrorOpen(c: Config, s: SessionState, w: World)
    ensures OpenOf(c, MirrorSession(s), MirrorWorld(w)) == MirrorPair(OpenOf(c, s, w))
    ensures OpenResult(c, MirrorSession(s), MirrorWorld(w)) == OpenResult(c, s, w)
  {
    MirrorTried(w);
    MirrorConnected(c, s, AfterConnect(w));
    var w1 := Clock(AfterConnect(w));
    assert Emits(Clock(Record(Clock(AfterConnect(MirrorWorld(w))), Opened)), HANDSHAKE)
        == Emits(Clock(Record(w1, Opened)), HANDSHAKE);
  }

  lemma MirrorTried(w: World)
    ensures AfterConnect(MirrorWorld(w)) == MirrorWorld(AfterConnect(w))
    ensures ConnectOutcome(MirrorWorld(w)) == ConnectOutcome(w)
  {
    MirrorRecord(Clock(w.(connects := Tail(w.connects))), Tried);
  }
}
