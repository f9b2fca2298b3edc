/** What each Session operation does, as functions of the session's fields and the world. The Session class is
    proved to compute exactly these; the properties of whole runs are proved about them. */
module SessionModel {
  import opened Basics
  import opened Protocol
  import opened Battery
  import opened Environment

  datatype Config = Config(
    hostCaps: seq<byte>,
    notifyRequest: seq<byte>,
    ackDriven: bool,
    sendHandshake: bool,
    ackTimeoutMs: int,
    notifyResendMs: int)

  const DEFAULTS := Config(HOST_CAPS_D7, REQUEST_NOTIFY_5, true, true, 2000, 2000)

  const SETTLE_TICKS: nat := 200 * TICKS_PER_MS

  datatype Phase = Closed | WaitHandshakeAck | WaitFeaturesAck | Listening

  function PhaseName(p: Phase): string {
    match p
    case Closed => "closed"
    case WaitHandshakeAck => "wait-handshake-ack"
    case WaitFeaturesAck => "wait-features-ack"
    case Listening => "listening"
  }

  datatype Note = HandshakeAckTimeout | FeaturesAckTimeout | Resending | ClosedByPeer | ParseRefused

  datatype Step =
    Step(packet: bool, battery: bool, closed: bool, phaseChanged: bool, note: Option<Note>, bytes: seq<byte>)
  {
    predicate Idle() {
      !packet && !closed && !phaseChanged && note.None?
    }
  }

  const QUIET := Step(false, false, false, false, None, [])
  const GONE := QUIET.(closed := true)

  datatype SessionState = SessionState(
    open: bool,
    phase: Phase,
    started: int,
    phaseAt: int,
    battery: Option<Report>,
    batteryAt: int,
    batterySeen: bool,
    refusals: nat,
    notifySentAt: int,
    notifyResent: bool)

  const FRESH := SessionState(false, Closed, 0, 0, None, 0, false, 0, -1, false)

  /** A session and its world part-way through a step, with what the step has reported so far. */
  datatype Progress = Progress(s: SessionState, w: World, out: Step)

  function BatteryAgeMs(s: SessionState, now: int): int {
    if s.battery.None? then -1 else Ms(now - s.batteryAt)
  }

  function Shut(s: SessionState): SessionState {
    s.(open := false, phase := Closed)
  }

  /** Sending an empty packet succeeds without touching the socket. */
  function Emits(w: World, bytes: seq<byte>): bool {
    bytes == [] || WriteOutcome(w)
  }

  function AfterEmit(w: World, what: What, bytes: seq<byte>): World {
    if bytes == [] then w else AfterWrite(w, what, bytes)
  }

  function Enter(s: SessionState, w: World, p: Phase): SessionState {
    s.(phase := p, phaseAt := Clock(w).now)
  }

  /** Requesting notifications either closes the session or stamps the request. */
  function RequestNotify(c: Config, s: SessionState, w: World): (SessionState, World) {
    var w1 := AfterEmit(w, Notify, c.notifyRequest);
    if Emits(w, c.notifyRequest)
    then (s.(notifySentAt := Ms(Clock(w1).now - s.started)), Clock(w1))
    else (Shut(s), w1)
  }

  /** Leaving WaitHandshakeAck: capabilities, then the request at once when there are no capabilities to ack. */
  function LeaveHandshake(c: Config, p: Progress, reportEarly: bool): Progress {
    var w1 := AfterEmit(p.w, HostCaps, c.hostCaps);
    if !Emits(p.w, c.hostCaps) then Progress(Shut(p.s), w1, p.out.(closed := true))
    else if c.hostCaps != [] then
      Progress(Enter(p.s, w1, WaitFeaturesAck), Clock(w1), p.out.(phaseChanged := true))
    else
      var (s2, w2) := RequestNotify(c, Enter(p.s, w1, Listening), Clock(w1));
      if s2.open then Progress(s2, w2, p.out.(phaseChanged := true))
      else Progress(s2, w2, p.out.(closed := true, phaseChanged := reportEarly))
  }

  /** Requesting notifications and settling down to listen. */
  function Listen(c: Config, s: SessionState, w: World): (SessionState, World) {
    var (s1, w1) := RequestNotify(c, s, w);
    if s1.open then (Enter(s1, w1, Listening), Clock(w1)) else (s1, w1)
  }

  function LeaveFeatures(c: Config, p: Progress): Progress {
    var (s1, w1) := Listen(c, p.s, p.w);
    Progress(s1, w1, if s1.open then p.out.(phaseChanged := true) else p.out.(closed := true))
  }

  predicate Waiting(s: SessionState) {
    s.phase == WaitHandshakeAck || s.phase == WaitFeaturesAck
  }

  function TimeoutStage(c: Config, s: SessionState, w: World): Progress {
    if !Waiting(s) then Progress(s, w, QUIET)
    else
      var w1 := Clock(w);
      if Ms(w1.now - s.phaseAt) <= c.ackTimeoutMs then Progress(s, w1, QUIET)
      else if s.phase == WaitHandshakeAck then
        LeaveHandshake(c, Progress(s, w1, QUIET.(note := Some(HandshakeAckTimeout))), false)
      else LeaveFeatures(c, Progress(s, w1, QUIET.(note := Some(FeaturesAckTimeout))))
  }

  predicate MayResend(c: Config, s: SessionState) {
    s.phase == Listening && !s.batterySeen && !s.notifyResent && c.notifyResendMs >= 0 && s.notifySentAt >= 0
  }

  function Resend(c: Config, p: Progress): Progress {
    var out := if p.out.note.None? then p.out.(note := Some(Resending)) else p.out;
    var (s1, w1) := RequestNotify(c, p.s.(notifyResent := true), p.w);
    Progress(s1, w1, if s1.open then out else out.(closed := true))
  }

  function ResendStage(c: Config, p: Progress): Progress {
    if p.out.closed || !MayResend(c, p.s) then p
    else
      var w1 := Clock(p.w);
      if Ms(w1.now - p.s.started) - p.s.notifySentAt < c.notifyResendMs then p.(w := w1)
      else Resend(c, p.(w := w1))
  }

  /** Caching a report, or counting a refusal and keeping the older reading. */
  function Digest(p: Progress, report: Option<Report>): Progress {
    match report
    case Some(r) =>
      var w1 := Clock(p.w);
      Progress(p.s.(batterySeen := true, battery := Some(r), batteryAt := w1.now), w1, p.out.(battery := true))
    case None =>
      Progress(p.s.(batterySeen := true, refusals := p.s.refusals + 1), p.w,
               if p.out.note.None? then p.out.(note := Some(ParseRefused)) else p.out)
  }

  function BatteryStage(p: Progress): Progress {
    if OpcodeOf(p.out.bytes) == OP_BATTERY then Digest(p, Parse(p.out.bytes)) else p
  }

  function AckStage(c: Config, p: Progress): Progress {
    if p.s.phase == WaitHandshakeAck && IsHandshakeAck(p.out.bytes) then LeaveHandshake(c, p, true)
    else if p.s.phase == WaitFeaturesAck && OpcodeOf(p.out.bytes) == OP_FEATURES_ACK then LeaveFeatures(c, p)
    else p
  }

  function ReadStage(c: Config, p: Progress): Progress {
    if p.out.closed then p
    else
      match ReadOutcome(p.w)
      case Gone =>
        Progress(Shut(p.s), AfterRead(p.w),
                 p.out.(closed := true, note := if p.out.note.None? then Some(ClosedByPeer) else p.out.note))
      case Nothing => p.(w := AfterRead(p.w))
      case Packet(bytes) =>
        AckStage(c, BatteryStage(Progress(p.s, AfterRead(p.w), p.out.(packet := true, bytes := bytes))))
  }

  function StepOf(c: Config, s: SessionState, w: World): Progress {
    if !s.open then Progress(s, w, GONE) else ReadStage(c, ResendStage(c, TimeoutStage(c, s, w)))
  }

  /** The timer-driven sequence: everything is sent up front. */
  function SendAll(c: Config, s: SessionState, w: World): (SessionState, World) {
    var w1 := Clock(Pass(w, SETTLE_TICKS));
    var w2 := AfterEmit(w1, HostCaps, c.hostCaps);
    if !Emits(w1, c.hostCaps) then (Shut(s), w2)
    else
      Listen(c, s, if c.hostCaps == [] then w2 else Clock(Pass(w2, SETTLE_TICKS)))
  }

  /** A session just connected: the handshake bookkeeping reset, the cached knowledge kept. */
  function Renewed(s: SessionState, w: World): SessionState {
    Enter(s.(open := true, started := w.now, batterySeen := false, notifyResent := false, notifySentAt := -1),
          w, WaitHandshakeAck)
  }

  function AfterConnected(c: Config, s: SessionState, w: World): (SessionState, World) {
    var w1 := Record(Clock(w), Opened);
    var s2 := Renewed(s, w1);
    var w2 := Clock(w1);
    var w3 := if c.sendHandshake then AfterEmit(w2, Handshake, HANDSHAKE) else w2;
    if c.sendHandshake && !Emits(w2, HANDSHAKE) then (Shut(s2), w3)
    else if !c.ackDriven || !c.sendHandshake then SendAll(c, s2, w3)
    else (s2, w3)
  }

  /** Connecting closes whatever was open; a refused connect leaves the phase as it was. */
  function OpenOf(c: Config, s: SessionState, w: World): (SessionState, World) {
    if ConnectOutcome(w).ok then AfterConnected(c, s, AfterConnect(w)) else (s.(open := false), AfterConnect(w))
  }

  const UNWRITTEN := "channel opened but the handshake could not be written"

  /** What open() reports: the socket's own answer, unless a packet of the sequence could not be written. */
  function OpenResult(c: Config, s: SessionState, w: World): ConnectResult {
    var r := ConnectOutcome(w);
    if !r.ok || OpenOf(c, s, w).0.open then r
    else if c.sendHandshake && !Emits(Clock(Record(Clock(AfterConnect(w)), Opened)), HANDSHAKE)
    then ConnectResult(false, r.reached, UNWRITTEN)
    else ConnectResult(false, r.reached, r.diagnosis)
  }

  // -------------------------------------------------------------------------
  // Runs
  // -------------------------------------------------------------------------

  /** What a caller can do to a session, including letting time go by. */
  datatype Op = Open | Close | DoStep | Wait(ticks: nat)

  function Apply(c: Config, p: Progress, op: Op): Progress {
    match op
    case Open =>
      var (s, w) := OpenOf(c, p.s, p.w);
      Progress(s, w, QUIET.(closed := !s.open))
    case Close => Progress(Shut(p.s), p.w, QUIET)
    case DoStep => StepOf(c, p.s, p.w)
    case Wait(ticks) => p.(w := Pass(p.w, ticks), out := QUIET)
  }

  function Run(c: Config, p: Progress, ops: seq<Op>): Progress
    decreases ops
  {
    if ops == [] then p else Run(c, Apply(c, p, ops[0]), ops[1..])
  }

  /** What every operation of a run reported, in order. */
  function Reports(c: Config, p: Progress, ops: seq<Op>): seq<Step>
    decreases ops
  {
    if ops == [] then [] else [Apply(c, p, ops[0]).out] + Reports(c, Apply(c, p, ops[0]), ops[1..])
  }
}
