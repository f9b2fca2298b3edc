/** Two whole runs that end with an old number: registered before the pods come back, and registered after. */
module ReconnectRuns {
  import opened Basics
  import opened Protocol
  import opened Battery
  import opened Environment
  import opened SessionModel
  import opened SessionCache
  import opened SessionProtocol
  import opened States
  import opened Watches
  import opened PumpModel
  import opened ProviderModel
  import opened Daemon
  import opened Reconnection
  import Dbus

  /** A battery packet: the left pod, at 50%, in use. */
  const FIFTY: seq<byte> := [4, 0, 4, 0, 4, 0, 1, 4, 1, 50, 2, 1]

  // -------------------------------------------------------------------------
  // The script
  // -------------------------------------------------------------------------

  /** The clock stands still, every write works, and BlueZ takes the object as often as said; what else will happen is
      listed. */
  predicate Scripted(w: World, connects: nat, polls: seq<Poll>, replies: nat) {
    && w.gaps == [] && w.writes == [] && w.polls == polls
    && w.connects == seq(connects, i => ConnectResult(true, Connected, ""))
    && |w.replies| >= replies && forall i :: 0 <= i < replies ==> w.replies[i].exported
  }

  lemma ReplyTaken(w: World, connects: nat, polls: seq<Poll>, replies: nat)
    requires Scripted(w, connects, polls, replies) && replies > 0
    ensures Scripted(AfterReply(w), connects, polls, replies - 1) && NextReply(w).exported
  {
  }

  lemma ScriptedOpen(s: SessionState, w: World, connects: nat, polls: seq<Poll>, replies: nat)
    requires Scripted(w, connects, polls, replies) && connects > 0
    ensures var (s1, w1) := OpenOf(DEFAULTS, s, w);
            && Scripted(w1, connects - 1, polls, replies)
            && s1.open && s1.phase == WaitHandshakeAck && s1.phaseAt == w1.now
            && s1.battery == s.battery && !s1.batterySeen
            && OpenResult(DEFAULTS, s, w).ok
  {
  }

  lemma ScriptedAttach(mac: string, p: PumpState, w: World, connects: nat, polls: seq<Poll>, replies: nat)
    requires Scripted(w, connects, polls, replies) && connects > 0 && !p.session.open
    ensures var (p1, w1) := Attach(mac, p, w, Some(true));
            && Scripted(w1, connects - 1, polls, replies)
            && p1.session.open && p1.session.phase == WaitHandshakeAck && p1.session.phaseAt == w1.now
            && p1.session.battery == p.session.battery && !p1.session.batterySeen
            && p1.timer && p1.published == p.published + [Snapshot(mac, p1)]
  {
    ScriptedOpen(p.session, w, connects, polls, replies);
  }

  lemma ParseFifty()
    ensures Parse(FIFTY) == Some([Reading(Left, 2, Some(50), 50, false)])
  {
    var b := Block(Left, 1, 50, 2, 1);
    assert EncodeBlocks([b]) == EncodeBlock(b) + EncodeBlocks([b][1..]);
    assert FIFTY == Encode([b]);
    EncodingAccepted([b]);
    assert ReadBlocks([b]) == [ReadBlock(b)];
  }

  lemma ScriptedReport(s: SessionState, w: World, connects: nat, rest: seq<Poll>, replies: nat)
    requires Scripted(w, connects, [Datagram(FIFTY)] + rest, replies)
    requires s.open && s.phase == WaitHandshakeAck && s.phaseAt == w.now
    ensures var r := StepOf(DEFAULTS, s, w);
            && Scripted(r.w, connects, rest, replies)
            && r.s.open && r.s.battery == Parse(FIFTY) && !r.out.closed && !r.out.Idle()
  {
    ParseFifty();
    var r := ReadStage(DEFAULTS, Progress(s, Clock(w), QUIET));
    assert FIFTY[0] != ACK_HEADER[0];
    assert r == BatteryStage(Progress(s, AfterRead(Clock(w)), QUIET.(packet := true, bytes := FIFTY)));
  }

  lemma ScriptedAck(s: SessionState, w: World, connects: nat, replies: nat)
    requires Scripted(w, connects, [Datagram(ACK_HEADER)], replies)
    requires s.open && s.phase == WaitHandshakeAck && s.phaseAt == w.now && !s.batterySeen
    ensures var r := StepOf(DEFAULTS, s, w);
            && Scripted(r.w, connects, [], replies)
            && r.s.open && r.s.battery == s.battery && !r.s.batterySeen && !r.out.closed && !r.out.Idle()
  {
    AckHasNoOpcode(ACK_HEADER);
    var p := Progress(s, AfterRead(Clock(w)), QUIET.(packet := true, bytes := ACK_HEADER));
    assert BatteryStage(p) == p;
    assert StepOf(DEFAULTS, s, w) == LeaveHandshake(DEFAULTS, p, true);
  }

  // -------------------------------------------------------------------------
  // The callbacks
  // -------------------------------------------------------------------------

  const PATH := "/hci0/dev"

  function Tree(mac: string): Option<seq<BusObject>> {
    Some([BusObject(PATH, true, Some(Device(mac, Some(true))))])
  }

  predicate Sees(d: DaemonState, connected: bool) {
    && d.watch.Some? && CallsFresh(d.watch.value) && d.watch.value.primed
    && d.watch.value.path == PATH && d.watch.value.connected == connected
  }

  /** Connected, with the handshake just written and nothing heard. */
  predicate Greeting(d: DaemonState) {
    && d.pump.session.open && d.pump.session.phase == WaitHandshakeAck && d.pump.session.phaseAt == d.w.now
    && !d.pump.session.batterySeen
  }

  predicate Offering(v: ProviderState) {
    v.registered && v.device == PATH
  }

  /** A provider stays where it is: offering, or not yet heard of by BlueZ. */
  predicate Stands(v: ProviderState, u: ProviderState) {
    (Offering(v) ==> Offering(u)) && (v == NEW_PROVIDER ==> u == NEW_PROVIDER)
  }

  lemma DeliverOne(d: DaemonState, p: PumpState, w: World, s: State)
    requires p.published == d.pump.published + [s]
    ensures var e := Deliver(d, p, w);
            && e.mac == d.mac && e.watch == d.watch && e.pump == p && e.w == AfterReply(w)
            && Stands(d.provider, e.provider)
  {
    assert Fresh(d.pump.published, p.published) == [s];
    FeedOne(Upper(d.mac), d.provider, s, w);
  }

  lemma Begins(mac: string, w: World, polls: seq<Poll>, replies: nat)
    requires Scripted(w, 2, polls, replies) && replies > 0
    ensures var d := Start(mac, w, true, Tree(mac));
            && Sees(d, true) && Scripted(d.w, 1, polls, replies - 1) && Greeting(d)
            && d.mac == mac && d.provider == NEW_PROVIDER
  {
    var d := DaemonState(mac, IDLE, None, NEW_PROVIDER, Dbus.NEW_SERVICE, w);
    var v := Rescan(Upper(mac), UNPRIMED, Tree(mac));
    assert v.calls == [Call(true, PATH)];
    ScriptedAttach(mac, IDLE, w, 2, polls, replies);
    var (p, w1) := OnBluez(mac, IDLE, w, true, PATH);
    DeliverOne(d.(watch := Some(v)), p, w1, Snapshot(mac, p));
    ReplyTaken(w1, 1, polls, replies);
  }

  /** BlueZ appears, and answers the registration. */
  function Registering(d: DaemonState): DaemonState {
    Handle(Handle(d, ProviderUp(Tree(d.mac))), Registered(true))
  }

  lemma Registers(d: DaemonState)
    requires d.provider == NEW_PROVIDER
    ensures var e := Registering(d);
            e == d.(provider := e.provider) && Offering(e.provider)
  {
  }

  lemma RegisteringKeeps(d: DaemonState)
    requires Good(d)
    ensures Good(Registering(d))
  {
    HandleKeeps(d, ProviderUp(Tree(d.mac)));
    HandleKeeps(Handle(d, ProviderUp(Tree(d.mac))), Registered(true));
  }

  lemma Hears(d: DaemonState, rest: seq<Poll>, replies: nat)
    requires Sees(d, true) && Scripted(d.w, 1, [Datagram(FIFTY)] + rest, replies) && replies > 0
    requires Greeting(d) && d.pump.timer
    ensures var e := Handle(d, TickTimer);
            && e.mac == d.mac && Sees(e, true) && Stands(d.provider, e.provider)
            && Scripted(e.w, 1, rest, replies - 1)
            && e.pump.session.open && e.pump.session.battery == Parse(FIFTY)
  {
    ScriptedReport(d.pump.session, d.w, 1, rest, replies);
    var (p, w) := Tick(d.mac, d.pump, d.w);
    DeliverOne(d, p, w, Snapshot(d.mac, p));
    ReplyTaken(w, 1, rest, replies);
  }

  lemma Leaves(d: DaemonState, polls: seq<Poll>, replies: nat)
    requires Sees(d, true) && Scripted(d.w, 1, polls, replies) && replies > 0 && d.pump.session.open
    ensures var e := Handle(d, LinkSignal(PATH, Some(false)));
            && e.mac == d.mac && Sees(e, false) && Stands(d.provider, e.provider)
            && Scripted(e.w, 1, polls, replies - 1)
            && !e.pump.session.open && e.pump.session.battery == d.pump.session.battery
  {
    var o := LinkSignal(PATH, Some(false));
    WatchMoves(d, o);
    var v := WatchMove(d, o);
    var (p, w) := OnBluez(d.mac, d.pump, d.w, false, PATH);
    DeliverOne(d.(watch := Some(v)), p, w, Snapshot(d.mac, p));
    ReplyTaken(w, 1, polls, replies);
  }

  lemma Returns(d: DaemonState, polls: seq<Poll>, replies: nat)
    requires Sees(d, false) && Scripted(d.w, 1, polls, replies) && replies > 0 && !d.pump.session.open
    ensures var e := Handle(d, LinkSignal(PATH, Some(true)));
            && e.mac == d.mac && Stands(d.provider, e.provider)
            && Scripted(e.w, 0, polls, replies - 1)
            && Greeting(e) && e.pump.session.battery == d.pump.session.battery
  {
    var o := LinkSignal(PATH, Some(true));
    WatchMoves(d, o);
    var v := WatchMove(d, o);
    ScriptedAttach(d.mac, d.pump.(attempts := 0, retry := None), d.w, 1, polls, replies);
    var (p, w) := OnBluez(d.mac, d.pump, d.w, true, PATH);
    DeliverOne(d.(watch := Some(v)), p, w, Snapshot(d.mac, p));
    ReplyTaken(w, 0, polls, replies);
  }

  /** A report is read, the pods leave, the pods come back. */
  function RoundTrip(d: DaemonState): DaemonState {
    Handle(Away(d), LinkSignal(PATH, Some(true)))
  }

  function Away(d: DaemonState): DaemonState {
    Handle(Handle(d, TickTimer), LinkSignal(PATH, Some(false)))
  }

  lemma GoesAway(d: DaemonState, rest: seq<Poll>, replies: nat)
    requires Good(d) && Sees(d, true) && Greeting(d)
    requires Scripted(d.w, 1, [Datagram(FIFTY)] + rest, replies) && replies > 1
    ensures var e := Away(d);
            && Good(e) && Sees(e, false) && e.mac == d.mac && Stands(d.provider, e.provider)
            && Scripted(e.w, 1, rest, replies - 2)
            && !e.pump.session.open && LastAccepted(e.w.log) == Parse(FIFTY)
  {
    Hears(d, rest, replies);
    Leaves(Handle(d, TickTimer), rest, replies - 1);
    HandleKeeps(d, TickTimer);
    HandleKeeps(Handle(d, TickTimer), LinkSignal(PATH, Some(false)));
  }

  lemma FiftyMinimum()
    ensures PodMinimum(Parse(FIFTY)) == Some(50)
  {
    ParseFifty();
  }

  // -------------------------------------------------------------------------
  // Registered before the pods come back
  // -------------------------------------------------------------------------

  /** Started with the pods here; BlueZ registers us; a report of 50% is read; the pods leave and come back. */
  function Comeback(mac: string): seq<Occurrence> {
    [ProviderUp(Tree(mac)), Registered(true), TickTimer, LinkSignal(PATH, Some(false)), LinkSignal(PATH, Some(true))]
  }

  lemma ComebackRuns(d: DaemonState)
    ensures Daemon.Run(d, Comeback(d.mac)) == RoundTrip(Registering(d))
  {
    var os := Comeback(d.mac);
    RunFirst(d, os);
    RunFirst(Handle(d, os[0]), os[1..]);
    ThreeMore(Registering(d), os[2], os[3], os[4]);
    assert os[1..][1..] == [os[2], os[3], os[4]];
  }

  lemma RunFirst(d: DaemonState, os: seq<Occurrence>)
    requires os != []
    ensures Daemon.Run(d, os) == Daemon.Run(Handle(d, os[0]), os[1..])
  {
  }

  lemma ThreeMore(d: DaemonState, a: Occurrence, b: Occurrence, c: Occurrence)
    ensures Daemon.Run(d, [a, b, c]) == Handle(Handle(Handle(d, a), b), c)
  {
    RunLast(d, [], a);
    RunLast(d, [a], b);
    RunLast(d, [a, b], c);
    assert [] + [a] == [a] && [a] + [b] == [a, b] && [a, b] + [c] == [a, b, c];
  }

  lemma BackWithFifty(d: DaemonState)
    requires Good(d) && Sees(d, false) && Offering(d.provider) && Scripted(d.w, 1, [], 1) && !d.pump.session.open
    requires LastAccepted(d.w.log) == Parse(FIFTY)
    ensures var e := Handle(d, LinkSignal(PATH, Some(true))); HoldsOldNumber(e) && e.provider.percentage == 50
  {
    var o := LinkSignal(PATH, Some(true));
    Returns(d, [], 1);
    ScriptedOpen(d.pump.session, d.w, 1, [], 1);
    FiftyMinimum();
    ReconnectShowsCachedReading(d, o);
    AcceptedIsHeard(Connection(Handle(d, o).w.log));
  }

  /** After that run BlueZ holds 50% over a connection on which nothing has been accepted. */
  lemma CachedReadingRun(mac: string, w: World)
    requires Scripted(w, 2, [Datagram(FIFTY)], 4) && w.log == []
    ensures var e := Daemon.Run(Start(mac, w, true, Tree(mac)), Comeback(mac));
            HoldsOldNumber(e) && e.provider.percentage == 50
  {
    var d := Start(mac, w, true, Tree(mac));
    Begins(mac, w, [Datagram(FIFTY)], 4);
    StartGood(mac, w, true, Tree(mac));
    Registers(d);
    RegisteringKeeps(d);
    assert [Datagram(FIFTY)] + [] == [Datagram(FIFTY)];
    GoesAway(Registering(d), [], 3);
    BackWithFifty(Away(Registering(d)));
    ComebackRuns(d);
  }

  // -------------------------------------------------------------------------
  // Registered after the pods have come back
  // -------------------------------------------------------------------------

  /** The same with BlueZ registering us only after the pods are back, and then a handshake ack. */
  function LateRegistration(mac: string): seq<Occurrence> {
    [TickTimer, LinkSignal(PATH, Some(false)), LinkSignal(PATH, Some(true))]
    + [ProviderUp(Tree(mac)), Registered(true), TickTimer]
  }

  lemma LateRuns(d: DaemonState)
    requires RoundTrip(d).mac == d.mac
    ensures Daemon.Run(d, LateRegistration(d.mac)) == Handle(Registering(RoundTrip(d)), TickTimer)
  {
    var os := LateRegistration(d.mac);
    ThreeMore(d, os[0], os[1], os[2]);
    ThreeMore(RoundTrip(d), os[3], os[4], os[5]);
    assert os == [os[0], os[1], os[2]] + [os[3], os[4], os[5]];
    RunAppend(d, [os[0], os[1], os[2]], [os[3], os[4], os[5]]);
  }

  lemma {:induction false} RunAppend(d: DaemonState, os: seq<Occurrence>, more: seq<Occurrence>)
    ensures Daemon.Run(d, os + more) == Daemon.Run(Daemon.Run(d, os), more)
    decreases os
  {
    if os == [] {
      assert os + more == more;
    } else {
      assert (os + more)[1..] == os[1..] + more;
      RunAppend(Handle(d, os[0]), os[1..], more);
    }
  }

  /** The tick that reads the ack publishes, and BlueZ takes the number left from before. */
  lemma AckWithFifty(d: DaemonState)
    requires Good(d) && Greeting(d) && Offering(d.provider) && Scripted(d.w, 0, [Datagram(ACK_HEADER)], 1)
    requires d.pump.session.battery == Parse(FIFTY)
    ensures var e := Handle(d, TickTimer); HoldsOldNumber(e) && e.provider.percentage == 50
  {
    ScriptedAck(d.pump.session, d.w, 0, 1);
    AckStays(d);
    HandleKeeps(d, TickTimer);
    NumberAfter(d, TickTimer);
    FiftyMinimum();
    var e := Handle(d, TickTimer);
    AcceptedIsHeard(Connection(e.w.log));
    SnapshotPercentage(d.mac, e.pump);
  }

  lemma AckStays(d: DaemonState)
    requires d.pump.timer
    requires var r := StepOf(DEFAULTS, d.pump.session, d.w); r.s.open && !r.out.closed && !r.out.Idle()
    ensures Handle(d, TickTimer).pump.session == StepOf(DEFAULTS, d.pump.session, d.w).s
  {
  }

  /** After this run too; here the reopening itself put nothing up. */
  lemma LateRegistrationRun(mac: string, w: World)
    requires Scripted(w, 2, [Datagram(FIFTY), Datagram(ACK_HEADER)], 5) && w.log == []
    ensures !Daemon.Run(Start(mac, w, true, Tree(mac)), LateRegistration(mac)[..3]).provider.exported
    ensures var e := Daemon.Run(Start(mac, w, true, Tree(mac)), LateRegistration(mac));
            HoldsOldNumber(e) && e.provider.percentage == 50
  {
    var d, ack := Start(mac, w, true, Tree(mac)), [Datagram(ACK_HEADER)];
    assert [Datagram(FIFTY)] + ack == [Datagram(FIFTY), Datagram(ACK_HEADER)];
    Begins(mac, w, [Datagram(FIFTY)] + ack, 5);
    StartGood(mac, w, true, Tree(mac));
    GoesAway(d, ack, 4);
    Returns(Away(d), ack, 2);
    HandleKeeps(Away(d), LinkSignal(PATH, Some(true)));
    Registers(RoundTrip(d));
    RegisteringKeeps(RoundTrip(d));
    AckWithFifty(Registering(RoundTrip(d)));
    LateRuns(d);
    ReopenRuns(d);
  }

  lemma ReopenRuns(d: DaemonState)
    ensures Daemon.Run(d, LateRegistration(d.mac)[..3]) == RoundTrip(d)
  {
    var os := LateRegistration(d.mac);
    ThreeMore(d, os[0], os[1], os[2]);
    assert os[..3] == [os[0], os[1], os[2]];
  }
}
