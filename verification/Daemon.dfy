/** The whole daemon as a transition system: every main-loop callback, in any order the outside chooses. */
module Daemon {
  import opened Basics
  import opened Battery
  import opened Environment
  import opened SessionModel
  import opened SessionCache
  import opened SessionEffects
  import opened States
  import opened Watches
  import opened PumpModel
  import opened PumpProofs
  import opened ProviderModel
  import Dbus

  datatype DaemonState = DaemonState(
    mac: string,
    pump: PumpState,
    watch: Option<WatchState>,
    provider: ProviderState,
    service: Dbus.ServiceState,
    w: World)

  /** Everything that can happen once the main loop runs. Replies are what BlueZ would answer at that moment. */
  datatype Occurrence =
    | Elapse(ticks: nat)
    | TickTimer
    | RetryTimer
    | RescanTimer(reply: Option<seq<BusObject>>)
    | TreeSignal
    | LinkSignal(path: string, connected: Option<bool>)
    | WatchUp(reply: Option<seq<BusObject>>)
    | WatchDown
    | ProviderUp(reply: Option<seq<BusObject>>)
    | ProviderDown
    | Registered(ok: bool)
    | BusAcquired(ok: bool)

  function Here(d: DaemonState): Option<bool> {
    if d.watch.None? then None else Some(d.watch.value.connected)
  }

  function Fresh(before: seq<State>, after: seq<State>): seq<State> {
    if |before| <= |after| then after[|before|..] else []
  }

  function FeedProvider(mac: string, v: ProviderState, states: seq<State>, w: World): (ProviderState, World)
    decreases states
  {
    if states == [] then (v, w)
    else FeedProvider(mac, ProviderModel.Publish(mac, v, states[0], NextReply(w)), states[1..], AfterReply(w))
  }

  /** The pump has moved: what it published goes to the service and then to the provider. */
  function Deliver(d: DaemonState, p: PumpState, w: World): DaemonState {
    var states := Fresh(d.pump.published, p.published);
    var (v, w1) := FeedProvider(Upper(d.mac), d.provider, states, w);
    d.(pump := p, service := Dbus.PublishAll(d.service, states), provider := v, w := w1)
  }

  /** The watch has moved: a new callback reaches the pump. */
  function Notice(d: DaemonState, v: WatchState): DaemonState {
    var d1 := d.(watch := Some(v));
    if d.watch.Some? && |v.calls| <= |d.watch.value.calls| then d1
    else if v.calls == [] then d1
    else
      var call := v.calls[|v.calls| - 1];
      var (p, w) := OnBluez(d.mac, d.pump, d.w, call.connected, call.path);
      Deliver(d1, p, w)
  }

  function Handle(d: DaemonState, o: Occurrence): DaemonState {
    match o
    case Elapse(ticks) => d.(w := Pass(d.w, ticks))
    case TickTimer => if !d.pump.timer then d else var (p, w) := Tick(d.mac, d.pump, d.w); Deliver(d, p, w)
    case RetryTimer =>
      if d.pump.retry.None? then d else var (p, w) := RetryFires(d.mac, d.pump, d.w, Here(d)); Deliver(d, p, w)
    case ProviderUp(reply) => d.(provider := Appeared(Upper(d.mac), d.provider, reply))
    case ProviderDown => d.(provider := Vanished(d.provider))
    case Registered(ok) => d.(provider := RegisterDone(d.provider, ok))
    case BusAcquired(ok) => if d.service.exported then d else d.(service := Dbus.Acquired(d.service, ok))
    case _ => if d.watch.None? then d else Notice(d, WatchMove(d, o))
  }

  function WatchMove(d: DaemonState, o: Occurrence): WatchState
    requires d.watch.Some?
  {
    var v := d.watch.value;
    match o
    case RescanTimer(reply) => if v.timer.None? then v else Watches.RescanFires(Upper(d.mac), v, reply)
    case TreeSignal => RescanSoon(v, Ms(d.w.now))
    case LinkSignal(path, connected) => PropsChanged(v, path, connected)
    case WatchUp(reply) => Rescan(Upper(d.mac), v, reply)
    case WatchDown => Update(v, false, "")
    case _ => v
  }

  /** Start-up: with a watch, its first scan makes the first callback; without one, a single attempt. */
  function Start(mac: string, w: World, watched: bool, reply: Option<seq<BusObject>>): DaemonState {
    var d := DaemonState(mac, IDLE, None, NEW_PROVIDER, Dbus.NEW_SERVICE, w);
    if watched then Notice(d, Rescan(Upper(mac), UNPRIMED, reply))
    else var (p, w1) := StartBlind(mac, IDLE, w); Deliver(d, p, w1)
  }

  function Run(d: DaemonState, os: seq<Occurrence>): DaemonState
    decreases os
  {
    if os == [] then d else Run(Handle(d, os[0]), os[1..])
  }

  // -------------------------------------------------------------------------
  // The invariant
  // -------------------------------------------------------------------------

  function Arrivals(calls: seq<Call>): nat {
    if calls == [] then 0 else Arrivals(calls[..|calls| - 1]) + if calls[|calls| - 1].connected then 1 else 0
  }

  /** BlueZ holds a number only for an open channel, and then the one of the given snapshot. */
  predicate Honest(v: ProviderState, s: State) {
    && ProviderInv(v)
    && (v.exported ==> s.channelOpen && Percentage(s) == Some(v.percentage) && v.source == SourceText(Fields(s)))
  }

  predicate Budgeted(d: DaemonState) {
    match d.watch
    case None => Tries(d.w.log) == 1 && d.pump.retry.None?
    case Some(v) => Tries(d.w.log) + Owed(d.pump) <= MAX_ATTEMPTS * Arrivals(v.calls)
  }

  predicate Good(d: DaemonState) {
    && PumpInv(d.mac, d.pump, d.w, Here(d))
    && Honest(d.provider, Snapshot(d.mac, d.pump))
    && d.service.published && d.service.state == Snapshot(d.mac, d.pump)
    && (d.watch.Some? ==> CallsFresh(d.watch.value) && d.watch.value.primed)
    && Budgeted(d)
  }

  /** Two worlds that differ only in the BlueZ answers left. */
  predicate SameButReplies(w: World, v: World) {
    v == w.(replies := v.replies)
  }

  lemma {:induction false} FeedKeeps(mac: string, v: ProviderState, states: seq<State>, w: World)
    requires ProviderInv(v)
    ensures var (v1, w1) := FeedProvider(mac, v, states, w);
            && SameButReplies(w, w1)
            && ProviderInv(v1)
            && (states == [] ==> v1 == v)
            && (states != [] ==> Honest(v1, states[|states| - 1]))
    decreases states
  {
    if states != [] {
      PublishExact(mac, v, states[0], NextReply(w));
      FeedKeeps(mac, ProviderModel.Publish(mac, v, states[0], NextReply(w)), states[1..], AfterReply(w));
    }
  }

  lemma {:induction false} FeedService(v: Dbus.ServiceState, states: seq<State>)
    ensures var v1 := Dbus.PublishAll(v, states);
            && v1.exported == v.exported
            && (states == [] ==> v1 == v)
            && (states != [] ==> v1.published && v1.state == states[|states| - 1])
    decreases states
  {
    if states != [] {
      FeedService(Dbus.Publish(v, states[0]), states[1..]);
    }
  }

  /** Delivering what the pump published brings everyone up to date. */
  lemma DeliverKeeps(d: DaemonState, p: PumpState, w: World, here: Option<bool>)
    requires ProviderInv(d.provider)
    requires PumpInv(d.mac, p, w, here) && d.pump.published <= p.published
    requires d.pump.published == p.published ==>
               Honest(d.provider, Snapshot(d.mac, p)) && d.service.published && d.service.state == Snapshot(d.mac, p)
    ensures var e := Deliver(d, p, w);
            && e.mac == d.mac && e.watch == d.watch && e.pump == p && SameButReplies(w, e.w)
            && PumpInv(d.mac, p, e.w, here)
            && Honest(e.provider, Snapshot(d.mac, p))
            && e.service.published && e.service.state == Snapshot(d.mac, p)
  {
    var states := Fresh(d.pump.published, p.published);
    FeedKeeps(Upper(d.mac), d.provider, states, w);
    FeedService(d.service, states);
    if states == [] {
      assert d.pump.published == p.published;
    } else {
      assert states[|states| - 1] == p.published[|p.published| - 1];
    }
  }

  lemma LastPublished(mac: string, before: PumpState, after: PumpState)
    requires UpToDate(mac, before) && UpToDate(mac, after) && before.published == after.published
    ensures Snapshot(mac, before) == Snapshot(mac, after)
  {
  }

  lemma TimerKeeps(d: DaemonState, o: Occurrence)
    requires Good(d) && (o.TickTimer? || o.RetryTimer?)
    ensures Good(Handle(d, o))
  {
    if o.TickTimer? && d.pump.timer {
      TickKeeps(d.mac, d.pump, d.w, Here(d));
      var (p, w) := Tick(d.mac, d.pump, d.w);
      if d.pump.published == p.published { LastPublished(d.mac, d.pump, p); }
      DeliverKeeps(d, p, w, Here(d));
    } else if o.RetryTimer? && d.pump.retry.Some? {
      RetryKeeps(d.mac, d.pump, d.w, Here(d));
      var (p, w) := RetryFires(d.mac, d.pump, d.w, Here(d));
      if d.pump.published == p.published { LastPublished(d.mac, d.pump, p); }
      DeliverKeeps(d, p, w, Here(d));
    }
  }

  /** Every move of a watch makes at most one new callback. */
  lemma WatchMoves(d: DaemonState, o: Occurrence)
    requires d.watch.Some? && CallsFresh(d.watch.value) && d.watch.value.primed
    ensures var v, v1 := d.watch.value, WatchMove(d, o);
            && CallsFresh(v1) && v1.primed
            && (v1.calls == v.calls ==> v1.connected == v.connected)
            && (v1.calls != v.calls ==> v1.calls == v.calls + [Call(v1.connected, v1.path)])
  {
  }

  lemma ArrivalsAppend(calls: seq<Call>, call: Call)
    ensures Arrivals(calls + [call]) == Arrivals(calls) + if call.connected then 1 else 0
  {
    assert (calls + [call])[..|calls|] == calls;
  }

  /** A watch that has called back once more: the pump's answer to that callback keeps everything. */
  lemma CalledBackKeeps(d: DaemonState, v: WatchState)
    requires Good(d) && d.watch.Some? && CallsFresh(v) && v.primed
    requires v.calls == d.watch.value.calls + [Call(v.connected, v.path)]
    ensures Good(Notice(d, v))
  {
    ArrivalsAppend(d.watch.value.calls, Call(v.connected, v.path));
    OnBluezKeeps(d.mac, d.pump, d.w, v.connected, v.path);
    var (p, w) := OnBluez(d.mac, d.pump, d.w, v.connected, v.path);
    if d.pump.published == p.published { LastPublished(d.mac, d.pump, p); }
    DeliverKeeps(d.(watch := Some(v)), p, w, Some(v.connected));
  }

  lemma QuietKeeps(d: DaemonState, v: WatchState)
    requires Good(d) && d.watch.Some? && CallsFresh(v) && v.primed
    requires v.calls == d.watch.value.calls && v.connected == d.watch.value.connected
    ensures Good(Notice(d, v))
  {
  }

  lemma NoticeKeeps(d: DaemonState, o: Occurrence)
    requires Good(d) && d.watch.Some?
    ensures Good(Notice(d, WatchMove(d, o)))
  {
    WatchMoves(d, o);
    if WatchMove(d, o).calls == d.watch.value.calls {
      QuietKeeps(d, WatchMove(d, o));
    } else {
      CalledBackKeeps(d, WatchMove(d, o));
    }
  }

  /** What only the provider hears, what only the bus hears, and the passing of time. */
  lemma AsideKeeps(d: DaemonState, o: Occurrence)
    requires Good(d) && (o.Elapse? || o.ProviderUp? || o.ProviderDown? || o.Registered? || o.BusAcquired?)
    ensures Good(Handle(d, o))
  {
    if o.Elapse? {
      PassKeeps(d, o.ticks);
    } else if !o.BusAcquired? {
      ToldProvider(d, o);
    }
  }

  lemma PassKeeps(d: DaemonState, ticks: nat)
    requires Good(d)
    ensures Good(d.(w := Pass(d.w, ticks)))
  {
  }

  /** BlueZ comes, goes or answers: what is up is either untouched or withdrawn. */
  lemma ToldProvider(d: DaemonState, o: Occurrence)
    requires Honest(d.provider, Snapshot(d.mac, d.pump)) && (o.ProviderUp? || o.ProviderDown? || o.Registered?)
    ensures Handle(d, o) == d.(provider := Handle(d, o).provider)
    ensures Honest(Handle(d, o).provider, Snapshot(d.mac, d.pump))
  {
    VanishedInv(d.provider);
  }

  lemma HandleFrame(d: DaemonState, o: Occurrence)
    ensures Handle(d, o).mac == d.mac && Handle(d, o).watch.Some? == d.watch.Some?
  {
  }

  lemma HandleKeeps(d: DaemonState, o: Occurrence)
    requires Good(d)
    ensures Good(Handle(d, o)) && Handle(d, o).mac == d.mac && Handle(d, o).watch.Some? == d.watch.Some?
  {
    HandleFrame(d, o);
    if o.TickTimer? || o.RetryTimer? {
      TimerKeeps(d, o);
    } else if o.Elapse? || o.ProviderUp? || o.ProviderDown? || o.Registered? || o.BusAcquired? {
      AsideKeeps(d, o);
    } else if d.watch.Some? {
      NoticeKeeps(d, o);
    }
  }

  lemma StartGood(mac: string, w: World, watched: bool, reply: Option<seq<BusObject>>)
    requires w.log == []
    ensures Good(Start(mac, w, watched, reply)) && Start(mac, w, watched, reply).mac == mac
    ensures Start(mac, w, watched, reply).watch.Some? == watched
  {
    var d := DaemonState(mac, IDLE, None, NEW_PROVIDER, Dbus.NEW_SERVICE, w);
    if watched {
      var v := Rescan(Upper(mac), UNPRIMED, reply);
      assert v.calls == [Call(v.connected, v.path)];
      ArrivalsAppend([], v.calls[0]);
      assert [] + [v.calls[0]] == v.calls;
      OnBluezKeeps(mac, IDLE, w, v.connected, v.path);
      var (p, w1) := OnBluez(mac, IDLE, w, v.connected, v.path);
      DeliverKeeps(d.(watch := Some(v)), p, w1, Some(v.connected));
    } else {
      StartBlindKeeps(mac, w);
      var (p, w1) := StartBlind(mac, IDLE, w);
      DeliverKeeps(d, p, w1, None);
    }
  }

  lemma {:induction false} RunKeeps(d: DaemonState, os: seq<Occurrence>)
    requires Good(d)
    ensures Good(Run(d, os)) && Run(d, os).mac == d.mac && Run(d, os).watch.Some? == d.watch.Some?
    decreases os
  {
    if os != [] {
      HandleKeeps(d, os[0]);
      RunKeeps(Handle(d, os[0]), os[1..]);
    }
  }

  // -------------------------------------------------------------------------
  // Main results
  // -------------------------------------------------------------------------

  /** The lesser usable pod level of a report, each pod by its last block. */
  function PodMinimum(report: Option<Report>): Option<byte> {
    if report.None? then None else Lesser(ReportLevel(report.value, Left), ReportLevel(report.value, Right))
  }

  lemma SnapshotPercentage(mac: string, p: PumpState)
    ensures Percentage(Snapshot(mac, p)) == PodMinimum(p.session.battery)
  {
    if p.session.battery.Some? {
      ComponentsAreLast(p.session.battery.value, Left);
      ComponentsAreLast(p.session.battery.value, Right);
    }
  }

  /** One pod's last block carries the level, and no pod's a lower one. */
  ghost predicate IsLesserPod(bs: seq<Block>, n: byte) {
    && (CarriesLevel(bs, Left, n) || CarriesLevel(bs, Right, n))
    && forall m: byte :: CarriesLevel(bs, Left, m) || CarriesLevel(bs, Right, m) ==> n <= m
  }

  /** The last accepted packet's blocks, and the level of its lesser pod. */
  ghost predicate LastPacketLesser(log: seq<Event>, n: byte) {
    var packet := LastAcceptedPacket(log);
    packet.Some? && Blocks(packet.value).Some? && IsLesserPod(Blocks(packet.value).value, n)
  }

  lemma BlocksMinimum(bs: seq<Block>, n: byte)
    ensures PodMinimum(Some(ReadBlocks(bs))) == Some(n) <==> IsLesserPod(bs, n)
  {
    var left, right := ReportLevel(ReadBlocks(bs), Left), ReportLevel(ReadBlocks(bs), Right);
    forall m: byte
      ensures (CarriesLevel(bs, Left, m) <==> left == Some(m)) && (CarriesLevel(bs, Right, m) <==> right == Some(m))
    {
      LevelIsCarried(bs, Left, Some(m));
      LevelIsCarried(bs, Right, Some(m));
    }
    assert left.Some? ==> CarriesLevel(bs, Left, left.value);
    assert right.Some? ==> CarriesLevel(bs, Right, right.value);
  }

  lemma MinimumIsLesser(log: seq<Event>, n: byte)
    ensures PodMinimum(LastAccepted(log)) == Some(n) <==> LastPacketLesser(log, n)
  {
    AcceptedPacketParses(log);
    if LastAcceptedPacket(log).Some? {
      BlocksMinimum(Blocks(LastAcceptedPacket(log).value).value, n);
    }
  }

  /** Between any two callbacks BlueZ holds a battery only while we are registered, it knows the device and the channel
      is open, and then the number is the level of one pod in the last packet accepted in the whole history and above
      that of none; what BlueZ pieced together from our signals is what we would answer if asked. */
  lemma BlueZHoldsLastAccepted(mac: string, w: World, watched: bool, reply: Option<seq<BusObject>>,
                               os: seq<Occurrence>)
    requires w.log == []
    ensures var d := Run(Start(mac, w, watched, reply), os);
            && (d.provider.exported ==>
                  && d.provider.registered && d.provider.device != "" && d.pump.session.open
                  && LastPacketLesser(d.w.log, d.provider.percentage)
                  && PodMinimum(LastAccepted(d.w.log)) == Some(d.provider.percentage))
            && Replica(d.provider.signals) == ManagedObjects(d.provider)
            && (Replica(d.provider.signals).Some? <==> d.provider.exported)
            && (d.provider.exported ==>
                  var held := Replica(d.provider.signals).value;
                  && held.device == d.provider.device && held.percentage == d.provider.percentage
                  && held.source == d.provider.source)
            && WellOrdered(d.provider.signals)
  {
    StartGood(mac, w, watched, reply);
    RunKeeps(Start(mac, w, watched, reply), os);
    SnapshotPercentage(mac, Run(Start(mac, w, watched, reply), os).pump);
    var d := Run(Start(mac, w, watched, reply), os);
    MinimumIsLesser(d.w.log, d.provider.percentage);
  }

  /** Between any two callbacks the last state published, the state the service serves and a fresh snapshot are one. */
  lemma PublishedNeverBehind(mac: string, w: World, watched: bool, reply: Option<seq<BusObject>>, os: seq<Occurrence>)
    requires w.log == []
    ensures var d := Run(Start(mac, w, watched, reply), os);
            && d.pump.published != []
            && d.pump.published[|d.pump.published| - 1] == Snapshot(mac, d.pump) == d.service.state
            && d.service.state.address == mac && d.service.state.status == d.pump.status
            && d.service.state.channelOpen == d.pump.session.open
            && d.service.state.haveBattery == LastAccepted(d.w.log).Some?
            && d.service.state.parseRefusals == Refusals(d.w.log)
            && d.service.state.components ==
               (if LastAccepted(d.w.log).Some? then Components(LastAccepted(d.w.log).value) else map[])
  {
    StartGood(mac, w, watched, reply);
    RunKeeps(Start(mac, w, watched, reply), os);
  }

  /** The tick timer is set exactly while the channel is open; a retry timer only with the channel closed, the tick
      timer off, the pods here and one or two attempts spent, for one or two seconds. */
  lemma TimersExclusive(mac: string, w: World, watched: bool, reply: Option<seq<BusObject>>, os: seq<Occurrence>)
    requires w.log == []
    ensures var d := Run(Start(mac, w, watched, reply), os);
            && (d.pump.timer <==> d.pump.session.open)
            && (d.pump.retry.Some? ==>
                  && !d.pump.session.open && !d.pump.timer && Here(d) == Some(true)
                  && 1 <= d.pump.attempts <= 2
                  && d.pump.retry.value == (if d.pump.attempts == 1 then 1000 else 2000))
  {
    StartGood(mac, w, watched, reply);
    RunKeeps(Start(mac, w, watched, reply), os);
  }

  predicate Attended(d: DaemonState) {
    d.watch.Some? && d.pump.session.open ==> d.watch.value.connected
  }

  lemma NoticeAttended(d: DaemonState, o: Occurrence)
    requires Good(d) && Attended(d) && d.watch.Some?
    ensures Attended(Notice(d, WatchMove(d, o)))
  {
    WatchMoves(d, o);
  }

  lemma HandleAttended(d: DaemonState, o: Occurrence)
    requires Good(d) && Attended(d)
    ensures Attended(Handle(d, o))
  {
    if d.watch.Some? && (o.RescanTimer? || o.TreeSignal? || o.LinkSignal? || o.WatchUp? || o.WatchDown?) {
      NoticeAttended(d, o);
    }
  }

  lemma {:induction false} RunAttended(d: DaemonState, os: seq<Occurrence>)
    requires Good(d) && Attended(d)
    ensures Attended(Run(d, os))
    decreases os
  {
    if os != [] {
      HandleAttended(d, os[0]);
      HandleKeeps(d, os[0]);
      RunAttended(Handle(d, os[0]), os[1..]);
    }
  }

  lemma StartAttended(mac: string, w: World, watched: bool, reply: Option<seq<BusObject>>)
    ensures Attended(Start(mac, w, watched, reply))
  {
  }

  /** With the watch running the channel is open only while the watch says the pods are connected to this machine. */
  lemma ChannelOnlyWhileHere(mac: string, w: World, watched: bool, reply: Option<seq<BusObject>>, os: seq<Occurrence>)
    requires w.log == []
    ensures var d := Run(Start(mac, w, watched, reply), os);
            d.pump.session.open ==> if watched then d.watch.Some? && d.watch.value.connected else d.watch.None?
  {
    StartGood(mac, w, watched, reply);
    StartAttended(mac, w, watched, reply);
    RunAttended(Start(mac, w, watched, reply), os);
    RunKeeps(Start(mac, w, watched, reply), os);
  }

  /** The daemon publishes before its main loop can put the object on the bus, so no client ever reads the object
      before the first publish. */
  lemma PublishedBeforeExported(mac: string, w: World, watched: bool, reply: Option<seq<BusObject>>,
                                os: seq<Occurrence>)
    requires w.log == []
    ensures !Start(mac, w, watched, reply).service.exported
    ensures Run(Start(mac, w, watched, reply), os).service.published
  {
    StartGood(mac, w, watched, reply);
    RunKeeps(Start(mac, w, watched, reply), os);
    StartUnexported(mac, w, watched, reply);
  }

  lemma StartUnexported(mac: string, w: World, watched: bool, reply: Option<seq<BusObject>>)
    ensures !Start(mac, w, watched, reply).service.exported
  {
    if watched {
      var v := Rescan(Upper(mac), UNPRIMED, reply);
      FeedService(Dbus.NEW_SERVICE, Fresh([], OnBluez(mac, IDLE, w, v.connected, v.path).0.published));
    } else {
      FeedService(Dbus.NEW_SERVICE, Fresh([], StartBlind(mac, IDLE, w).0.published));
    }
  }

  /** At most three connects for every callback that found the pods here, and exactly one without a watch. */
  lemma RetryBudget(mac: string, w: World, watched: bool, reply: Option<seq<BusObject>>, os: seq<Occurrence>)
    requires w.log == []
    ensures var d := Run(Start(mac, w, watched, reply), os);
            if watched then d.watch.Some? && Tries(d.w.log) <= 3 * Arrivals(d.watch.value.calls)
            else Tries(d.w.log) == 1
  {
    StartGood(mac, w, watched, reply);
    RunKeeps(Start(mac, w, watched, reply), os);
  }

  // -------------------------------------------------------------------------
  // A closed channel stays closed until BlueZ says otherwise
  // -------------------------------------------------------------------------

  predicate Dormant(d: DaemonState) {
    Good(d) && !d.pump.session.open && d.pump.retry.None?
  }

  lemma NoticeDormant(d: DaemonState, o: Occurrence)
    requires Dormant(d) && d.watch.Some?
    requires Arrivals(Notice(d, WatchMove(d, o)).watch.value.calls) == Arrivals(d.watch.value.calls)
    ensures Dormant(Notice(d, WatchMove(d, o))) && Tries(Notice(d, WatchMove(d, o)).w.log) == Tries(d.w.log)
  {
    NoticeKeeps(d, o);
    WatchMoves(d, o);
    var v := WatchMove(d, o);
    if v.calls != d.watch.value.calls {
      ArrivalsAppend(d.watch.value.calls, Call(v.connected, v.path));
      var (p, w) := OnBluez(d.mac, d.pump, d.w, v.connected, v.path);
      FeedKeeps(Upper(d.mac), d.provider, Fresh(d.pump.published, p.published), w);
    }
  }

  lemma AsideDormant(d: DaemonState, o: Occurrence)
    requires Dormant(d) && (o.Elapse? || o.ProviderUp? || o.ProviderDown? || o.Registered? || o.BusAcquired?)
    ensures Dormant(Handle(d, o)) && Tries(Handle(d, o).w.log) == Tries(d.w.log)
  {
    AsideKeeps(d, o);
  }

  lemma HandleDormant(d: DaemonState, o: Occurrence)
    requires Dormant(d)
    requires d.watch.Some? ==> Arrivals(Handle(d, o).watch.value.calls) == Arrivals(d.watch.value.calls)
    ensures Dormant(Handle(d, o)) && Tries(Handle(d, o).w.log) == Tries(d.w.log)
  {
    if o.Elapse? || o.ProviderUp? || o.ProviderDown? || o.Registered? || o.BusAcquired? {
      AsideDormant(d, o);
    } else if !o.TickTimer? && !o.RetryTimer? && d.watch.Some? {
      NoticeDormant(d, o);
    }
  }

  /** No callback along the run finds the pods here. */
  predicate NoArrival(d: DaemonState, os: seq<Occurrence>)
    decreases os
  {
    os != [] ==>
    && (d.watch.Some? ==>
          && Handle(d, os[0]).watch.Some?
          && Arrivals(Handle(d, os[0]).watch.value.calls) == Arrivals(d.watch.value.calls))
    && NoArrival(Handle(d, os[0]), os[1..])
  }

  /** Once the channel is closed and no retry is pending -- after the peer closed it, say -- nothing but a callback that
      finds the pods here leads to another connect. */
  lemma {:induction false} NoReconnectUnasked(d: DaemonState, os: seq<Occurrence>)
    requires Dormant(d) && NoArrival(d, os)
    ensures Dormant(Run(d, os)) && Tries(Run(d, os).w.log) == Tries(d.w.log)
    decreases os
  {
    if os != [] {
      HandleDormant(d, os[0]);
      NoReconnectUnasked(Handle(d, os[0]), os[1..]);
    }
  }

  /** A tick that finds the channel gone says so and leaves the daemon dormant. */
  lemma PeerCloseIsDormant(d: DaemonState)
    requires Good(d) && d.pump.timer && StepOf(DEFAULTS, d.pump.session, d.w).out.closed
    ensures Dormant(Handle(d, TickTimer)) && Handle(d, TickTimer).pump.status == "channel closed by the peer"
  {
    TickKeeps(d.mac, d.pump, d.w, Here(d));
    HandleKeeps(d, TickTimer);
  }
}
