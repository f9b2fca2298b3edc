/** From the packets to the screen: a session-bus client of the running daemon, and what its tile shows. */
module EndToEnd {
  import opened Basics
  import opened Battery
  import opened Environment
  import opened SessionCache
  import opened States
  import opened Watches
  import opened PumpModel
  import opened Daemon
  import Dbus
  import Format

  /** The service after some publishes. */
  predicate Later(v: Dbus.ServiceState, u: Dbus.ServiceState) {
    && u.exported && u.published && v.signals <= u.signals
    && Dbus.Merged(Dbus.Properties(v.state), u.signals[|v.signals|..]) == Dbus.Properties(u.state)
  }

  lemma LaterTransitive(v: Dbus.ServiceState, u: Dbus.ServiceState, t: Dbus.ServiceState)
    requires Later(v, u) && Later(u, t)
    ensures Later(v, t)
  {
    assert t.signals[|v.signals|..] == u.signals[|v.signals|..] + t.signals[|u.signals|..];
    Dbus.MergedAppend(Dbus.Properties(v.state), u.signals[|v.signals|..], t.signals[|u.signals|..]);
  }

  lemma PublishesLater(v: Dbus.ServiceState, states: seq<State>)
    requires v.exported && v.published
    ensures Later(v, Dbus.PublishAll(v, states))
  {
    Dbus.ReplicaTracks(v, states);
    ServiceFlags(v, states);
  }

  lemma {:induction false} ServiceFlags(v: Dbus.ServiceState, states: seq<State>)
    requires v.exported && v.published
    ensures Dbus.PublishAll(v, states).exported && Dbus.PublishAll(v, states).published
    decreases states
  {
    if states != [] {
      ServiceFlags(Dbus.Publish(v, states[0]), states[1..]);
    }
  }

  lemma NoticeLater(d: DaemonState, v: WatchState)
    requires d.service.exported && d.service.published
    ensures Later(d.service, Notice(d, v).service)
  {
    PublishesLater(d.service, []);
    if v.calls != [] {
      var call := v.calls[|v.calls| - 1];
      var (p, w) := OnBluez(d.mac, d.pump, d.w, call.connected, call.path);
      PublishesLater(d.service, Fresh(d.pump.published, p.published));
    }
  }

  lemma HandleLater(d: DaemonState, o: Occurrence)
    requires d.service.exported && d.service.published
    ensures Later(d.service, Handle(d, o).service)
  {
    PublishesLater(d.service, []);
    match o {
      case TickTimer =>
        PublishesLater(d.service, Fresh(d.pump.published, Tick(d.mac, d.pump, d.w).0.published));
      case RetryTimer =>
        PublishesLater(d.service, Fresh(d.pump.published, RetryFires(d.mac, d.pump, d.w, Here(d)).0.published));
      case RescanTimer(_) => if d.watch.Some? { NoticeLater(d, WatchMove(d, o)); }
      case TreeSignal => if d.watch.Some? { NoticeLater(d, WatchMove(d, o)); }
      case LinkSignal(_, _) => if d.watch.Some? { NoticeLater(d, WatchMove(d, o)); }
      case WatchUp(_) => if d.watch.Some? { NoticeLater(d, WatchMove(d, o)); }
      case WatchDown => if d.watch.Some? { NoticeLater(d, WatchMove(d, o)); }
      case _ =>
    }
  }

  lemma {:induction false} RunLater(d: DaemonState, os: seq<Occurrence>)
    requires d.service.exported && d.service.published
    ensures Later(d.service, Daemon.Run(d, os).service)
    decreases os
  {
    if os == [] {
      PublishesLater(d.service, []);
    } else {
      HandleLater(d, os[0]);
      RunLater(Handle(d, os[0]), os[1..]);
      LaterTransitive(d.service, Handle(d, os[0]).service, Daemon.Run(d, os).service);
    }
  }

  lemma DeliverExported(d: DaemonState, p: PumpState, w: World)
    ensures Deliver(d, p, w).service.exported == d.service.exported
  {
    FeedService(d.service, Fresh(d.pump.published, p.published));
  }

  lemma NoticeExported(d: DaemonState, v: WatchState)
    ensures Notice(d, v).service.exported == d.service.exported
  {
    if v.calls != [] {
      var call := v.calls[|v.calls| - 1];
      var (p, w) := OnBluez(d.mac, d.pump, d.w, call.connected, call.path);
      DeliverExported(d.(watch := Some(v)), p, w);
    }
  }

  lemma HandleExported(d: DaemonState, o: Occurrence)
    ensures Handle(d, o).service.exported <==> d.service.exported || o == BusAcquired(true)
  {
    match o {
      case TickTimer =>
        var (p, w) := Tick(d.mac, d.pump, d.w);
        DeliverExported(d, p, w);
      case RetryTimer =>
        var (p, w) := RetryFires(d.mac, d.pump, d.w, Here(d));
        DeliverExported(d, p, w);
      case RescanTimer(_) => if d.watch.Some? { NoticeExported(d, WatchMove(d, o)); }
      case TreeSignal => if d.watch.Some? { NoticeExported(d, WatchMove(d, o)); }
      case LinkSignal(_, _) => if d.watch.Some? { NoticeExported(d, WatchMove(d, o)); }
      case WatchUp(_) => if d.watch.Some? { NoticeExported(d, WatchMove(d, o)); }
      case WatchDown => if d.watch.Some? { NoticeExported(d, WatchMove(d, o)); }
      case _ =>
    }
  }

  lemma {:induction false} RunExported(d: DaemonState, os: seq<Occurrence>)
    ensures Daemon.Run(d, os).service.exported <==> d.service.exported || BusAcquired(true) in os
    decreases os
  {
    if os != [] {
      HandleExported(d, os[0]);
      RunExported(Handle(d, os[0]), os[1..]);
      assert os == [os[0]] + os[1..];
    }
  }

  /** The object is on the session bus exactly when the bus was acquired and took it at some point of the run. */
  lemma ExportedExactly(mac: string, w: World, watched: bool, reply: Option<seq<BusObject>>, os: seq<Occurrence>)
    ensures Daemon.Run(Start(mac, w, watched, reply), os).service.exported <==> BusAcquired(true) in os
  {
    StartUnexported(mac, w, watched, reply);
    RunExported(Start(mac, w, watched, reply), os);
  }

  /** What a client holds that read every property when the daemon was `d` and has merged every signal up to `e`. */
  function ClientCopy(d: DaemonState, e: DaemonState): map<Dbus.Name, Dbus.Property> {
    var before, after := d.service.signals, e.service.signals;
    Dbus.Merged(Dbus.Properties(d.service.state), if |before| <= |after| then after[|before|..] else [])
  }

  lemma ClientHasSnapshot(d: DaemonState, more: seq<Occurrence>)
    requires Good(d) && d.service.exported
    ensures ClientCopy(d, Daemon.Run(d, more)) == Dbus.Properties(Snapshot(d.mac, Daemon.Run(d, more).pump))
  {
    RunKeeps(d, more);
    RunLater(d, more);
  }

  /** The tile's view of a copy of the properties. */
  function TileOf(copy: map<Dbus.Name, Dbus.Property>, ageMs: int): Format.TileView {
    Format.TileView(
      true,
      if Dbus.Phase in copy && copy[Dbus.Phase].Text? then copy[Dbus.Phase].text else "",
      Dbus.ChannelOpen in copy && copy[Dbus.ChannelOpen] == Dbus.Truth(true),
      Dbus.HaveBattery in copy && copy[Dbus.HaveBattery] == Dbus.Truth(true),
      ageMs,
      Dbus.DecodeComponents(if Dbus.ComponentTable in copy && copy[Dbus.ComponentTable].Table?
                            then Some(copy[Dbus.ComponentTable].dicts) else None))
  }

  /** The accepted packet whose blocks give these levels to the pods. */
  ghost predicate LastPacketCarries(log: seq<Event>, left: Option<byte>, right: Option<byte>) {
    var packet := LastAcceptedPacket(log);
    packet.Some? && Blocks(packet.value).Some? && Carries(Blocks(packet.value).value, Left, left)
      && Carries(Blocks(packet.value).value, Right, right)
  }

  /** A client that reads the properties between any two callbacks and merges every later signal always has the present
      snapshot. Its tile counts as live exactly while the channel is open, knows of a battery exactly when a report was
      ever accepted, and shows the line "L", `l`, "R", `r` -- bare when live, behind the age otherwise -- exactly when
      `left` and `right` are the levels that the last blocks of the last accepted packet carry, one of them a number. */
  lemma TileShowsLastAccepted(mac: string, w: World, watched: bool, reply: Option<seq<BusObject>>, os: seq<Occurrence>,
                              more: seq<Occurrence>, ageMs: int, left: Option<byte>, right: Option<byte>,
                              l: string, r: string)
    requires w.log == [] && SaysLevel(l, left, "\U{2014}") && SaysLevel(r, right, "\U{2014}")
    requires Daemon.Run(Start(mac, w, watched, reply), os).service.exported
    ensures var d := Daemon.Run(Start(mac, w, watched, reply), os);
            var e := Daemon.Run(d, more);
            var tile := TileOf(ClientCopy(d, e), ageMs);
            && ClientCopy(d, e) == Dbus.Properties(Snapshot(mac, e.pump))
            && tile.channelOpen == e.pump.session.open
            && tile.haveBattery == LastAccepted(e.w.log).Some?
            && (Format.Subtitle(tile)
                == (if e.pump.session.open then "" else Format.FormatAge(ageMs) + " \U{00b7} ")
                   + ("L " + l + (" \U{00b7} R " + r))
                <==> (left.Some? || right.Some?) && LastPacketCarries(e.w.log, left, right))
  {
    var d := Daemon.Run(Start(mac, w, watched, reply), os);
    var e := Daemon.Run(d, more);
    StartGood(mac, w, watched, reply);
    RunKeeps(Start(mac, w, watched, reply), os);
    ClientHasSnapshot(d, more);
    RunKeeps(d, more);
    assert e.pump.session.battery == LastAccepted(e.w.log);
    TileOfSnapshot(mac, e.pump, ageMs);
    Format.SubtitleTells(TileOf(ClientCopy(d, e), ageMs), left, right, l, r);
    LevelsCarried(e.w.log, left, right);
  }

  /** Property by property, that client has the address, the phase in words, whether the channel is open, the status
      line, whether a report was ever accepted, how many packets were refused, and the components of the last report. */
  lemma ClientSees(mac: string, w: World, watched: bool, reply: Option<seq<BusObject>>, os: seq<Occurrence>,
                   more: seq<Occurrence>)
    requires w.log == []
    requires Daemon.Run(Start(mac, w, watched, reply), os).service.exported
    ensures var d := Daemon.Run(Start(mac, w, watched, reply), os);
            var e := Daemon.Run(d, more);
            var copy := ClientCopy(d, e);
            && copy.Keys == Dbus.NAMES
            && copy[Dbus.Address] == Dbus.Text(mac)
            && copy[Dbus.Phase] == Dbus.Text(match e.pump.session.phase
                                             case Closed => "closed"
                                             case WaitHandshakeAck => "wait-handshake-ack"
                                             case WaitFeaturesAck => "wait-features-ack"
                                             case Listening => "listening")
            && copy[Dbus.ChannelOpen] == Dbus.Truth(e.pump.session.open)
            && copy[Dbus.StatusLine] == Dbus.Text(e.pump.status)
            && copy[Dbus.HaveBattery] == Dbus.Truth(LastAccepted(e.w.log).Some?)
            && copy[Dbus.ParseRefusals] == Dbus.Int32(Refusals(e.w.log))
            && copy[Dbus.ComponentTable] == Dbus.Table(Dbus.EncodeComponents(
                 if LastAccepted(e.w.log).Some? then Components(LastAccepted(e.w.log).value) else map[]))
  {
    var d := Daemon.Run(Start(mac, w, watched, reply), os);
    StartGood(mac, w, watched, reply);
    RunKeeps(Start(mac, w, watched, reply), os);
    ClientHasSnapshot(d, more);
    RunKeeps(d, more);
    PropertiesOf(Snapshot(mac, Daemon.Run(d, more).pump));
  }

  lemma PropertiesOf(s: State)
    ensures var copy := Dbus.Properties(s);
            && copy.Keys == Dbus.NAMES
            && copy[Dbus.Address] == Dbus.Text(s.address)
            && copy[Dbus.Phase] == Dbus.Text(s.phase)
            && copy[Dbus.ChannelOpen] == Dbus.Truth(s.channelOpen)
            && copy[Dbus.StatusLine] == Dbus.Text(s.status)
            && copy[Dbus.HaveBattery] == Dbus.Truth(s.haveBattery)
            && copy[Dbus.ParseRefusals] == Dbus.Int32(s.parseRefusals)
            && copy[Dbus.ComponentTable] == Dbus.Table(Dbus.EncodeComponents(s.components))
  {
  }

  lemma TileOfSnapshot(mac: string, p: PumpState, ageMs: int)
    ensures var tile := TileOf(Dbus.Properties(Snapshot(mac, p)), ageMs);
            && tile.daemonPresent
            && tile.channelOpen == p.session.open
            && tile.haveBattery == p.session.battery.Some?
            && (p.session.battery.Some? ==>
                  && Format.PodLevel(tile, Left) == ReportLevel(p.session.battery.value, Left)
                  && Format.PodLevel(tile, Right) == ReportLevel(p.session.battery.value, Right))
  {
    var s := Snapshot(mac, p);
    Dbus.ComponentsRoundTrip(s.components);
    if p.session.battery.Some? {
      ComponentsAreLast(p.session.battery.value, Left);
      ComponentsAreLast(p.session.battery.value, Right);
    }
  }

  lemma LevelsCarried(log: seq<Event>, left: Option<byte>, right: Option<byte>)
    ensures LastPacketCarries(log, left, right) <==>
            && LastAccepted(log).Some?
            && ReportLevel(LastAccepted(log).value, Left) == left
            && ReportLevel(LastAccepted(log).value, Right) == right
  {
    AcceptedPacketParses(log);
    if LastAccepted(log).Some? {
      var bs := Blocks(LastAcceptedPacket(log).value).value;
      LevelIsCarried(bs, Left, left);
      LevelIsCarried(bs, Right, right);
    }
  }
}
