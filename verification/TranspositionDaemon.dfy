/** The exchange of left and right carried through snapshots, the pump, the provider and the whole daemon. */
module TranspositionDaemon {
  import opened Basics
  import opened Battery
  import opened Environment
  import opened SessionModel
  import opened States
  import opened Watches
  import opened PumpModel
  import opened ProviderModel
  import opened Transposition
  import opened Daemon

  // -------------------------------------------------------------------------
  // Snapshots and the pump
  // -------------------------------------------------------------------------

  const KNOWN: set<string> := {"left", "right", "case"}

  function MirrorName(name: string): string {
    if name == "left" then "right" else if name == "right" then "left" else name
  }

  function MirrorComponents(components: map<string, ComponentView>): map<string, ComponentView> {
    map name | name in KNOWN && MirrorName(name) in components :: components[MirrorName(name)]
  }

  function MirrorState(s: State): State {
    s.(components := MirrorComponents(s.components))
  }

  function MirrorStates(states: seq<State>): seq<State> {
    seq(|states|, i requires 0 <= i < |states| => MirrorState(states[i]))
  }

  function MirrorPump(p: PumpState): PumpState {
    p.(session := MirrorSession(p.session), published := MirrorStates(p.published))
  }

  lemma MirrorLast(report: Report, c: Component)
    ensures LastOf(MirrorReport(report), MirrorComponent(c)) ==
            match LastOf(report, c) case None => None case Some(r) => Some(MirrorReading(r))
  {
    if report != [] {
      assert MirrorReport(report)[..|report| - 1] == MirrorReport(report[..|report| - 1]);
      MirrorLast(report[..|report| - 1], c);
    }
  }

  lemma MirrorNames(c: Component)
    ensures MirrorName(ComponentName(c)) == ComponentName(MirrorComponent(c))
    ensures ComponentName(c) in KNOWN
    ensures MirrorComponent(MirrorComponent(c)) == c
  {
    NamesDiffer(c, Left);
    NamesDiffer(c, Right);
  }

  lemma MirrorOneComponent(report: Report, c: Component)
    ensures AgreeAt(Components(MirrorReport(report)), MirrorComponents(Components(report)), ComponentName(c))
  {
    var d := MirrorComponent(c);
    MirrorNames(c);
    MirrorLast(report, d);
    ComponentsAreLast(MirrorReport(report), c);
    ComponentsAreLast(report, d);
  }

  predicate AgreeAt<V(==)>(a: map<string, V>, b: map<string, V>, name: string) {
    (name in a <==> name in b) && (name in a ==> a[name] == b[name])
  }

  lemma MirrorAt(report: Report, name: string)
    requires name in KNOWN
    ensures AgreeAt(Components(MirrorReport(report)), MirrorComponents(Components(report)), name)
  {
    if name == "left" {
      MirrorOneComponent(report, Left);
    } else if name == "right" {
      MirrorOneComponent(report, Right);
    } else {
      MirrorOneComponent(report, Case);
    }
  }

  lemma AgreeEverywhere<V>(a: map<string, V>, b: map<string, V>)
    requires a.Keys <= KNOWN && b.Keys <= KNOWN
    requires forall name :: name in KNOWN ==> AgreeAt(a, b, name)
    ensures a == b
  {
    forall name
      ensures AgreeAt(a, b, name)
    {
      assert name in a || name in b ==> name in KNOWN;
    }
  }

  lemma MirrorSnapshotComponents(report: Report)
    ensures Components(MirrorReport(report)) == MirrorComponents(Components(report))
  {
    OnlyKnownNames(MirrorReport(report));
    forall name | name in KNOWN
      ensures AgreeAt(Components(MirrorReport(report)), MirrorComponents(Components(report)), name)
    {
      MirrorAt(report, name);
    }
    AgreeEverywhere(Components(MirrorReport(report)), MirrorComponents(Components(report)));
  }

  lemma MirrorSnapshot(mac: string, p: PumpState)
    ensures Snapshot(mac, MirrorPump(p)) == MirrorState(Snapshot(mac, p))
    ensures PublishNow(mac, MirrorPump(p)) == MirrorPump(PublishNow(mac, p))
  {
    if p.session.battery.Some? {
      MirrorSnapshotComponents(p.session.battery.value);
    } else {
      assert MirrorComponents(map[]) == map[];
    }
    assert MirrorStates(p.published + [Snapshot(mac, p)])
        == MirrorStates(p.published) + [MirrorState(Snapshot(mac, p))];
  }

  function MirrorBoth(r: (PumpState, World)): (PumpState, World) {
    (MirrorPump(r.0), MirrorWorld(r.1))
  }

  lemma MirrorRetry(mac: string, p: PumpState, here: Option<bool>)
    requires p.attempts >= 1
    ensures ScheduleRetry(mac, MirrorPump(p), here) == MirrorPump(ScheduleRetry(mac, p, here))
  {
    MirrorSnapshot(mac, p.(status := p.status + " (gave up after " + Decimal(p.attempts) + " attempts)"));
  }

  lemma MirrorAttach(mac: string, p: PumpState, w: World, here: Option<bool>)
    ensures Attach(mac, MirrorPump(p), MirrorWorld(w), here) == MirrorBoth(Attach(mac, p, w, here))
  {
    if !p.session.open {
      MirrorOpen(DEFAULTS, p.session, w);
      var r := OpenResult(DEFAULTS, p.session, w);
      var p1 := p.(session := OpenOf(DEFAULTS, p.session, w).0, attempts := p.attempts + 1);
      if r.ok {
        MirrorSnapshot(mac, p1.(status := CHANNEL_OPEN));
      } else {
        MirrorRefused(mac, p1, r, here);
      }
    }
  }

  lemma MirrorRefused(mac: string, p: PumpState, r: ConnectResult, here: Option<bool>)
    requires p.attempts >= 1
    ensures var status := StageName(r.reached) + ": " + r.diagnosis;
            ScheduleRetry(mac, PublishNow(mac, MirrorPump(p).(status := status)), here)
            == MirrorPump(ScheduleRetry(mac, PublishNow(mac, p.(status := status)), here))
  {
    var p1 := p.(status := StageName(r.reached) + ": " + r.diagnosis);
    MirrorSnapshot(mac, p1);
    MirrorRetry(mac, PublishNow(mac, p1), here);
  }

  lemma MirrorDetach(mac: string, p: PumpState, why: string)
    ensures Detach(mac, MirrorPump(p), why) == MirrorPump(Detach(mac, p, why))
  {
    MirrorSnapshot(mac, p.(timer := false, session := Shut(p.session), status := why));
  }

  lemma MirrorOnBluez(mac: string, p: PumpState, w: World, connected: bool, path: string)
    ensures OnBluez(mac, MirrorPump(p), MirrorWorld(w), connected, path)
         == MirrorBoth(OnBluez(mac, p, w, connected, path))
  {
    var p1 := p.(attempts := 0, retry := None);
    if connected {
      MirrorAttach(mac, p1, w, Some(true));
    } else if p.session.open {
      MirrorDetach(mac, p1, LEFT);
    } else {
      MirrorSnapshot(mac, p1.(status := if path == "" then UNKNOWN_PODS else AWAY));
    }
  }

  lemma MirrorTick(mac: string, p: PumpState, w: World)
    ensures Tick(mac, MirrorPump(p), MirrorWorld(w)) == MirrorBoth(Tick(mac, p, w))
  {
    MirrorStep(DEFAULTS, p.session, w);
    var r := StepOf(DEFAULTS, p.session, w);
    var p1 := p.(session := r.s);
    MirrorDetach(mac, p1, CLOSED_BY_PEER);
    MirrorSnapshot(mac, p1);
    assert MirrorProgress(r).out.Idle() == r.out.Idle();
  }

  // -------------------------------------------------------------------------
  // The provider
  // -------------------------------------------------------------------------

  function MirrorFields(fields: seq<Field>): seq<Field>
    requires |fields| == 3
  {
    [fields[1], fields[0], fields[2]]
  }

  /** Sources written for mirrored snapshots, or nothing written yet. */
  ghost predicate TwinSources(a: string, b: string) {
    || (a == "" && b == "")
    || exists fields: seq<Field> | |fields| == 3 :: a == SourceText(fields) && b == SourceText(MirrorFields(fields))
  }

  ghost predicate TwinProps(p: Props, q: Props) {
    p.device == q.device && p.percentage == q.percentage && TwinSources(p.source, q.source)
  }

  ghost predicate TwinSignal(s: Signal, t: Signal) {
    match (s, t)
    case (Added(p), Added(q)) => TwinProps(p, q)
    case (Changed(p), Changed(q)) => TwinProps(p, q)
    case (Removed, Removed) => true
    case (Forgotten, Forgotten) => true
    case _ => false
  }

  ghost predicate TwinProvider(v: ProviderState, u: ProviderState) {
    && u == v.(source := u.source, signals := u.signals)
    && TwinSources(v.source, u.source)
    && |v.signals| == |u.signals|
    && forall i :: 0 <= i < |v.signals| ==> TwinSignal(v.signals[i], u.signals[i])
  }

  lemma MirrorStateFields(s: State)
    ensures Fields(MirrorState(s)) == MirrorFields(Fields(s))
    ensures Percentage(MirrorState(s)) == Percentage(s)
  {
    assert MirrorName("left") == "right" && MirrorName("right") == "left" && MirrorName("case") == "case" by {
      assert "right"[0] != "left"[0] && "case"[0] != "left"[0] && "case"[0] != "right"[0];
    }
    assert "left" in KNOWN && "right" in KNOWN && "case" in KNOWN;
  }

  lemma MirrorSources(fields: seq<Field>, others: seq<Field>)
    requires |fields| == |others| == 3
    ensures (SourceText(fields) == SourceText(others))
         == (SourceText(MirrorFields(fields)) == SourceText(MirrorFields(others)))
  {
    SourceInjective(fields, others);
    SourceInjective(MirrorFields(fields), MirrorFields(others));
    if MirrorFields(fields) == MirrorFields(others) {
      MirrorTwice(fields);
      MirrorTwice(others);
    }
  }

  lemma MirrorTwice(fields: seq<Field>)
    requires |fields| == 3
    ensures MirrorFields(MirrorFields(fields)) == fields
  {
  }

  lemma SourceNotEmpty(fields: seq<Field>)
    requires |fields| == 3
    ensures SourceText(fields) != ""
  {
  }

  /** Whether a new Source differs from the old one survives the exchange. */
  lemma TwinSourcesChange(a: string, b: string, now: seq<Field>)
    requires TwinSources(a, b) && |now| == 3
    ensures TwinSources(SourceText(now), SourceText(MirrorFields(now)))
    ensures (SourceText(now) != a) == (SourceText(MirrorFields(now)) != b)
  {
    if a == "" && b == "" {
      SourceNotEmpty(now);
      SourceNotEmpty(MirrorFields(now));
    } else {
      var fields: seq<Field> :| |fields| == 3 && a == SourceText(fields) && b == SourceText(MirrorFields(fields));
      MirrorSources(now, fields);
    }
  }

  lemma MirrorOffer(v: ProviderState, u: ProviderState, pct: Option<byte>, src: string, crs: string, exportable: bool)
    requires TwinProvider(v, u) && TwinSources(src, crs)
    requires (src != v.source) == (crs != u.source)
    ensures TwinProvider(Offer(v, pct, src, exportable), Offer(u, pct, crs, exportable))
  {
    var v1, u1 := Offer(v, pct, src, exportable), Offer(u, pct, crs, exportable);
    if v1.signals != v.signals {
      var s, t := v1.signals[|v.signals|], u1.signals[|u.signals|];
      assert v1.signals == v.signals + [s] && u1.signals == u.signals + [t];
      assert TwinSignal(s, t);
    }
  }

  lemma MirrorRefreshed(mac: string, v: ProviderState, u: ProviderState, reply: BusReply)
    requires TwinProvider(v, u)
    ensures TwinProvider(Refreshed(mac, v, reply), Refreshed(mac, u, reply))
    ensures Refreshed(mac, v, reply).source == v.source && Refreshed(mac, u, reply).source == u.source
  {
  }

  lemma MirrorPublish(mac: string, v: ProviderState, u: ProviderState, s: State, reply: BusReply)
    requires TwinProvider(v, u)
    ensures TwinProvider(Publish(mac, v, s, reply), Publish(mac, u, MirrorState(s), reply))
  {
    if v.registered {
      MirrorStateFields(s);
      MirrorRefreshed(mac, v, u, reply);
      var fields := Fields(s);
      TwinSourcesChange(v.source, u.source, fields);
      MirrorOffer(Refreshed(mac, v, reply), Refreshed(mac, u, reply), if s.channelOpen then Percentage(s) else None,
                  SourceText(fields), SourceText(MirrorFields(fields)), reply.exported);
    }
  }

  lemma {:induction false} MirrorFeed(mac: string, v: ProviderState, u: ProviderState, states: seq<State>, w: World)
    requires TwinProvider(v, u)
    ensures var (v1, w1) := FeedProvider(mac, v, states, w);
            var (u1, w2) := FeedProvider(mac, u, MirrorStates(states), MirrorWorld(w));
            TwinProvider(v1, u1) && w2 == MirrorWorld(w1)
    decreases states
  {
    if states != [] {
      MirrorPublish(mac, v, u, states[0], NextReply(w));
      assert MirrorStates(states)[1..] == MirrorStates(states[1..]);
      MirrorFeed(mac, Publish(mac, v, states[0], NextReply(w)), Publish(mac, u, MirrorState(states[0]), NextReply(w)),
                 states[1..], AfterReply(w));
    }
  }

  // -------------------------------------------------------------------------
  // The daemon
  // -------------------------------------------------------------------------

  ghost predicate Twins(d: DaemonState, e: DaemonState) {
    && e.mac == d.mac && e.watch == d.watch
    && e.pump == MirrorPump(d.pump) && e.w == MirrorWorld(d.w)
    && TwinProvider(d.provider, e.provider)
  }

  lemma MirrorDeliver(d: DaemonState, e: DaemonState, p: PumpState, w: World)
    requires Twins(d, e)
    ensures Twins(Deliver(d, p, w), Deliver(e, MirrorPump(p), MirrorWorld(w)))
  {
    var states := Fresh(d.pump.published, p.published);
    assert Fresh(e.pump.published, MirrorPump(p).published) == MirrorStates(states);
    MirrorFeed(Upper(d.mac), d.provider, e.provider, states, w);
  }

  lemma MirrorNotice(d: DaemonState, e: DaemonState, v: WatchState)
    requires Twins(d, e)
    ensures Twins(Notice(d, v), Notice(e, v))
  {
    if v.calls != [] {
      var call := v.calls[|v.calls| - 1];
      MirrorOnBluez(d.mac, d.pump, d.w, call.connected, call.path);
      var (p, w) := OnBluez(d.mac, d.pump, d.w, call.connected, call.path);
      MirrorDeliver(d.(watch := Some(v)), e.(watch := Some(v)), p, w);
    }
  }

  lemma MirrorTimers(d: DaemonState, e: DaemonState, o: Occurrence)
    requires Twins(d, e) && (o.TickTimer? || o.RetryTimer?)
    ensures Twins(Handle(d, o), Handle(e, o))
  {
    if o.TickTimer? {
      MirrorTick(d.mac, d.pump, d.w);
      var (p, w) := Tick(d.mac, d.pump, d.w);
      MirrorDeliver(d, e, p, w);
    } else {
      assert MirrorPump(d.pump.(retry := None)) == e.pump.(retry := None);
      MirrorAttach(d.mac, d.pump.(retry := None), d.w, Here(d));
      var (p, w) := RetryFires(d.mac, d.pump, d.w, Here(d));
      MirrorDeliver(d, e, p, w);
    }
  }

  lemma MirrorHandle(d: DaemonState, e: DaemonState, o: Occurrence)
    requires Twins(d, e)
    ensures Twins(Handle(d, o), Handle(e, o))
  {
    if o.TickTimer? || o.RetryTimer? {
      MirrorTimers(d, e, o);
    } else if !(o.Elapse? || o.ProviderUp? || o.ProviderDown? || o.Registered? || o.BusAcquired?) && d.watch.Some? {
      assert WatchMove(e, o) == WatchMove(d, o);
      MirrorNotice(d, e, WatchMove(d, o));
    }
  }

  lemma {:induction false} MirrorRun(d: DaemonState, e: DaemonState, os: seq<Occurrence>)
    requires Twins(d, e)
    ensures Twins(Daemon.Run(d, os), Daemon.Run(e, os))
    decreases os
  {
    if os != [] {
      MirrorHandle(d, e, os[0]);
      MirrorRun(Handle(d, os[0]), Handle(e, os[0]), os[1..]);
    }
  }

  lemma MirrorStart(mac: string, w: World, watched: bool, reply: Option<seq<BusObject>>)
    ensures Twins(Start(mac, w, watched, reply), Start(mac, MirrorWorld(w), watched, reply))
  {
    var d := DaemonState(mac, IDLE, None, NEW_PROVIDER, Dbus.NEW_SERVICE, w);
    var e := d.(w := MirrorWorld(w));
    assert MirrorPump(IDLE) == IDLE by {
      assert MirrorStates([]) == [];
    }
    if watched {
      MirrorNotice(d, e, Rescan(Upper(mac), UNPRIMED, reply));
    } else {
      assert MirrorPump(IDLE.(status := NO_WATCH)) == IDLE.(status := NO_WATCH);
      MirrorAttach(mac, IDLE.(status := NO_WATCH), w, None);
      var (p, w1) := StartBlind(mac, IDLE, w);
      MirrorDeliver(d, e, p, w1);
    }
  }

  /** Run the daemon twice through the same occurrences, the second time with left and right exchanged in every battery
      packet received: BlueZ sees the same additions, changes and removals, with the same device and percentage in each,
      and holds the same number throughout. */
  lemma TranspositionInvisible(mac: string, w: World, watched: bool, reply: Option<seq<BusObject>>, os: seq<Occurrence>)
    ensures var d := Daemon.Run(Start(mac, w, watched, reply), os);
            var e := Daemon.Run(Start(mac, MirrorWorld(w), watched, reply), os);
            && |d.provider.signals| == |e.provider.signals|
            && (forall i :: 0 <= i < |d.provider.signals| ==> TwinSignal(d.provider.signals[i], e.provider.signals[i]))
            && d.provider.exported == e.provider.exported
            && d.provider.percentage == e.provider.percentage
            && d.provider.device == e.provider.device
  {
    MirrorStart(mac, w, watched, reply);
    MirrorRun(Start(mac, w, watched, reply), Start(mac, MirrorWorld(w), watched, reply), os);
  }
}
