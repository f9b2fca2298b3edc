/** The device the provider announces against the device BlueZ has: a path is looked up once and then believed. */
module DevicePath {
  import opened Basics
  import opened Environment
  import opened SessionModel
  import opened SessionEffects
  import opened States
  import opened Watches
  import opened WatchAgreement
  import opened PumpModel
  import opened PumpProofs
  import opened ProviderModel
  import opened Daemon
  import opened Reconnection
  import opened ReconnectRuns
  import opened Presence

  // -------------------------------------------------------------------------
  // What one callback does to the path
  // -------------------------------------------------------------------------

  /** The provider's scan finds what the watch's scan finds. */
  lemma {:induction false} FindDeviceIsLookup(mac: string, objects: seq<BusObject>)
    requires PathsNamed(objects)
    ensures FindDevice(mac, objects) == Lookup(mac, objects).path
  {
    if objects != [] && !Matches(mac, objects[0]) {
      assert PathsNamed(objects[1..]) by {
        forall i | 0 <= i < |objects[1..]|
          ensures objects[1..][i].path != ""
        {
          assert objects[1..][i] == objects[i + 1];
        }
      }
      FindDeviceIsLookup(mac, objects[1..]);
      FirstMatchIsFirst(mac, objects[1..]);
    }
  }

  /** Where the device is, according to a bluetoothd that may be away. */
  function PathIn(mac: string, reply: Option<seq<BusObject>>, otherwise: string): string {
    if reply.None? then otherwise else FindDevice(mac, reply.value)
  }

  lemma PublishPath(mac: string, v: ProviderState, s: State, r: BusReply)
    ensures var u := ProviderModel.Publish(mac, v, s, r);
            && u.registered == v.registered
            && u.device == if v.registered && v.device == "" then PathIn(mac, r.objects, "") else v.device
  {
  }

  lemma FeedTwice(mac: string, v: ProviderState, states: seq<State>, w: World, r: BusReply)
    requires |states| <= 2 && w.replies == [r, r]
    ensures var u := FeedProvider(mac, v, states, w).0;
            && u.registered == v.registered
            && u.device == if v.registered && v.device == "" && states != [] then PathIn(mac, r.objects, "")
                           else v.device
  {
    if states != [] {
      FeedOneThen(mac, v, states, w);
      PublishPath(mac, v, states[0], r);
      assert AfterReply(w).replies == [r];
      if |states| == 2 {
        FeedOneThen(mac, ProviderModel.Publish(mac, v, states[0], r), states[1..], AfterReply(w));
        PublishPath(mac, ProviderModel.Publish(mac, v, states[0], r), states[1], r);
      }
    }
  }

  lemma FeedOneThen(mac: string, v: ProviderState, states: seq<State>, w: World)
    requires states != []
    ensures FeedProvider(mac, v, states, w)
         == FeedProvider(mac, ProviderModel.Publish(mac, v, states[0], NextReply(w)), states[1..], AfterReply(w))
  {
  }

  /** What the pump hands on in one callback: at most two snapshots, and no query of its own. */
  predicate Brief(p: PumpState, w: World, p1: PumpState, w1: World) {
    p.published <= p1.published && |p1.published| <= |p.published| + 2 && w1.replies == w.replies
  }

  lemma AttachBrief(mac: string, p: PumpState, w: World, here: Option<bool>)
    ensures var (p1, w1) := Attach(mac, p, w, here); Brief(p, w, p1, w1)
  {
    OpenTries(DEFAULTS, p.session, w);
  }

  lemma OnBluezBrief(mac: string, p: PumpState, w: World, connected: bool, path: string)
    ensures var (p1, w1) := OnBluez(mac, p, w, connected, path); Brief(p, w, p1, w1)
  {
    AttachBrief(mac, p.(attempts := 0, retry := None), w, Some(true));
  }

  lemma TickBrief(mac: string, p: PumpState, w: World)
    ensures var (p1, w1) := Tick(mac, p, w); Brief(p, w, p1, w1)
  {
    StepTalks(DEFAULTS, p.session, w);
    TickShape(mac, p, w);
  }

  /** The path after a callback whose pump handed on so much. */
  predicate PathFollows(d: DaemonState, e: DaemonState, reply: Option<seq<BusObject>>) {
    && e.provider.registered == d.provider.registered
    && e.provider.device == if d.provider.registered && d.provider.device == "" && e.pump.published != d.pump.published
                            then PathIn(Upper(d.mac), reply, "") else d.provider.device
  }

  lemma DeliverPath(d: DaemonState, p: PumpState, w: World, r: BusReply)
    requires Brief(d.pump, d.w, p, w) && d.w.replies == [r, r]
    ensures PathFollows(d, Daemon.Deliver(d, p, w), r.objects)
  {
    var states := Fresh(d.pump.published, p.published);
    FeedTwice(Upper(d.mac), d.provider, states, w, r);
    if states == [] {
      assert p.published == d.pump.published;
    }
  }

  lemma NoticePath(d: DaemonState, v: WatchState, r: BusReply)
    requires d.w.replies == [r, r]
    ensures PathFollows(d, Notice(d, v), r.objects)
  {
    if v.calls != [] {
      var call := v.calls[|v.calls| - 1];
      var (p, w) := OnBluez(d.mac, d.pump, d.w, call.connected, call.path);
      OnBluezBrief(d.mac, d.pump, d.w, call.connected, call.path);
      DeliverPath(d.(watch := Some(v)), p, w, r);
    }
  }

  lemma TimerPath(d: DaemonState, o: Occurrence, r: BusReply)
    requires d.w.replies == [r, r] && (o.TickTimer? || o.RetryTimer?)
    ensures PathFollows(d, Handle(d, o), r.objects)
  {
    if o.TickTimer? {
      var (p, w) := Tick(d.mac, d.pump, d.w);
      TickBrief(d.mac, d.pump, d.w);
      DeliverPath(d, p, w, r);
    } else {
      var (p, w) := RetryFires(d.mac, d.pump, d.w, Here(d));
      AttachBrief(d.mac, d.pump.(retry := None), d.w, Here(d));
      DeliverPath(d, p, w, r);
    }
  }

  /** The provider's path after any callback but the loss of bluetoothd: looked up anew in the present tree when it
      looks, otherwise what it was. */
  lemma RunsPath(j: Joint, s: System, o: Occurrence, takes: bool)
    requires !o.ProviderDown? && (o.ProviderUp? ==> o.reply == Reply(j.s))
    ensures var j1 := Runs(j, s, o, takes);
            && (j.d.provider.registered ==> j1.d.provider.registered)
            && j1.d.provider.device == (if Looks(j.d, o, j1.d)
                                        then PathIn(Upper(j.d.mac), Reply(j.s), j.d.provider.device)
                                        else j.d.provider.device)
            && j1.seen == (if Looks(j.d, o, j1.d) && j.s.up then j.s.tree else j.seen)
  {
    var d, r := Answered(j.d, j.s, takes), BusReply(Reply(j.s), takes);
    if o.TickTimer? || o.RetryTimer? {
      TimerPath(d, o, r);
    } else if !OnlyAside(o) && d.watch.Some? {
      NoticePath(d, WatchMove(d, o), r);
    }
  }

  // -------------------------------------------------------------------------
  // Whole runs
  // -------------------------------------------------------------------------

  /** The path is that of the first match in the tree the provider saw last. */
  predicate LastSeen(j: Joint) {
    && GoodTree(j.seen)
    && (j.d.provider.device != "" ==> j.d.provider.device == Lookup(j.s.mac, j.seen).path)
  }

  lemma RunsSeen(j: Joint, s: System, o: Occurrence, takes: bool)
    requires Joined(j) && LastSeen(j) && s.mac == j.s.mac && (o.ProviderUp? ==> o.reply == Reply(j.s))
    ensures LastSeen(Runs(j, s, o, takes))
  {
    FindDeviceIsLookup(j.s.mac, j.s.tree);
    if !o.ProviderDown? {
      RunsPath(j, s, o, takes);
    }
  }

  lemma TurnSeen(j: Joint, t: Turn)
    requires Joined(j) && LastSeen(j)
    ensures LastSeen(Turned(j, t))
  {
    match t {
      case Outside(m) =>
      case Delivery(takes) =>
        if j.s.queue != [] {
          RunsSeen(j, Receive(j.s, Ms(j.d.w.now)), Callbacks(j.s, j.s.queue[0]), takes);
        }
      case RescanDue(takes) =>
        if j.s.watch.timer.Some? {
          RunsSeen(j, Rescanned(j.s), RescanTimer(Reply(j.s)), takes);
        }
      case Callback(o, takes) =>
        if Elsewhere(j.s, o).Some? {
          RunsSeen(j, j.s, Elsewhere(j.s, o).value, takes);
        }
    }
  }

  lemma {:induction false} TurnsSeen(j: Joint, turns: seq<Turn>)
    requires Joined(j) && LastSeen(j)
    ensures LastSeen(Turns(j, turns))
    decreases turns
  {
    if turns != [] {
      TurnSeen(j, turns[0]);
      TurnJoined(j, turns[0]);
      TurnsSeen(Turned(j, turns[0]), turns[1..]);
    }
  }

  /** Between any two callbacks an announced device is the first match in the present tree if and only if that match is
      where it was in the tree the provider saw last. */
  lemma AnnouncedDeviceExact(mac: string, w: World, s: System, early: seq<Move>, turns: seq<Turn>)
    requires w.log == [] && Subscribed(s) && Undelivered(early) && s.mac == Upper(mac)
    ensures var j := Turns(Begin(mac, w, s, early), turns);
            j.d.provider.exported ==>
              && j.d.provider.device == Lookup(s.mac, j.seen).path
              && (j.d.provider.device == Lookup(s.mac, j.s.tree).path
                  <==> Lookup(s.mac, j.seen).path == Lookup(s.mac, j.s.tree).path)
  {
    var j := Begin(mac, w, s, early);
    BeginJoined(mac, w, s, early);
    StartUnregistered(mac, w, true, Reply(Play(s, early)));
    TurnsJoined(j, turns);
    TurnsSeen(j, turns);
  }

  // -------------------------------------------------------------------------
  // It does not look again
  // -------------------------------------------------------------------------

  predicate NoLoss(turns: seq<Turn>) {
    forall i :: 0 <= i < |turns| ==> !(turns[i].Callback? && turns[i].o.ProviderDown?)
  }

  lemma RunsBelieves(j: Joint, s: System, o: Occurrence, takes: bool)
    requires j.d.provider.registered && j.d.provider.device != ""
    requires !o.ProviderDown? && (o.ProviderUp? ==> o.reply == Reply(j.s))
    ensures var j1 := Runs(j, s, o, takes);
            && j1.d.provider.registered && j1.d.provider.device == j.d.provider.device && j1.seen == j.seen
  {
    RunsPath(j, s, o, takes);
  }

  lemma TurnBelieves(j: Joint, t: Turn)
    requires j.d.provider.registered && j.d.provider.device != "" && !(t.Callback? && t.o.ProviderDown?)
    ensures var j1 := Turned(j, t);
            && j1.d.provider.registered && j1.d.provider.device == j.d.provider.device && j1.seen == j.seen
  {
    match t {
      case Outside(m) =>
      case Delivery(takes) =>
        if j.s.queue != [] {
          RunsBelieves(j, Receive(j.s, Ms(j.d.w.now)), Callbacks(j.s, j.s.queue[0]), takes);
        }
      case RescanDue(takes) =>
        if j.s.watch.timer.Some? {
          RunsBelieves(j, Rescanned(j.s), RescanTimer(Reply(j.s)), takes);
        }
      case Callback(o, takes) =>
        if Elsewhere(j.s, o).Some? {
          RunsBelieves(j, j.s, Elsewhere(j.s, o).value, takes);
        }
    }
  }

  /** Once registered with a path, the provider keeps it through anything but the loss of bluetoothd: a device removed
      and paired again elsewhere goes on being announced where it was. */
  lemma {:induction false} PathIsBelieved(j: Joint, turns: seq<Turn>)
    requires j.d.provider.registered && j.d.provider.device != "" && NoLoss(turns)
    ensures var j1 := Turns(j, turns);
            && j1.d.provider.registered && j1.d.provider.device == j.d.provider.device && j1.seen == j.seen
    decreases turns
  {
    if turns != [] {
      TurnBelieves(j, turns[0]);
      PathIsBelieved(Turned(j, turns[0]), turns[1..]);
    }
  }

  // -------------------------------------------------------------------------
  // A run that announces a device BlueZ no longer has
  // -------------------------------------------------------------------------

  const ELSEWHERE := "/hci0/again"

  function PairedAt(mac: string, path: string): seq<BusObject> {
    [BusObject(path, true, Some(Device(mac, Some(true))))]
  }

  /** BlueZ registers us, a report of 50% is read, the pods are paired again under another path, and all is
      delivered. */
  function Repairing(mac: string): seq<Turn> {
    [Callback(ProviderUp(None), true), Callback(Registered(true), true), Callback(TickTimer, true)]
    + [Outside(Rebuild(PairedAt(mac, ELSEWHERE))), Delivery(true), RescanDue(true)]
  }

  lemma {:induction false} TurnsAppend(j: Joint, turns: seq<Turn>, more: seq<Turn>)
    ensures Turns(j, turns + more) == Turns(Turns(j, turns), more)
    decreases turns
  {
    if turns == [] {
      assert turns + more == more;
    } else {
      assert (turns + more)[1..] == turns[1..] + more;
      TurnsAppend(Turned(j, turns[0]), turns[1..], more);
    }
  }

  lemma ThreeTurns(j: Joint, a: Turn, b: Turn, c: Turn)
    ensures Turns(j, [a, b, c]) == Turned(Turned(Turned(j, a), b), c)
  {
    assert [a, b, c][1..] == [b, c] && [b, c][1..] == [c] && [c][1..] == [];
    assert Turns(Turned(j, a), [b, c]) == Turns(Turned(Turned(j, a), b), [c]);
    assert Turns(Turned(Turned(j, a), b), [c]) == Turns(Turned(Turned(Turned(j, a), b), c), []);
  }

  /** Everything the last tick needs. */
  predicate ReadyToHear(d: DaemonState) {
    Good(d) && Sees(d, true) && Greeting(d) && Offering(d.provider) && Scripted(d.w, 1, [Datagram(FIFTY)], 2)
  }

  lemma HeardFifty(d: DaemonState)
    requires ReadyToHear(d)
    ensures var e := Handle(d, TickTimer);
            && Good(e) && Sees(e, true) && Offering(e.provider) && e.pump.session.open
            && e.provider.exported && e.provider.percentage == 50
  {
    assert [Datagram(FIFTY)] + [] == [Datagram(FIFTY)];
    Hears(d, [], 2);
    ScriptedReport(d.pump.session, d.w, 1, [], 2);
    HandleKeeps(d, TickTimer);
    NumberAfter(d, TickTimer);
    FiftyMinimum();
    SnapshotPercentage(d.mac, Handle(d, TickTimer).pump);
  }

  lemma ProviderTurn(j: Joint, o: Occurrence)
    requires o.ProviderUp? || o.Registered?
    ensures var j1, d := Turned(j, Callback(o, true)), Answered(j.d, j.s, true);
            && j1.s == j.s && j1.d == d.(provider := j1.d.provider)
            && j1.d.provider == Handle(d, Elsewhere(j.s, o).value).provider
  {
  }

  lemma RegisterTurns(j: Joint)
    requires Joined(j) && j.d.provider == NEW_PROVIDER && j.s.up && j.s.tree == PairedAt(j.d.mac, PATH)
    ensures var j2 := Turned(Turned(j, Callback(ProviderUp(None), true)), Callback(Registered(true), true));
            && Joined(j2) && j2.s == j.s && Offering(j2.d.provider)
            && j2.d.mac == j.d.mac && j2.d.pump == j.d.pump && j2.d.watch == j.d.watch
            && j2.d.w == j.d.w.(replies := j2.d.w.replies)
  {
    var j1 := Turned(j, Callback(ProviderUp(None), true));
    TurnJoined(j, Callback(ProviderUp(None), true));
    TurnJoined(j1, Callback(Registered(true), true));
    ProviderTurn(j, ProviderUp(None));
    ProviderTurn(j1, Registered(true));
  }

  lemma BeginSees(mac: string, w: World, s: System)
    requires Scripted(w, 2, [Datagram(FIFTY)], 1) && s.up && s.tree == PairedAt(mac, PATH)
    ensures var j := Begin(mac, w, s, []);
            && j.s == FirstScan(s) && j.d.mac == mac && j.d.provider == NEW_PROVIDER
            && Sees(j.d, true) && Greeting(j.d) && Scripted(j.d.w, 1, [Datagram(FIFTY)], 0)
  {
    Begins(mac, w, [Datagram(FIFTY)], 1);
  }

  /** Before the tick: the tree is the one the daemon started with, and nothing is queued. */
  lemma RegisteredJoint(mac: string, w: World, s: System)
    requires Scripted(w, 2, [Datagram(FIFTY)], 1) && w.log == []
    requires Subscribed(s) && s.up && s.tree == PairedAt(mac, PATH) && s.mac == Upper(mac)
    ensures var j1 := Turned(Begin(mac, w, s, []), Callback(ProviderUp(None), true));
            var j := Turned(j1, Callback(Registered(true), true));
            && Joined(j) && j.s == FirstScan(s) && j.d.mac == mac
            && ReadyToHear(Answered(j.d, j.s, true))
  {
    var j0 := Begin(mac, w, s, []);
    BeginJoined(mac, w, s, []);
    BeginSees(mac, w, s);
    RegisterTurns(j0);
    ReadyOnceAnswered(Turned(Turned(j0, Callback(ProviderUp(None), true)), Callback(Registered(true), true)));
  }

  lemma ReadyOnceAnswered(j: Joint)
    requires Joined(j) && Sees(j.d, true) && Greeting(j.d) && Offering(j.d.provider)
    requires Scripted(j.d.w, 1, [Datagram(FIFTY)], 0)
    ensures ReadyToHear(Answered(j.d, j.s, true))
  {
    AnsweredGood(j.d, j.s, true);
  }

  lemma TreeMoves(j: Joint, tree: seq<BusObject>)
    requires Joined(j) && j.s.up && j.s.queue == [] && GoodTree(tree)
    ensures var j1 := Turned(j, Outside(Rebuild(tree)));
            Joined(j1) && j1.s == j.s.(tree := tree, queue := [TreeMoved]) && j1.d == j.d
  {
    TurnJoined(j, Outside(Rebuild(tree)));
  }

  lemma NewsArrives(j: Joint)
    requires Joined(j) && j.s.queue == [TreeMoved]
    ensures var j1 := Turned(j, Delivery(true));
            && Joined(j1) && j1.s == Receive(j.s, Ms(j.d.w.now)) && j1.s.watch.timer.Some?
            && j1.d.provider == j.d.provider && j1.d.pump == j.d.pump && j1.d.mac == j.d.mac
  {
    DeliveryJoined(j, true);
  }

  lemma ScanFinds(j: Joint)
    requires Joined(j) && j.s.watch.timer.Some? && j.d.pump.session.open
    requires j.s.up && j.s.tree == PairedAt(j.d.mac, ELSEWHERE)
    ensures var j1 := Turned(j, RescanDue(true));
            && j1.s == Rescanned(j.s) && j1.s.watch.timer.None?
            && j1.d.provider == j.d.provider && j1.d.pump.session == j.d.pump.session
  {
    var d := Answered(j.d, j.s, true);
    AnsweredGood(j.d, j.s, true);
    var o := RescanTimer(Reply(j.s));
    WatchMoves(d, o);
    RescanWhileOpen(d, WatchMove(d, o));
  }

  /** Paired again: the tree moves, the watch rescans, the provider is not asked. */
  lemma PairedAgain(j: Joint)
    requires Joined(j) && j.s.up && j.s.queue == [] && j.d.pump.session.open
    ensures var tree := PairedAt(j.d.mac, ELSEWHERE);
            var e := Turned(Turned(Turned(j, Outside(Rebuild(tree))), Delivery(true)), RescanDue(true));
            && e.s.queue == [] && e.s.watch.timer.None? && e.s.tree == tree
            && e.d.provider == j.d.provider && e.d.pump.session.open
  {
    var j1 := Turned(j, Outside(Rebuild(PairedAt(j.d.mac, ELSEWHERE))));
    TreeMoves(j, PairedAt(j.d.mac, ELSEWHERE));
    NewsArrives(j1);
    ScanFinds(Turned(j1, Delivery(true)));
  }

  /** A callback that finds the pods here while the channel is open publishes nothing. */
  lemma RescanWhileOpen(d: DaemonState, v: WatchState)
    requires d.pump.session.open && CallsFresh(v) && v.primed && v.connected
    ensures Notice(d, v).provider == d.provider && Notice(d, v).pump.session == d.pump.session
  {
  }

  /** At the end of that run everything has been delivered and the channel is open, BlueZ has the device under its new
      path only, and we announce 50% for the old one. */
  lemma RepairingRun(mac: string, w: World, s: System)
    requires Scripted(w, 2, [Datagram(FIFTY)], 1) && w.log == []
    requires Subscribed(s) && s.up && s.tree == PairedAt(mac, PATH) && s.mac == Upper(mac)
    ensures var j := Turns(Begin(mac, w, s, []), Repairing(mac));
            && j.s.queue == [] && j.s.watch.timer.None? && j.d.pump.session.open
            && j.s.tree == PairedAt(mac, ELSEWHERE)
            && j.d.provider.exported && j.d.provider.percentage == 50 && j.d.provider.device == PATH
  {
    var j0 := Begin(mac, w, s, []);
    RegisteredJoint(mac, w, s);
    var j2 := Turned(Turned(j0, Callback(ProviderUp(None), true)), Callback(Registered(true), true));
    HeardTurn(j2);
    PairedAgain(Turned(j2, Callback(TickTimer, true)));
    RepairingRuns(j0, mac);
  }

  lemma HeardTurn(j: Joint)
    requires Joined(j) && ReadyToHear(Answered(j.d, j.s, true))
    ensures var e := Turned(j, Callback(TickTimer, true));
            && Joined(e) && e.s == j.s && e.d.mac == j.d.mac && Offering(e.d.provider) && e.d.pump.session.open
            && e.d.provider.exported && e.d.provider.percentage == 50
  {
    HeardFifty(Answered(j.d, j.s, true));
    TurnJoined(j, Callback(TickTimer, true));
    HandleFrame(Answered(j.d, j.s, true), TickTimer);
  }

  lemma RepairingRuns(j: Joint, mac: string)
    ensures var turns := Repairing(mac);
            var j1 := Turned(Turned(Turned(j, turns[0]), turns[1]), turns[2]);
            Turns(j, turns) == Turned(Turned(Turned(j1, turns[3]), turns[4]), turns[5])
  {
    var turns := Repairing(mac);
    ThreeTurns(j, turns[0], turns[1], turns[2]);
    var j1 := Turned(Turned(Turned(j, turns[0]), turns[1]), turns[2]);
    ThreeTurns(j1, turns[3], turns[4], turns[5]);
    assert turns == [turns[0], turns[1], turns[2]] + [turns[3], turns[4], turns[5]];
    TurnsAppend(j, [turns[0], turns[1], turns[2]], [turns[3], turns[4], turns[5]]);
  }
}
