/** The status line: when it says that the channel is open, and what it says while the pods are elsewhere. */
module StatusLines {
  import opened Basics
  import opened Environment
  import opened SessionModel
  import opened SessionProtocol
  import opened SessionSocket
  import opened Watches
  import opened PumpModel
  import opened PumpProofs
  import opened Daemon
  import opened Reconnection

  predicate SaysOpen(p: PumpState) {
    p.session.open <==> p.status == "channel open"
  }

  lemma OtherStatuses()
    ensures "starting" != "channel open" && NO_WATCH != "channel open" && "channel closed by the peer" != "channel open"
    ensures "pods left this machine" != "channel open" && "pods not known to BlueZ" != "channel open"
    ensures "waiting for the pods to connect to this machine" != "channel open"
  {
    assert |"channel open"| == 12 && |"starting"| == 8 && |NO_WATCH| == 45 && |"channel closed by the peer"| == 26;
    assert |"pods left this machine"| == 22 && |"pods not known to BlueZ"| == 23;
    assert |"waiting for the pods to connect to this machine"| == 47;
  }

  lemma FailureIsNotOpen(stage: Stage, diagnosis: string, rest: string)
    ensures StageName(stage) + ": " + diagnosis != "channel open"
    ensures StageName(stage) + ": " + diagnosis + rest != "channel open"
  {
    var text := StageName(stage) + ": " + diagnosis;
    assert text[1] == StageName(stage)[1] != "channel open"[1];
    assert (text + rest)[1] == text[1];
  }

  /** What a refused attempt has published last. */
  lemma RefusedStatus(mac: string, p: PumpState, w: World, here: Option<bool>)
    requires !p.session.open && !OpenResult(DEFAULTS, p.session, w).ok
    ensures var p1 := Attach(mac, p, w, here).0;
            var r := OpenResult(DEFAULTS, p.session, w);
            p1.status == (match r.reached
                          case ParseAddress => "parse-address"
                          case AdapterCheck => "adapter-check"
                          case CreateSocket => "create-socket"
                          case SetSecurity => "set-security"
                          case Connect => "connect"
                          case Connected => "connected")
                         + ": " + r.diagnosis
                         + if here == Some(true) && p.attempts >= 2
                           then " (gave up after " + Decimal(p.attempts + 1) + " attempts)" else ""
  {
    var r := OpenResult(DEFAULTS, p.session, w);
    assert StageName(r.reached) + ": " + r.diagnosis + "" == StageName(r.reached) + ": " + r.diagnosis;
  }

  lemma AttachSaysOpen(mac: string, p: PumpState, w: World, here: Option<bool>)
    requires PhaseTells(p.session) && (p.session.open ==> p.status == "channel open")
    ensures SaysOpen(Attach(mac, p, w, here).0)
  {
    if !p.session.open {
      OpenPhase(DEFAULTS, p.session, w);
      var r := OpenResult(DEFAULTS, p.session, w);
      if !r.ok {
        RefusedStatus(mac, p, w, here);
        FailureIsNotOpen(r.reached, r.diagnosis, "");
        FailureIsNotOpen(r.reached, r.diagnosis, " (gave up after " + Decimal(p.attempts + 1) + " attempts)");
      }
    }
  }

  lemma OnBluezSaysOpen(mac: string, p: PumpState, w: World, connected: bool, path: string)
    requires PhaseTells(p.session) && SaysOpen(p)
    ensures SaysOpen(OnBluez(mac, p, w, connected, path).0)
  {
    if connected {
      AttachSaysOpen(mac, p.(attempts := 0, retry := None), w, Some(true));
    } else {
      AwayReports(mac, p, w, path);
      OtherStatuses();
    }
  }

  lemma TickSaysOpen(mac: string, p: PumpState, w: World)
    requires PumpBase(p, w) && p.timer && SaysOpen(p)
    ensures SaysOpen(Tick(mac, p, w).0)
  {
    TickStep(p, w);
    TickShape(mac, p, w);
    OtherStatuses();
  }

  // -------------------------------------------------------------------------
  // Whole runs
  // -------------------------------------------------------------------------

  /** What the line says while the watch reports the pods elsewhere. */
  predicate SaysAway(d: DaemonState) {
    d.watch.Some? && !d.watch.value.connected ==>
      || d.pump.status == "pods left this machine"
      || d.pump.status == (if d.watch.value.path == "" then "pods not known to BlueZ"
                           else "waiting for the pods to connect to this machine")
  }

  lemma NoticeSays(d: DaemonState, o: Occurrence)
    requires Good(d) && SaysOpen(d.pump) && SaysAway(d) && d.watch.Some?
    ensures var e := Notice(d, WatchMove(d, o)); SaysOpen(e.pump) && SaysAway(e)
  {
    WatchMoves(d, o);
    var v := WatchMove(d, o);
    OnBluezSaysOpen(d.mac, d.pump, d.w, v.connected, v.path);
    if v.calls == d.watch.value.calls {
      SamePlace(d, v);
    } else if !v.connected {
      AwayReports(d.mac, d.pump, d.w, v.path);
    }
  }

  /** Without a new callback the cached place is the one last reported. */
  lemma SamePlace(d: DaemonState, v: WatchState)
    requires d.watch.Some? && CallsFresh(d.watch.value) && d.watch.value.primed && CallsFresh(v) && v.primed
    requires v.calls == d.watch.value.calls
    ensures v.connected == d.watch.value.connected && v.path == d.watch.value.path
  {
  }

  lemma TimerSays(d: DaemonState, o: Occurrence)
    requires Good(d) && SaysOpen(d.pump) && SaysAway(d) && (o.TickTimer? || o.RetryTimer?)
    ensures var e := Handle(d, o); SaysOpen(e.pump) && SaysAway(e)
  {
    if o.TickTimer? && d.pump.timer {
      TickSaysOpen(d.mac, d.pump, d.w);
    } else if o.RetryTimer? && d.pump.retry.Some? {
      AttachSaysOpen(d.mac, d.pump.(retry := None), d.w, Here(d));
    }
  }

  lemma HandleSays(d: DaemonState, o: Occurrence)
    requires Good(d) && Attended(d) && SaysOpen(d.pump) && SaysAway(d)
    ensures var e := Handle(d, o); SaysOpen(e.pump) && SaysAway(e)
  {
    if o.TickTimer? || o.RetryTimer? {
      TimerSays(d, o);
    } else if !OnlyAside(o) && d.watch.Some? {
      NoticeSays(d, o);
    }
  }

  lemma {:induction false} RunSays(d: DaemonState, os: seq<Occurrence>)
    requires Good(d) && Attended(d) && SaysOpen(d.pump) && SaysAway(d)
    ensures var e := Daemon.Run(d, os); SaysOpen(e.pump) && SaysAway(e)
    decreases os
  {
    if os != [] {
      HandleSays(d, os[0]);
      HandleKeeps(d, os[0]);
      HandleAttended(d, os[0]);
      RunSays(Handle(d, os[0]), os[1..]);
    }
  }

  lemma StartSays(mac: string, w: World, watched: bool, reply: Option<seq<BusObject>>)
    ensures var d := Start(mac, w, watched, reply); SaysOpen(d.pump) && SaysAway(d)
  {
    OtherStatuses();
    if watched {
      var v := Rescan(Upper(mac), UNPRIMED, reply);
      assert v.calls == [Call(v.connected, v.path)];
      OnBluezSaysOpen(mac, IDLE, w, v.connected, v.path);
      AwayReports(mac, IDLE, w, v.path);
    } else {
      AttachSaysOpen(mac, IDLE.(status := NO_WATCH), w, None);
    }
  }

  /** Between any two callbacks the status line says "channel open" exactly while the channel is open; and while the
      watch reports the pods elsewhere it says that they left, or whether BlueZ knows them. */
  lemma StatusTells(mac: string, w: World, watched: bool, reply: Option<seq<BusObject>>, os: seq<Occurrence>)
    requires w.log == []
    ensures var d := Daemon.Run(Start(mac, w, watched, reply), os);
            && (d.pump.status == "channel open" <==> d.pump.session.open)
            && (d.watch.Some? && !d.watch.value.connected ==>
                  || d.pump.status == "pods left this machine"
                  || d.pump.status == (if d.watch.value.path == "" then "pods not known to BlueZ"
                                       else "waiting for the pods to connect to this machine"))
  {
    StartGood(mac, w, watched, reply);
    StartAttended(mac, w, watched, reply);
    StartSays(mac, w, watched, reply);
    RunSays(Start(mac, w, watched, reply), os);
  }
}
