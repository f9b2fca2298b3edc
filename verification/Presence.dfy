/** The daemon against a live bluetoothd: the system of WatchAgreement with the rest of the daemon behind its watch, and
    a provider that looks its device up in the same tree. */
module Presence {
  import opened Basics
  import opened Environment
  import opened Watches
  import opened WatchAgreement
  import opened PumpModel
  import opened ProviderModel
  import opened Daemon
  import Dbus

  /** `seen` is the tree as it was when the provider last looked. */
  datatype Joint = Joint(d: DaemonState, s: System, seen: seq<BusObject>)

  /** `takes` says whether BlueZ would take the provider's object during the callback. */
  datatype Turn =
    | Outside(m: Move)
    | Delivery(takes: bool)
    | RescanDue(takes: bool)
    | Callback(o: Occurrence, takes: bool)

  /** The daemon about to run a callback, every query of which the present tree will answer. */
  function Answered(d: DaemonState, s: System, takes: bool): DaemonState {
    d.(w := d.w.(replies := [BusReply(Reply(s), takes), BusReply(Reply(s), takes)]))
  }

  /** The callback a queued message makes. */
  function Callbacks(s: System, m: Message): Occurrence {
    match m
    case Told(path, connected) => LinkSignal(path, Some(connected))
    case TreeMoved => TreeSignal
    case NameUp => WatchUp(Reply(s))
    case NameDown => WatchDown
  }

  predicate Looks(d: DaemonState, o: Occurrence, e: DaemonState) {
    if o.ProviderUp? then !d.provider.registered
    else d.provider.registered && d.provider.device == "" && e.pump.published != d.pump.published
  }

  /** The daemon runs a callback while bluetoothd and the watch go from `j.s` to `s`. */
  function Runs(j: Joint, s: System, o: Occurrence, takes: bool): Joint {
    var e := Handle(Answered(j.d, j.s, takes), o);
    Joint(e, s, if Looks(j.d, o, e) && j.s.up then j.s.tree else j.seen)
  }

  /** Callbacks that are not the watch's. The provider's scan, too, reads the present tree. */
  function Elsewhere(s: System, o: Occurrence): Option<Occurrence> {
    match o
    case ProviderUp(_) => Some(ProviderUp(Reply(s)))
    case Elapse(_) => Some(o)
    case TickTimer => Some(o)
    case RetryTimer => Some(o)
    case ProviderDown => Some(o)
    case Registered(_) => Some(o)
    case BusAcquired(_) => Some(o)
    case _ => None
  }

  function Turned(j: Joint, t: Turn): Joint {
    match t
    case Outside(m) => if m.Deliver? || m.TimerFires? then j else j.(s := Next(j.s, m))
    case Delivery(takes) =>
      if j.s.queue == [] then j else Runs(j, Receive(j.s, Ms(j.d.w.now)), Callbacks(j.s, j.s.queue[0]), takes)
    case RescanDue(takes) =>
      if j.s.watch.timer.None? then j else Runs(j, Rescanned(j.s), RescanTimer(Reply(j.s)), takes)
    case Callback(o, takes) =>
      match Elsewhere(j.s, o) case None => j case Some(o1) => Runs(j, j.s, o1, takes)
  }

  function Turns(j: Joint, turns: seq<Turn>): Joint
    decreases turns
  {
    if turns == [] then j else Turns(Turned(j, turns[0]), turns[1..])
  }

  /** The daemon starts on a bus it has just subscribed to; `early` is what happened before its first scan. */
  function Begin(mac: string, w: World, s: System, early: seq<Move>): Joint {
    var begun := Play(s, early);
    Joint(Start(mac, w, true, Reply(begun)), FirstScan(begun), [])
  }

  // -------------------------------------------------------------------------
  // The watch in the middle
  // -------------------------------------------------------------------------

  /** The system's watch is the daemon's. */
  predicate Joined(j: Joint) {
    && Good(j.d) && Attended(j.d) && Sound(j.s)
    && j.d.watch == Some(j.s.watch) && j.s.mac == Upper(j.d.mac)
  }

  lemma AnsweredGood(d: DaemonState, s: System, takes: bool)
    requires Good(d) && Attended(d)
    ensures Good(Answered(d, s, takes)) && Attended(Answered(d, s, takes))
  {
  }

  lemma RunsGood(j: Joint, s: System, o: Occurrence, takes: bool)
    requires Good(j.d) && Attended(j.d)
    ensures var e := Runs(j, s, o, takes).d; Good(e) && Attended(e) && e.mac == j.d.mac
  {
    AnsweredGood(j.d, j.s, takes);
    HandleKeeps(Answered(j.d, j.s, takes), o);
    HandleAttended(Answered(j.d, j.s, takes), o);
  }

  lemma NoticeWatch(d: DaemonState, v: WatchState)
    ensures Notice(d, v).watch == Some(v)
  {
  }

  /** The daemon's watch takes a delivery as the system's does. */
  lemma DeliveryWatch(d: DaemonState, s: System)
    requires d.watch == Some(s.watch) && s.mac == Upper(d.mac) && s.queue != []
    ensures Handle(d, Callbacks(s, s.queue[0])).watch == Some(Receive(s, Ms(d.w.now)).watch)
  {
    NoticeWatch(d, WatchMove(d, Callbacks(s, s.queue[0])));
  }

  lemma RescanWatch(d: DaemonState, s: System)
    requires d.watch == Some(s.watch) && s.mac == Upper(d.mac) && s.watch.timer.Some?
    ensures Handle(d, RescanTimer(Reply(s))).watch == Some(Rescanned(s).watch)
  {
    NoticeWatch(d, WatchMove(d, RescanTimer(Reply(s))));
  }

  lemma ElsewhereWatch(d: DaemonState, s: System, o: Occurrence)
    requires Elsewhere(s, o).Some?
    ensures Handle(d, Elsewhere(s, o).value).watch == d.watch
  {
  }

  lemma RunsJoined(j: Joint, s: System, o: Occurrence, takes: bool)
    requires Joined(j) && Sound(s) && s.mac == j.s.mac && Handle(Answered(j.d, j.s, takes), o).watch == Some(s.watch)
    ensures Joined(Runs(j, s, o, takes))
  {
    RunsGood(j, s, o, takes);
  }

  lemma DeliveryJoined(j: Joint, takes: bool)
    requires Joined(j) && j.s.queue != []
    ensures Joined(Turned(j, Delivery(takes)))
  {
    DeliverSound(j.s, Ms(j.d.w.now));
    DeliveryWatch(Answered(j.d, j.s, takes), j.s);
    RunsJoined(j, Receive(j.s, Ms(j.d.w.now)), Callbacks(j.s, j.s.queue[0]), takes);
  }

  lemma RescanJoined(j: Joint, takes: bool)
    requires Joined(j) && j.s.watch.timer.Some?
    ensures Joined(Turned(j, RescanDue(takes)))
  {
    TimerSound(j.s);
    RescanWatch(Answered(j.d, j.s, takes), j.s);
    RunsJoined(j, Rescanned(j.s), RescanTimer(Reply(j.s)), takes);
  }

  lemma OutsideJoined(j: Joint, m: Move)
    requires Joined(j)
    ensures Joined(Turned(j, Outside(m)))
  {
    if m.Link? {
      LinkSound(j.s, m.i, m.connected);
    } else if !m.Deliver? && !m.TimerFires? {
      UpheavalQueued(j.s, m);
    }
  }

  lemma TurnJoined(j: Joint, t: Turn)
    requires Joined(j)
    ensures Joined(Turned(j, t))
  {
    match t {
      case Outside(m) => OutsideJoined(j, m);
      case Delivery(takes) =>
        if j.s.queue != [] {
          DeliveryJoined(j, takes);
        }
      case RescanDue(takes) =>
        if j.s.watch.timer.Some? {
          RescanJoined(j, takes);
        }
      case Callback(o, takes) =>
        if Elsewhere(j.s, o).Some? {
          ElsewhereWatch(Answered(j.d, j.s, takes), j.s, o);
          RunsJoined(j, j.s, Elsewhere(j.s, o).value, takes);
        }
    }
  }

  lemma TurnMac(j: Joint, t: Turn)
    ensures Turned(j, t).s.mac == j.s.mac
  {
  }

  lemma BeginJoined(mac: string, w: World, s: System, early: seq<Move>)
    requires w.log == [] && Subscribed(s) && Undelivered(early) && s.mac == Upper(mac)
    ensures Joined(Begin(mac, w, s, early))
  {
    PlayQueued(s, early);
    var begun := Play(s, early);
    ScanSettles(begun, UNPRIMED);
    StartGood(mac, w, true, Reply(begun));
    StartAttended(mac, w, true, Reply(begun));
    var d := DaemonState(mac, IDLE, None, NEW_PROVIDER, Dbus.NEW_SERVICE, w);
    NoticeWatch(d, Rescan(Upper(mac), UNPRIMED, Reply(begun)));
  }

  lemma {:induction false} TurnsJoined(j: Joint, turns: seq<Turn>)
    requires Joined(j)
    ensures Joined(Turns(j, turns)) && Turns(j, turns).s.mac == j.s.mac
    decreases turns
  {
    if turns != [] {
      TurnJoined(j, turns[0]);
      TurnMac(j, turns[0]);
      TurnsJoined(Turned(j, turns[0]), turns[1..]);
    }
  }

  /** Whatever bluetoothd, the peer and the timers do: with nothing queued and no rescan pending, an open channel means
      that the first object in the present tree with our address has Connected, and it is true. */
  lemma OpenMeansConnected(mac: string, w: World, s: System, early: seq<Move>, turns: seq<Turn>)
    requires w.log == [] && Subscribed(s) && Undelivered(early) && s.mac == Upper(mac)
    ensures var j := Turns(Begin(mac, w, s, early), turns);
            j.s.queue == [] && j.s.watch.timer.None? && j.d.pump.session.open ==>
              exists k :: FirstCarrier(mac, j.s.tree, k) && j.s.tree[k].device.value.connected == Some(true)
  {
    BeginJoined(mac, w, s, early);
    TurnsJoined(Begin(mac, w, s, early), turns);
    FirstMatchIsFirst(s.mac, Turns(Begin(mac, w, s, early), turns).s.tree);
    LookupReads(mac, Turns(Begin(mac, w, s, early), turns).s.tree);
  }
}
