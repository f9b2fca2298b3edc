/** What an open channel does not promise: the number BlueZ holds may predate the connection. Exactly when it does. */
module Reconnection {
  import opened Basics
  import opened Protocol
  import opened Environment
  import opened SessionModel
  import opened SessionCache
  import opened SessionProtocol
  import opened SessionEffects
  import opened States
  import opened Watches
  import opened PumpModel
  import opened PumpProofs
  import opened ProviderModel
  import opened Daemon
  import Dbus

  // -------------------------------------------------------------------------
  // What has been accepted on a connection
  // -------------------------------------------------------------------------

  predicate AcceptedOn(events: seq<Event>) {
    exists i :: 0 <= i < |events| && Accepted(events[i])
  }

  lemma AcceptedIsHeard(events: seq<Event>)
    ensures AcceptedOn(events) ==> Heard(events, OP_BATTERY)
  {
  }

  /** While a connection goes on, nothing accepted on it is forgotten, and as long as nothing has been, the last report
      accepted is the one it was. */
  lemma {:induction false} ConversationCarries(before: seq<Event>, after: seq<Event>)
    requires Converses(before, after) && Connection(before) != []
    ensures Connection(after) != []
    ensures AcceptedOn(Connection(before)) ==> AcceptedOn(Connection(after))
    ensures !AcceptedOn(Connection(after)) ==> LastAccepted(after) == LastAccepted(before)
    decreases |after|
  {
    if |after| == |before| {
      assert after == before;
    } else {
      var front, e := after[..|after| - 1], after[|after| - 1];
      ConversationCarries(before, front);
      var conn := Connection(front);
      assert Connection(after) == conn + [e];
      assert AcceptedOn(conn) ==> AcceptedOn(conn + [e]) by {
        if AcceptedOn(conn) {
          var i :| 0 <= i < |conn| && Accepted(conn[i]);
          assert (conn + [e])[i] == conn[i];
        }
      }
      assert (conn + [e])[|conn|] == e;
    }
  }

  lemma DeliverLog(d: DaemonState, p: PumpState, w: World)
    requires ProviderInv(d.provider)
    ensures Deliver(d, p, w).w.log == w.log
  {
    FeedKeeps(Upper(d.mac), d.provider, Fresh(d.pump.published, p.published), w);
  }

  /** A callback that finds the channel open and leaves it open only lets the connection go on. */
  lemma HandleConverses(d: DaemonState, o: Occurrence)
    requires Good(d) && d.pump.session.open && Handle(d, o).pump.session.open
    ensures Converses(d.w.log, Handle(d, o).w.log)
  {
    if o.TickTimer? {
      var (p, w) := Tick(d.mac, d.pump, d.w);
      StepTalks(DEFAULTS, d.pump.session, d.w);
      DeliverLog(d, p, w);
    } else if d.watch.Some? && !OnlyAside(o) {
      CallbackWhileOpen(d, o);
    }
  }

  /** What leaves the pump alone. */
  predicate OnlyAside(o: Occurrence) {
    o.Elapse? || o.ProviderUp? || o.ProviderDown? || o.Registered? || o.BusAcquired?
  }

  lemma CallbackWhileOpen(d: DaemonState, o: Occurrence)
    requires Good(d) && d.pump.session.open && d.watch.Some? && Notice(d, WatchMove(d, o)).pump.session.open
    ensures var e := Notice(d, WatchMove(d, o)); e.w == d.w && e.provider == d.provider
  {
    WatchMoves(d, o);
  }

  /** A callback that leaves the channel open without an accepted packet on its connection has accepted nothing. */
  lemma NothingAccepted(d: DaemonState, o: Occurrence)
    requires Good(d) && Handle(d, o).pump.session.open && !AcceptedOn(Connection(Handle(d, o).w.log))
    ensures LastAccepted(Handle(d, o).w.log) == LastAccepted(d.w.log)
    ensures d.pump.session.open ==> !AcceptedOn(Connection(d.w.log))
  {
    if d.pump.session.open {
      HandleConverses(d, o);
      ConversationCarries(d.w.log, Handle(d, o).w.log);
    } else {
      ReopenShows(d, o);
    }
  }

  // -------------------------------------------------------------------------
  // One callback
  // -------------------------------------------------------------------------

  /** Whether a callback that leaves the channel open publishes: a reopen does, and a tick that has something to say. */
  predicate Publishes(d: DaemonState, o: Occurrence) {
    !d.pump.session.open || (o.TickTimer? && !StepOf(DEFAULTS, d.pump.session, d.w).out.Idle())
  }

  /** What BlueZ answers while that publish looks it up and offers it the number. */
  function ReplyUsed(d: DaemonState, o: Occurrence): BusReply {
    NextReply(if d.pump.session.open then StepOf(DEFAULTS, d.pump.session, d.w).w
              else OpenOf(DEFAULTS, d.pump.session, d.w).1)
  }

  /** The provider is registered, and BlueZ knows the device by now. */
  predicate Known(d: DaemonState, o: Occurrence) {
    d.provider.registered && Refreshed(Upper(d.mac), d.provider, ReplyUsed(d, o)).device != ""
  }

  /** Whether BlueZ holds a number after a callback that leaves the channel open: a publish puts up whatever report was
      accepted last, on whichever connection; without one, only the loss of bluetoothd changes anything. */
  lemma NumberAfter(d: DaemonState, o: Occurrence)
    requires Good(d) && Handle(d, o).pump.session.open
    ensures var e := Handle(d, o);
            e.provider.exported <==>
              if Publishes(d, o) then
                && Known(d, o) && (d.provider.exported || ReplyUsed(d, o).exported)
                && PodMinimum(LastAccepted(e.w.log)).Some?
              else d.provider.exported && !o.ProviderDown?
  {
    if !d.pump.session.open {
      ReopenShows(d, o);
    } else if o.TickTimer? {
      TickShows(d);
    } else {
      SilentWhileOpen(d, o);
    }
  }

  /** With the channel open only a tick publishes, if the channel is to stay open. */
  lemma SilentWhileOpen(d: DaemonState, o: Occurrence)
    requires Good(d) && d.pump.session.open && Handle(d, o).pump.session.open && !o.TickTimer?
    ensures Handle(d, o).provider.exported <==> d.provider.exported && !o.ProviderDown?
  {
    if d.watch.Some? && !OnlyAside(o) && !o.RetryTimer? {
      CallbackWhileOpen(d, o);
    }
  }

  /** A callback that takes the channel from closed to open has heard no battery packet on the new connection, and
      leaves a number with BlueZ if and only if the provider was registered, BlueZ knows the device and takes the
      object, and the last report accepted had a usable pod; the number is that report's. */
  lemma ReconnectShowsCachedReading(d: DaemonState, o: Occurrence)
    requires Good(d) && !d.pump.session.open && Handle(d, o).pump.session.open
    ensures var e := Handle(d, o);
            && !Heard(Connection(e.w.log), OP_BATTERY)
            && (e.provider.exported <==>
                  && Known(d, o) && ReplyUsed(d, o).exported
                  && PodMinimum(LastAccepted(d.w.log)).Some?)
            && (e.provider.exported ==> PodMinimum(LastAccepted(d.w.log)) == Some(e.provider.percentage))
  {
    ReopenShows(d, o);
    NumberAfter(d, o);
    HandleKeeps(d, o);
    SnapshotPercentage(d.mac, Handle(d, o).pump);
  }

  /** The same, for the attempt that both kinds of callback make. */
  lemma ReopenShows(d: DaemonState, o: Occurrence)
    requires Good(d) && !d.pump.session.open && Handle(d, o).pump.session.open
    ensures var e := Handle(d, o);
            && !Heard(Connection(e.w.log), OP_BATTERY) && !AcceptedOn(Connection(e.w.log))
            && LastAccepted(e.w.log) == LastAccepted(d.w.log)
            && (e.provider.exported <==>
                  Known(d, o) && ReplyUsed(d, o).exported && PodMinimum(LastAccepted(d.w.log)).Some?)
  {
    HandleKeeps(d, o);
    match o {
      case RetryTimer => AttachShows(d, o, d.pump.(retry := None), Here(d));
      case TickTimer =>
      case Elapse(_) =>
      case ProviderUp(_) =>
      case ProviderDown =>
      case Registered(_) =>
      case BusAcquired(_) =>
      case _ => CallbackShows(d, o);
    }
    AcceptedIsHeard(Connection(Handle(d, o).w.log));
  }

  lemma CallbackShows(d: DaemonState, o: Occurrence)
    requires Good(d) && !d.pump.session.open && d.watch.Some? && Notice(d, WatchMove(d, o)).pump.session.open
    ensures var e := Notice(d, WatchMove(d, o));
            && !Heard(Connection(e.w.log), OP_BATTERY) && e.pump.session.battery == LastAccepted(d.w.log)
            && (e.provider.exported <==>
                  Known(d, o) && ReplyUsed(d, o).exported && PodMinimum(LastAccepted(d.w.log)).Some?)
  {
    WatchMoves(d, o);
    AttachShows(d, o, d.pump.(attempts := 0, retry := None), Some(true));
  }

  lemma AttachShows(d: DaemonState, o: Occurrence, p0: PumpState, here: Option<bool>)
    requires Good(d) && !d.pump.session.open && p0 == d.pump.(retry := None, attempts := p0.attempts)
    requires Attach(d.mac, p0, d.w, here).0.session.open
    ensures var (p, w) := Attach(d.mac, p0, d.w, here);
            var (v, w1) := FeedProvider(Upper(d.mac), d.provider, Fresh(d.pump.published, p.published), w);
            && !Heard(Connection(w1.log), OP_BATTERY) && p.session.battery == LastAccepted(d.w.log)
            && (v.exported <==>
                  Known(d, o) && ReplyUsed(d, o).exported && PodMinimum(LastAccepted(d.w.log)).Some?)
  {
    var (p, w) := Attach(d.mac, p0, d.w, here);
    AttachOpens(d.mac, p0, d.w, here);
    NothingHeard(d.pump.session, d.w);
    assert Fresh(d.pump.published, p.published) == [Snapshot(d.mac, p)];
    FeedOne(Upper(d.mac), d.provider, Snapshot(d.mac, p), w);
    SnapshotPercentage(d.mac, p);
    NumberOffered(Upper(d.mac), d.provider, Snapshot(d.mac, p), NextReply(w));
  }

  lemma TickShows(d: DaemonState)
    requires Good(d) && d.pump.session.open && Handle(d, TickTimer).pump.session.open
    ensures var e := Handle(d, TickTimer);
            e.provider.exported <==>
              if Publishes(d, TickTimer) then
                && Known(d, TickTimer) && (d.provider.exported || ReplyUsed(d, TickTimer).exported)
                && PodMinimum(LastAccepted(e.w.log)).Some?
              else d.provider.exported
  {
    HandleKeeps(d, TickTimer);
    TickShape(d.mac, d.pump, d.w);
    var (p, w) := Tick(d.mac, d.pump, d.w);
    if Publishes(d, TickTimer) {
      assert Fresh(d.pump.published, p.published) == [Snapshot(d.mac, p)];
      FeedOne(Upper(d.mac), d.provider, Snapshot(d.mac, p), w);
      SnapshotPercentage(d.mac, p);
      NumberOffered(Upper(d.mac), d.provider, Snapshot(d.mac, p), NextReply(w));
    }
  }

  /** An attempt that opens the channel publishes once. */
  lemma AttachOpens(mac: string, p: PumpState, w: World, here: Option<bool>)
    requires !p.session.open && Attach(mac, p, w, here).0.session.open
    ensures var (p1, w1) := Attach(mac, p, w, here);
            && (p1.session, w1) == OpenOf(DEFAULTS, p.session, w)
            && p1.published == p.published + [Snapshot(mac, p1)]
  {
  }

  lemma FeedOne(mac: string, v: ProviderState, s: State, w: World)
    ensures FeedProvider(mac, v, [s], w) == (ProviderModel.Publish(mac, v, s, NextReply(w)), AfterReply(w))
  {
    assert [s][1..] == [];
  }

  /** A fresh connection has heard nothing, and the session remembers what it did before. */
  lemma NothingHeard(s: SessionState, w: World)
    requires Remembers(s, w) && Speaks(DEFAULTS, s, w) && OpenOf(DEFAULTS, s, w).0.open
    ensures var (s1, w1) := OpenOf(DEFAULTS, s, w);
            && !Heard(Connection(w1.log), OP_BATTERY)
            && s1.battery == LastAccepted(w.log)
  {
    OpenSpeaks(DEFAULTS, s, w);
    OpenKeepsCache(s, w);
  }

  lemma OpenKeepsCache(s: SessionState, w: World)
    requires OpenOf(DEFAULTS, s, w).0.open
    ensures OpenOf(DEFAULTS, s, w).0.battery == s.battery && !OpenOf(DEFAULTS, s, w).0.batterySeen
  {
  }

  /** Publishing leaves a number up exactly when there is one to offer and BlueZ has or takes the object. */
  lemma NumberOffered(mac: string, v: ProviderState, s: State, reply: BusReply)
    requires ProviderInv(v)
    ensures ProviderModel.Publish(mac, v, s, reply).exported <==>
            && v.registered && Refreshed(mac, v, reply).device != "" && (v.exported || reply.exported)
            && s.channelOpen && Percentage(s).Some?
  {
  }

  // -------------------------------------------------------------------------
  // A whole run
  // -------------------------------------------------------------------------

  /** A callback at which BlueZ would take a number, if the last report accepted has one. */
  predicate Takes(d: DaemonState, o: Occurrence) {
    Handle(d, o).pump.session.open && Publishes(d, o) && Known(d, o) && ReplyUsed(d, o).exported
  }

  /** The j-th callback is not the loss of bluetoothd and leaves the channel open. */
  predicate Stays(d: DaemonState, os: seq<Occurrence>, j: nat)
    requires j < |os|
  {
    !os[j].ProviderDown? && Daemon.Run(d, os[..j + 1]).pump.session.open
  }

  /** Since the i-th callback bluetoothd has not gone away and the channel has stayed open. */
  predicate Undisturbed(d: DaemonState, os: seq<Occurrence>, i: nat) {
    forall j :: i < j < |os| ==> Stays(d, os, j)
  }

  predicate TakenAt(d: DaemonState, os: seq<Occurrence>, i: nat) {
    i < |os| && Takes(Daemon.Run(d, os[..i]), os[i]) && Undisturbed(d, os, i)
  }

  /** Some callback put on offer what BlueZ takes, and nothing has withdrawn it since. */
  predicate TakenSince(d: DaemonState, os: seq<Occurrence>) {
    exists i: nat :: i < |os| && TakenAt(d, os, i)
  }

  lemma {:induction false} RunLast(d: DaemonState, os: seq<Occurrence>, o: Occurrence)
    ensures Daemon.Run(d, os + [o]) == Handle(Daemon.Run(d, os), o)
    decreases os
  {
    if os == [] {
      assert os + [o] == [o] && [o][1..] == [];
      assert Daemon.Run(Handle(d, o), []) == Handle(d, o);
    } else {
      assert (os + [o])[1..] == os[1..] + [o];
      RunLast(Handle(d, os[0]), os[1..], o);
    }
  }

  lemma StaysLast(d: DaemonState, os: seq<Occurrence>, o: Occurrence)
    ensures forall j :: 0 <= j < |os| ==> Stays(d, os + [o], j) == Stays(d, os, j)
    ensures Stays(d, os + [o], |os|) <==> !o.ProviderDown? && Handle(Daemon.Run(d, os), o).pump.session.open
  {
    forall j | 0 <= j < |os|
      ensures Stays(d, os + [o], j) == Stays(d, os, j)
    {
      assert (os + [o])[..j + 1] == os[..j + 1];
    }
    assert (os + [o])[..|os| + 1] == os + [o];
    RunLast(d, os, o);
  }

  lemma UndisturbedLast(d: DaemonState, os: seq<Occurrence>, o: Occurrence, i: nat)
    requires i < |os|
    ensures Undisturbed(d, os + [o], i) <==>
            Undisturbed(d, os, i) && !o.ProviderDown? && Handle(Daemon.Run(d, os), o).pump.session.open
  {
    StaysLast(d, os, o);
    var more := os + [o];
    if Undisturbed(d, more, i) {
      forall j | i < j < |os|
        ensures Stays(d, os, j)
      {
        assert Stays(d, more, j);
      }
      assert Stays(d, more, |os|);
    }
  }

  /** Taken at the last callback, or before it and not withdrawn by it. */
  lemma TakenAtLast(d: DaemonState, os: seq<Occurrence>, o: Occurrence, i: nat)
    requires i <= |os|
    ensures TakenAt(d, os + [o], i) <==>
            if i == |os| then Takes(Daemon.Run(d, os), o)
            else TakenAt(d, os, i) && !o.ProviderDown? && Handle(Daemon.Run(d, os), o).pump.session.open
  {
    assert (os + [o])[..i] == os[..i];
    if i < |os| {
      UndisturbedLast(d, os, o, i);
    } else {
      assert os[..i] == os;
    }
  }

  lemma TakenSinceLast(d: DaemonState, os: seq<Occurrence>, o: Occurrence)
    ensures TakenSince(d, os + [o]) <==>
            || Takes(Daemon.Run(d, os), o)
            || (TakenSince(d, os) && !o.ProviderDown? && Handle(Daemon.Run(d, os), o).pump.session.open)
  {
    forall i: nat | i <= |os|
      ensures TakenAt(d, os + [o], i) <==>
              if i == |os| then Takes(Daemon.Run(d, os), o)
              else TakenAt(d, os, i) && !o.ProviderDown? && Handle(Daemon.Run(d, os), o).pump.session.open
    {
      TakenAtLast(d, os, o, i);
    }
    if Takes(Daemon.Run(d, os), o) {
      assert TakenAt(d, os + [o], |os|);
    }
  }

  /** A number BlueZ holds although no packet was accepted on the present connection. */
  predicate HoldsOldNumber(d: DaemonState) {
    d.provider.exported && !AcceptedOn(Connection(d.w.log))
  }

  /** What makes BlueZ hold one. */
  predicate OldNumberDue(d: DaemonState, os: seq<Occurrence>, e: DaemonState) {
    && e.pump.session.open && !AcceptedOn(Connection(e.w.log))
    && PodMinimum(LastAccepted(e.w.log)).Some? && TakenSince(d, os)
  }

  lemma OldNumberStep(d: DaemonState, os: seq<Occurrence>, o: Occurrence)
    requires var e := Daemon.Run(d, os);
             && Good(e) && (HoldsOldNumber(e) <==> OldNumberDue(d, os, e))
             && (TakenSince(d, os) ==> e.pump.session.open)
    ensures var e := Handle(Daemon.Run(d, os), o);
            && (HoldsOldNumber(e) <==> OldNumberDue(d, os + [o], e))
            && (TakenSince(d, os + [o]) ==> e.pump.session.open)
  {
    var e0 := Daemon.Run(d, os);
    var e := Handle(e0, o);
    HandleKeeps(e0, o);
    TakenSinceLast(d, os, o);
    if e.pump.session.open && !AcceptedOn(Connection(e.w.log)) {
      NumberAfter(e0, o);
      NothingAccepted(e0, o);
    }
  }

  lemma {:induction false} OldNumberRun(d: DaemonState, os: seq<Occurrence>)
    requires Good(d) && !d.provider.exported
    ensures var e := Daemon.Run(d, os);
            (HoldsOldNumber(e) <==> OldNumberDue(d, os, e)) && (TakenSince(d, os) ==> e.pump.session.open)
    decreases |os|
  {
    if os != [] {
      var front, o := os[..|os| - 1], os[|os| - 1];
      assert front + [o] == os;
      OldNumberRun(d, front);
      RunKeeps(d, front);
      RunLast(d, front, o);
      OldNumberStep(d, front, o);
    }
  }

  /** Nothing start-up publishes reaches a provider that BlueZ has not registered. */
  lemma StartUnregistered(mac: string, w: World, watched: bool, reply: Option<seq<BusObject>>)
    ensures Start(mac, w, watched, reply).provider == NEW_PROVIDER
  {
    var d := DaemonState(mac, IDLE, None, NEW_PROVIDER, Dbus.NEW_SERVICE, w);
    if watched {
      var v := Rescan(Upper(mac), UNPRIMED, reply);
      var (p, w1) := OnBluez(mac, IDLE, w, v.connected, v.path);
      UnregisteredDelivery(d.(watch := Some(v)), p, w1);
    } else {
      var (p, w1) := StartBlind(mac, IDLE, w);
      UnregisteredDelivery(d, p, w1);
    }
  }

  lemma UnregisteredDelivery(d: DaemonState, p: PumpState, w: World)
    requires !d.provider.registered
    ensures Deliver(d, p, w).provider == d.provider
  {
    UnregisteredFeed(Upper(d.mac), d.provider, Fresh(d.pump.published, p.published), w);
  }

  lemma {:induction false} UnregisteredFeed(mac: string, v: ProviderState, states: seq<State>, w: World)
    requires !v.registered
    ensures FeedProvider(mac, v, states, w).0 == v
    decreases states
  {
    if states != [] {
      UnregisteredFeed(mac, v, states[1..], AfterReply(w));
    }
  }

  /** Between any two callbacks of any run, BlueZ holds a number although no packet has been accepted on the present
      connection if and only if the channel is open, none has, the last report accepted before had a usable pod, and
      some callback published while the provider was registered, the device known and the object taken, since when
      neither bluetoothd nor the channel has gone away. The number is then that older report's. */
  lemma OldNumberExactly(mac: string, w: World, watched: bool, reply: Option<seq<BusObject>>, os: seq<Occurrence>)
    requires w.log == []
    ensures var d := Start(mac, w, watched, reply);
            var e := Daemon.Run(d, os);
            && (HoldsOldNumber(e) <==> OldNumberDue(d, os, e))
            && (HoldsOldNumber(e) ==> PodMinimum(LastAccepted(e.w.log)) == Some(e.provider.percentage))
  {
    StartGood(mac, w, watched, reply);
    StartUnregistered(mac, w, watched, reply);
    OldNumberRun(Start(mac, w, watched, reply), os);
    BlueZHoldsLastAccepted(mac, w, watched, reply, os);
  }
}
