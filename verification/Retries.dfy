/** The retries themselves: each refused attempt schedules the next, and an arrival is worth exactly three. */
module Retries {
  import opened Basics
  import opened Environment
  import opened SessionModel
  import opened SessionProtocol
  import opened SessionSocket
  import opened SessionEffects
  import opened PumpModel
  import opened ProviderModel
  import opened Daemon
  import opened Reconnection

  // -------------------------------------------------------------------------
  // One attempt
  // -------------------------------------------------------------------------

  /** An attempt from a closed channel that fails: with the pods here the first is retried in one second, the second in
      two, and after the third the pump says that it gave up and tries no more; without them none is. */
  lemma RefusedAttach(mac: string, p: PumpState, w: World, here: Option<bool>)
    requires !p.session.open && PhaseTells(p.session) && p.retry.None? && !OpenOf(DEFAULTS, p.session, w).0.open
    ensures var (p1, w1) := Attach(mac, p, w, here);
            && !p1.session.open && p1.attempts == p.attempts + 1 && p1.timer == p.timer
            && Tries(w1.log) == Tries(w.log) + 1
            && p1.retry == (if here != Some(true) then None
                            else if p1.attempts == 1 then Some(1000)
                            else if p1.attempts == 2 then Some(2000)
                            else None)
            && |p1.published| == |p.published| + (if here == Some(true) && p1.attempts >= 3 then 2 else 1)
            && p1.published[|p1.published| - 1] == Snapshot(mac, p1)
  {
    OpenPhase(DEFAULTS, p.session, w);
    OpenTries(DEFAULTS, p.session, w);
    assert RETRY_MS[0] == 1000 && RETRY_MS[1] == 2000;
  }

  /** An attempt that succeeds: one snapshot, the tick timer on, no retry. */
  lemma OpenedAttach(mac: string, p: PumpState, w: World, here: Option<bool>)
    requires !p.session.open && PhaseTells(p.session) && p.retry.None? && OpenOf(DEFAULTS, p.session, w).0.open
    ensures var (p1, w1) := Attach(mac, p, w, here);
            && p1.session.open && p1.attempts == p.attempts + 1 && p1.timer && p1.retry.None?
            && Tries(w1.log) == Tries(w.log) + 1
            && p1.status == "channel open"
            && p1.published == p.published + [Snapshot(mac, p1)]
  {
    OpenPhase(DEFAULTS, p.session, w);
    OpenTries(DEFAULTS, p.session, w);
  }

  // -------------------------------------------------------------------------
  // A whole arrival
  // -------------------------------------------------------------------------

  function Fires(os: seq<Occurrence>): nat {
    if os == [] then 0 else Fires(os[..|os| - 1]) + if os[|os| - 1].RetryTimer? then 1 else 0
  }

  function AtMostTwo(n: nat): nat {
    if n < 2 then n else 2
  }

  /** Along the run every attempt fails, and the watch has nothing new to say. */
  predicate Unanswered(d: DaemonState, os: seq<Occurrence>) {
    forall i :: 0 <= i < |os| ==> StaysShut(d, os, i)
  }

  predicate StaysShut(d: DaemonState, os: seq<Occurrence>, i: nat)
    requires i < |os|
  {
    var e := Daemon.Run(d, os[..i + 1]);
    !e.pump.session.open && e.watch.Some? && d.watch.Some? && e.watch.value.calls == d.watch.value.calls
  }

  /** How far the attempts of an arrival have come. */
  predicate Spent(d: DaemonState, fired: nat) {
    && Good(d) && !d.pump.session.open && Here(d) == Some(true)
    && d.pump.attempts == 1 + fired && fired <= 2
    && d.pump.retry == (if fired == 0 then Some(1000) else if fired == 1 then Some(2000) else None)
  }

  lemma DeliverPump(d: DaemonState, p: PumpState, w: World)
    requires ProviderInv(d.provider)
    ensures Deliver(d, p, w).pump == p && Deliver(d, p, w).w.log == w.log
  {
    DeliverLog(d, p, w);
  }

  lemma RetrySpends(d: DaemonState, fired: nat)
    requires Spent(d, fired) && !Handle(d, RetryTimer).pump.session.open
    ensures Spent(Handle(d, RetryTimer), AtMostTwo(fired + 1))
    ensures Tries(Handle(d, RetryTimer).w.log) == Tries(d.w.log) + if fired < 2 then 1 else 0
  {
    HandleKeeps(d, RetryTimer);
    if fired < 2 {
      var p0 := d.pump.(retry := None);
      var (p, w) := Attach(d.mac, p0, d.w, Some(true));
      DeliverPump(d, p, w);
      if OpenOf(DEFAULTS, p0.session, d.w).0.open {
        OpenedAttach(d.mac, p0, d.w, Some(true));
        assert false;
      } else {
        RefusedAttach(d.mac, p0, d.w, Some(true));
      }
    }
  }

  /** Nothing but the retry timer spends. */
  lemma OthersKeep(d: DaemonState, o: Occurrence, fired: nat)
    requires Spent(d, fired) && !o.RetryTimer?
    requires Handle(d, o).watch.Some? && Handle(d, o).watch.value.calls == d.watch.value.calls
    ensures Spent(Handle(d, o), fired) && Handle(d, o).w.log == d.w.log
  {
    HandleKeeps(d, o);
    if !OnlyAside(o) && !o.TickTimer? {
      WatchMoves(d, o);
    }
  }

  lemma {:induction false} SpentRun(d: DaemonState, os: seq<Occurrence>)
    requires Spent(d, 0) && Unanswered(d, os)
    ensures var e := Daemon.Run(d, os);
            && Spent(e, AtMostTwo(Fires(os)))
            && e.watch.value.calls == d.watch.value.calls
            && Tries(e.w.log) == Tries(d.w.log) + AtMostTwo(Fires(os))
    decreases |os|
  {
    if os != [] {
      var front, o := os[..|os| - 1], os[|os| - 1];
      assert front + [o] == os;
      assert os[..|os| - 1 + 1] == os;
      forall i | 0 <= i < |front|
        ensures StaysShut(d, front, i)
      {
        assert StaysShut(d, os, i);
        assert front[..i + 1] == os[..i + 1];
      }
      SpentRun(d, front);
      Reconnection.RunLast(d, front, o);
      assert StaysShut(d, os, |os| - 1);
      var e := Daemon.Run(d, front);
      if o.RetryTimer? {
        RetrySpends(e, AtMostTwo(Fires(front)));
      } else {
        OthersKeep(e, o, AtMostTwo(Fires(front)));
      }
    }
  }

  /** The callback that finds the pods here, with a connect that fails. */
  lemma ArrivalSpends(d: DaemonState, o: Occurrence)
    requires Good(d) && !d.pump.session.open && d.watch.Some?
    requires Arrives(d, o) && !Handle(d, o).pump.session.open
    ensures Spent(Handle(d, o), 0) && Tries(Handle(d, o).w.log) == Tries(d.w.log) + 1
  {
    HandleKeeps(d, o);
    WatchMoves(d, o);
    var v := WatchMove(d, o);
    var p0 := d.pump.(attempts := 0, retry := None);
    var (p, w) := Attach(d.mac, p0, d.w, Some(true));
    DeliverPump(d.(watch := Some(v)), p, w);
    if OpenOf(DEFAULTS, p0.session, d.w).0.open {
      OpenedAttach(d.mac, p0, d.w, Some(true));
      assert false;
    } else {
      RefusedAttach(d.mac, p0, d.w, Some(true));
    }
  }

  /** The watch calls back that the pods are here. */
  predicate Arrives(d: DaemonState, o: Occurrence)
    requires d.watch.Some?
  {
    && !OnlyAside(o) && !o.TickTimer? && !o.RetryTimer?
    && WatchMove(d, o).calls != d.watch.value.calls && WatchMove(d, o).connected
  }

  /** The pods arrive at a closed channel and every attempt fails: the arrival itself tries once, the first two retry
      timers that go off try once more each, and nothing else does. A retry is pending until both have, after one second
      and after two. */
  lemma ArrivalTriesThrice(d: DaemonState, o: Occurrence, os: seq<Occurrence>)
    requires Good(d) && !d.pump.session.open && d.watch.Some?
    requires Arrives(d, o) && !Handle(d, o).pump.session.open && Unanswered(Handle(d, o), os)
    ensures var e := Daemon.Run(Handle(d, o), os);
            && Tries(e.w.log) == Tries(d.w.log) + 1 + (if Fires(os) < 2 then Fires(os) else 2)
            && e.pump.retry == (if Fires(os) == 0 then Some(1000) else if Fires(os) == 1 then Some(2000) else None)
  {
    ArrivalSpends(d, o);
    SpentRun(Handle(d, o), os);
  }
}
