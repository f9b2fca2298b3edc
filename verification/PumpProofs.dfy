/** What the pump keeps: its timers, its retry budget, and a publisher that is never behind. */
module PumpProofs {
  import opened Basics
  import opened Environment
  import opened SessionModel
  import opened SessionCache
  import opened SessionProtocol
  import opened SessionSocket
  import opened SessionEffects
  import opened PumpModel

  /** The tick timer runs exactly while the channel is open. */
  predicate PumpBase(p: PumpState, w: World) {
    && PhaseTells(p.session)
    && (p.timer <==> p.session.open)
    && Remembers(p.session, w)
    && Speaks(DEFAULTS, p.session, w)
  }

  predicate UpToDate(mac: string, p: PumpState) {
    p.published != [] && p.published[|p.published| - 1] == Snapshot(mac, p)
  }

  /** A pending retry means the pods are here, the channel is closed and the budget is not spent. */
  predicate RetryBounded(p: PumpState, here: Option<bool>) {
    p.retry.Some? ==>
      && here == Some(true) && !p.session.open && !p.timer
      && 1 <= p.attempts <= 2
      && p.retry.value == RETRY_MS[p.attempts - 1]
  }

  predicate PumpInv(mac: string, p: PumpState, w: World, here: Option<bool>) {
    PumpBase(p, w) && UpToDate(mac, p) && RetryBounded(p, here)
  }

  /** Connects still owed to the last callback. */
  function Owed(p: PumpState): nat {
    if p.retry.Some? && p.attempts < MAX_ATTEMPTS then MAX_ATTEMPTS - p.attempts else 0
  }

  lemma ShutKeeps(s: SessionState, w: World)
    requires Remembers(s, w) && Speaks(DEFAULTS, s, w)
    ensures Remembers(Shut(s), w) && Speaks(DEFAULTS, Shut(s), w)
  {
  }

  lemma AttachKeeps(mac: string, p: PumpState, w: World, here: Option<bool>)
    requires PumpBase(p, w) && p.retry.None? && p.attempts <= 2 && (p.session.open ==> UpToDate(mac, p))
    ensures var (p1, w1) := Attach(mac, p, w, here);
            && PumpInv(mac, p1, w1, here)
            && p.published <= p1.published
            && Tries(w1.log) == Tries(w.log) + (if p.session.open then 0 else 1)
            && (p.session.open ==> p1 == p)
            && (p1.retry.Some? ==> here == Some(true) && p1.attempts == p.attempts + 1)
  {
    if !p.session.open {
      OpenPhase(DEFAULTS, p.session, w);
      OpenRemembers(DEFAULTS, p.session, w);
      OpenSpeaks(DEFAULTS, p.session, w);
      OpenTries(DEFAULTS, p.session, w);
      AttachShape(mac, p, w, here);
    }
  }

  /** Attach, seen from its session's outcome alone. */
  lemma AttachShape(mac: string, p: PumpState, w: World, here: Option<bool>)
    requires !p.session.open && !p.timer && p.retry.None?
    requires OpenResult(DEFAULTS, p.session, w).ok <==> OpenOf(DEFAULTS, p.session, w).0.open
    ensures var (p1, w1) := Attach(mac, p, w, here);
            && (p1.session, w1) == OpenOf(DEFAULTS, p.session, w)
            && p1.attempts == p.attempts + 1
            && (p1.timer <==> p1.session.open)
            && UpToDate(mac, p1) && p.published <= p1.published
            && (p1.retry.Some? ==>
                  && here == Some(true) && !p1.session.open
                  && p1.attempts <= 2 && p1.retry.value == RETRY_MS[p1.attempts - 1])
  {
  }

  lemma DetachKeeps(mac: string, p: PumpState, w: World, why: string, here: Option<bool>)
    requires Remembers(p.session, w) && Speaks(DEFAULTS, p.session, w) && p.retry.None?
    ensures PumpInv(mac, Detach(mac, p, why), w, here) && p.published <= Detach(mac, p, why).published
  {
    ShutKeeps(p.session, w);
  }

  /** A callback: a fresh budget of three connects if the pods came, none if they left. */
  lemma OnBluezKeeps(mac: string, p: PumpState, w: World, connected: bool, path: string)
    requires PumpBase(p, w) && (p.session.open ==> UpToDate(mac, p))
    ensures var (p1, w1) := OnBluez(mac, p, w, connected, path);
            && PumpInv(mac, p1, w1, Some(connected))
            && p.published <= p1.published
            && Tries(w1.log) + Owed(p1) <= Tries(w.log) + (if connected then MAX_ATTEMPTS else 0)
  {
    var p0 := p.(attempts := 0, retry := None);
    assert Snapshot(mac, p0) == Snapshot(mac, p);
    if connected {
      AttachKeeps(mac, p0, w, Some(true));
    } else if p.session.open {
      DetachKeeps(mac, p0, w, LEFT, Some(false));
    }
  }

  /** A callback that did not find the pods here: whatever was open is shut and kept in mind, no retry is left, and the
      one snapshot published says whether the pods left, are unknown to BlueZ, or are merely elsewhere. */
  lemma AwayReports(mac: string, p: PumpState, w: World, path: string)
    ensures var (p1, w1) := OnBluez(mac, p, w, false, path);
            && w1 == w && !p1.session.open && p1.session.battery == p.session.battery && p1.retry.None?
            && p1.published == p.published + [Snapshot(mac, p1)]
            && (p.session.open ==> p1.session.phase == Closed && !p1.timer && p1.status == "pods left this machine")
            && (!p.session.open && path == "" ==> p1.status == "pods not known to BlueZ")
            && (!p.session.open && path != "" ==> p1.status == "waiting for the pods to connect to this machine")
  {
  }

  lemma RetryKeeps(mac: string, p: PumpState, w: World, here: Option<bool>)
    requires PumpInv(mac, p, w, here) && p.retry.Some?
    ensures var (p1, w1) := RetryFires(mac, p, w, here);
            && PumpInv(mac, p1, w1, here)
            && p.published <= p1.published
            && Tries(w1.log) + Owed(p1) <= Tries(w.log) + Owed(p)
  {
    AttachKeeps(mac, p.(retry := None), w, here);
  }

  /** What a tick's step leaves behind: everything but an up-to-date publisher. */
  lemma TickStep(p: PumpState, w: World)
    requires PumpBase(p, w) && p.timer
    ensures var r := StepOf(DEFAULTS, p.session, w);
            && Remembers(r.s, r.w) && Speaks(DEFAULTS, r.s, r.w)
            && Shuts(r)
            && Tries(r.w.log) == Tries(w.log)
  {
    StepRemembers(DEFAULTS, p.session, w);
    StepSpeaks(DEFAULTS, p.session, w);
    StepShuts(DEFAULTS, p.session, w);
    StepTries(DEFAULTS, p.session, w);
  }

  lemma IdleKeepsSnapshot(mac: string, p: PumpState, w: World)
    requires PumpBase(p, w) && p.timer && StepOf(DEFAULTS, p.session, w).out.Idle()
    ensures Snapshot(mac, p.(session := StepOf(DEFAULTS, p.session, w).s)) == Snapshot(mac, p)
  {
    IdleStepKeeps(DEFAULTS, p.session, w);
  }

  /** Going on after a step that found the channel there. */
  lemma StillThere(mac: string, p: PumpState, w: World, r: Progress, here: Option<bool>)
    requires PumpInv(mac, p, w, here) && p.timer
    requires Remembers(r.s, r.w) && Speaks(DEFAULTS, r.s, r.w) && Shuts(r) && !r.out.closed
    requires r.out.Idle() ==> Snapshot(mac, p.(session := r.s)) == Snapshot(mac, p)
    ensures var p1 := p.(session := r.s);
            PumpInv(mac, if r.out.Idle() then p1 else PublishNow(mac, p1), r.w, here)
  {
  }

  /** A tick never connects, and publishes whenever a snapshot would look different. */
  lemma TickKeeps(mac: string, p: PumpState, w: World, here: Option<bool>)
    requires PumpInv(mac, p, w, here) && p.timer
    ensures var (p1, w1) := Tick(mac, p, w);
            && PumpInv(mac, p1, w1, here)
            && p.published <= p1.published
            && p1.retry == p.retry == None
            && Tries(w1.log) == Tries(w.log)
  {
    TickStep(p, w);
    TickShape(mac, p, w);
    var r := StepOf(DEFAULTS, p.session, w);
    if r.out.closed {
      DetachKeeps(mac, p.(session := r.s), r.w, CLOSED_BY_PEER, here);
    } else {
      if r.out.Idle() { IdleKeepsSnapshot(mac, p, w); }
      StillThere(mac, p, w, r, here);
    }
  }

  lemma TickShape(mac: string, p: PumpState, w: World)
    ensures var r, (p1, w1) := StepOf(DEFAULTS, p.session, w), Tick(mac, p, w);
            && w1 == r.w && p.published <= p1.published && p1.retry == p.retry
            && (p1.published == p.published <==> !r.out.closed && r.out.Idle())
            && p1 == if r.out.closed then Detach(mac, p.(session := r.s), CLOSED_BY_PEER)
                     else if r.out.Idle() then p.(session := r.s) else PublishNow(mac, p.(session := r.s))
  {
  }

  /** Starting blind connects once and never again. */
  lemma StartBlindKeeps(mac: string, w: World)
    requires w.log == []
    ensures var (p1, w1) := StartBlind(mac, IDLE, w);
            PumpInv(mac, p1, w1, None) && p1.retry.None? && Tries(w1.log) == 1
  {
    AttachKeeps(mac, IDLE.(status := NO_WATCH), w, None);
  }
}
