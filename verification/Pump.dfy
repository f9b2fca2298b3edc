/** The pump: owns the session and moves it from the main loop. */
module Pumps {
  import opened Basics
  import opened Environment
  import opened SessionModel
  import opened Sessions
  import opened States
  import opened Watches
  import opened PumpModel

  class Pump {
    const mac: string
    const session: Session
    var watch: BluezWatch?
    var timer: bool
    var retry: Option<nat>
    var attempts: nat
    var status: string
    var published: seq<State>

    function View(): PumpState
      reads this, session
    {
      PumpState(session.View(), timer, retry, attempts, status, published)
    }

    function Here(): Option<bool>
      reads this, watch
    {
      if watch == null then None else Some(watch.connected)
    }

    /** Construction and the creation of the one session the process keeps. */
    constructor (mac: string, watch: BluezWatch?)
      ensures this.mac == mac && this.watch == watch && fresh(session) && session.cfg == DEFAULTS
      ensures View() == IDLE
    {
      this.mac, this.watch := mac, watch;
      timer, retry, attempts, status, published := false, None, 0, "starting", [];
      session := new Session(DEFAULTS);
    }

    method TakeSnapshot() returns (s: State)
      ensures s == Snapshot(mac, View())
    {
      var components: map<string, ComponentView> := map[];
      if session.lastBattery.Some? {
        components := CollectComponents(session.lastBattery.value);
      }
      s := State(mac, PhaseName(session.phase), session.open, status, session.lastBattery.Some?, session.refusals,
                 components);
    }

    method Publish()
      modifies this`published
      ensures View() == PublishNow(mac, old(View()))
    {
      var s := TakeSnapshot();
      published := published + [s];
    }

    method DoScheduleRetry()
      requires attempts >= 1
      modifies this`status, this`retry, this`published
      ensures View() == ScheduleRetry(mac, old(View()), old(Here()))
    {
      if watch == null || !watch.connected { return; }
      if attempts >= MAX_ATTEMPTS {
        status := status + " (gave up after " + Decimal(attempts) + " attempts)";
        Publish();
        return;
      }
      retry := Some(RETRY_MS[attempts - 1]);
    }

    method Refused(r: ConnectResult)
      requires attempts >= 1
      modifies this`status, this`retry, this`published
      ensures var diagnosis := StageName(r.reached) + ": " + r.diagnosis;
              View() == ScheduleRetry(mac, PublishNow(mac, old(View()).(status := diagnosis)), old(Here()))
    {
      status := StageName(r.reached) + ": " + r.diagnosis;
      Publish();
      DoScheduleRetry();
    }

    method DoAttach(w: World) returns (w': World)
      requires session.cfg == DEFAULTS
      modifies this`timer, this`retry, this`attempts, this`status, this`published, session
      ensures (View(), w') == Attach(mac, old(View()), w, old(Here()))
    {
      if session.open { return w; }
      attempts := attempts + 1;
      var r;
      r, w' := session.OpenChannel(w);
      if !r.ok {
        Refused(r);
        return;
      }
      status := CHANNEL_OPEN;
      Publish();
      timer := true;
    }

    method DoDetach(why: string)
      modifies this`timer, this`status, this`published, session
      ensures View() == Detach(mac, old(View()), why)
    {
      timer := false;
      session.Close();
      status := why;
      Publish();
    }

    /** The watch's callback; the watch already holds the value it reports. */
    method HandleBluez(connected: bool, path: string, w: World) returns (w': World)
      requires session.cfg == DEFAULTS
      requires Here() == Some(connected)
      modifies this`timer, this`retry, this`attempts, this`status, this`published, session
      ensures (View(), w') == OnBluez(mac, old(View()), w, connected, path)
    {
      w' := w;
      attempts := 0;
      retry := None;
      if connected {
        w' := DoAttach(w);
      } else if session.open {
        DoDetach(LEFT);
      } else {
        status := if path == "" then UNKNOWN_PODS else AWAY;
        Publish();
      }
    }

    method OnRetryTimer(w: World) returns (w': World)
      requires session.cfg == DEFAULTS
      modifies this`timer, this`retry, this`attempts, this`status, this`published, session
      ensures (View(), w') == RetryFires(mac, old(View()), w, old(Here()))
    {
      retry := None;
      w' := DoAttach(w);
    }

    method OnTick(w: World) returns (again: bool, w': World)
      requires session.cfg == DEFAULTS
      modifies this`timer, this`status, this`published, session
      ensures (View(), w') == Tick(mac, old(View()), w)
      ensures again == !StepOf(DEFAULTS, old(View()).session, w).out.closed
    {
      var out;
      out, w' := session.DoStep(w);
      if out.closed {
        timer := false;
        DoDetach(CLOSED_BY_PEER);
        return false, w';
      }
      if !out.Idle() { Publish(); }
      again := true;
    }

    /** Starting when there is no watch to be had. */
    method StartWithoutWatch(w: World) returns (w': World)
      requires session.cfg == DEFAULTS
      modifies this, session
      ensures (View(), w') == StartBlind(mac, old(View()), w) && watch == null
    {
      watch := null;
      status := NO_WATCH;
      w' := DoAttach(w);
    }
  }
}
