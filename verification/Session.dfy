/** The session itself: fields updated in place, step by step. */
module Sessions {
  import opened Basics
  import opened Protocol
  import opened Battery
  import opened Environment
  import opened SessionModel

  class Session {
    const cfg: Config
    var open: bool
    var phase: Phase
    var started: int
    var phaseAt: int
    var lastBattery: Option<Report>
    var batteryAt: int
    var batterySeen: bool
    var refusals: nat
    var notifySentAt: int
    var notifyResent: bool

    function View(): SessionState
      reads this
    {
      SessionState(open, phase, started, phaseAt, lastBattery, batteryAt, batterySeen, refusals,
                   notifySentAt, notifyResent)
    }

    constructor (cfg: Config)
      ensures this.cfg == cfg && View() == FRESH
    {
      this.cfg := cfg;
      open, phase := false, Closed;
      started, phaseAt, batteryAt := 0, 0, 0;
      lastBattery, batterySeen, refusals := None, false, 0;
      notifySentAt, notifyResent := -1, false;
    }

    method Emit(w: World, what: What, bytes: seq<byte>) returns (ok: bool, w': World)
      ensures ok == Emits(w, bytes) && w' == AfterEmit(w, what, bytes)
    {
      if bytes == [] { return true, w; }
      return WriteOutcome(w), AfterWrite(w, what, bytes);
    }

    method SendCaps(w: World) returns (ok: bool, w': World)
      ensures ok == Emits(w, cfg.hostCaps) && w' == AfterEmit(w, HostCaps, cfg.hostCaps)
    {
      ok, w' := Emit(w, HostCaps, cfg.hostCaps);
    }

    method SendNotify(w: World) returns (ok: bool, w': World)
      modifies this`notifySentAt
      ensures ok == Emits(w, cfg.notifyRequest)
      ensures ok ==> (View(), w') == RequestNotify(cfg, old(View()), w)
      ensures !ok ==> View() == old(View()) && (Shut(View()), w') == RequestNotify(cfg, old(View()), w)
    {
      ok, w' := Emit(w, Notify, cfg.notifyRequest);
      if !ok { return; }
      w' := Clock(w');
      notifySentAt := Ms(w'.now - started);
    }

    method EnterPhase(w: World, p: Phase) returns (w': World)
      modifies this`phase, this`phaseAt
      ensures View() == Enter(old(View()), w, p) && w' == Clock(w)
    {
      w' := Clock(w);
      phase, phaseAt := p, w'.now;
    }

    method Close()
      modifies this`open, this`phase
      ensures View() == Shut(old(View()))
    {
      open := false;
      phase := Closed;
    }

    method OpenChannel(w: World) returns (result: ConnectResult, w': World)
      modifies this
      ensures (View(), w') == OpenOf(cfg, old(View()), w)
      ensures result == OpenResult(cfg, old(View()), w)
    {
      open := false;
      result, w' := ConnectOutcome(w), AfterConnect(w);
      if !result.ok { return; }
      open := true;

      w' := Record(Clock(w'), Opened);
      started := w'.now;
      batterySeen, notifyResent, notifySentAt := false, false, -1;
      w' := EnterPhase(w', WaitHandshakeAck);

      var sent;
      if cfg.sendHandshake {
        sent, w' := Emit(w', Handshake, HANDSHAKE);
        if !sent {
          Close();
          result := result.(ok := false, diagnosis := UNWRITTEN);
          return;
        }
      }
      if !cfg.ackDriven || !cfg.sendHandshake {
        w' := Clock(Pass(w', SETTLE_TICKS));
        sent, w' := SendCaps(w');
        if !sent { Close(); result := result.(ok := false); return; }
        if cfg.hostCaps != [] {
          w' := Clock(Pass(w', SETTLE_TICKS));
        }
        sent, w' := SendNotify(w');
        if !sent { Close(); result := result.(ok := false); return; }
        w' := EnterPhase(w', Listening);
      }
    }

    method DoTimeouts(w: World) returns (out: Step, w': World)
      requires open
      modifies this
      ensures Progress(View(), w', out) == TimeoutStage(cfg, old(View()), w)
    {
      out, w' := QUIET, w;
      if phase == Listening || phase == Closed { return; }
      w' := Clock(w');
      if Ms(w'.now - phaseAt) <= cfg.ackTimeoutMs { return; }
      var sent;
      if phase == WaitHandshakeAck {
        out := out.(note := Some(HandshakeAckTimeout));
        sent, w' := SendCaps(w');
        if !sent { Close(); out := out.(closed := true); return; }
        w' := EnterPhase(w', if cfg.hostCaps == [] then Listening else WaitFeaturesAck);
        if phase == Listening {
          sent, w' := SendNotify(w');
          if !sent { Close(); out := out.(closed := true); return; }
        }
      } else {
        out := out.(note := Some(FeaturesAckTimeout));
        sent, w' := SendNotify(w');
        if !sent { Close(); out := out.(closed := true); return; }
        w' := EnterPhase(w', Listening);
      }
      out := out.(phaseChanged := true);
    }

    method DoResend(w: World, soFar: Step) returns (out: Step, w': World)
      requires open && !soFar.closed
      modifies this
      ensures Progress(View(), w', out) == ResendStage(cfg, Progress(old(View()), w, soFar))
    {
      out, w' := soFar, w;
      if phase == Listening && !batterySeen && !notifyResent && cfg.notifyResendMs >= 0 && notifySentAt >= 0 {
        w' := Clock(w');
        if Ms(w'.now - started) - notifySentAt >= cfg.notifyResendMs {
          if out.note.None? { out := out.(note := Some(Resending)); }
          notifyResent := true;
          var sent;
          sent, w' := SendNotify(w');
          if !sent { Close(); out := out.(closed := true); }
        }
      }
    }

    method DoBattery(w: World, soFar: Step) returns (out: Step, w': World)
      modifies this
      ensures Progress(View(), w', out) == BatteryStage(Progress(old(View()), w, soFar))
    {
      out, w' := soFar, w;
      if OpcodeOf(out.bytes) == OP_BATTERY {
        batterySeen := true;
        var report := ParseBattery(out.bytes);
        if report.Some? {
          w' := Clock(w');
          lastBattery, batteryAt := report, w'.now;
          out := out.(battery := true);
        } else {
          refusals := refusals + 1;
          if out.note.None? { out := out.(note := Some(ParseRefused)); }
        }
      }
    }

    method DoAck(w: World, soFar: Step) returns (out: Step, w': World)
      requires open && !soFar.closed
      modifies this
      ensures Progress(View(), w', out) == AckStage(cfg, Progress(old(View()), w, soFar))
    {
      out, w' := soFar, w;
      var sent;
      if phase == WaitHandshakeAck && IsHandshakeAck(out.bytes) {
        sent, w' := SendCaps(w');
        if !sent { Close(); out := out.(closed := true); return; }
        w' := EnterPhase(w', if cfg.hostCaps == [] then Listening else WaitFeaturesAck);
        out := out.(phaseChanged := true);
        if phase == Listening {
          sent, w' := SendNotify(w');
          if !sent { Close(); out := out.(closed := true); return; }
        }
      } else if phase == WaitFeaturesAck && OpcodeOf(out.bytes) == OP_FEATURES_ACK {
        sent, w' := SendNotify(w');
        if !sent { Close(); out := out.(closed := true); return; }
        w' := EnterPhase(w', Listening);
        out := out.(phaseChanged := true);
      }
    }

    method DoStep(w: World) returns (out: Step, w': World)
      modifies this
      ensures Progress(View(), w', out) == StepOf(cfg, old(View()), w)
    {
      if !open { return GONE, w; }
      out, w' := DoTimeouts(w);
      if out.closed { return; }
      StillOpen(cfg, old(View()), w);
      out, w' := DoResend(w', out);
      if out.closed { return; }
      var incoming := ReadOutcome(w');
      w' := AfterRead(w');
      match incoming {
        case Gone =>
          Close();
          out := out.(closed := true);
          if out.note.None? { out := out.(note := Some(ClosedByPeer)); }
        case Nothing =>
        case Packet(bytes) =>
          out := out.(packet := true, bytes := bytes);
          StillOpenAfterResend(cfg, old(View()), w);
          out, w' := DoBattery(w', out);
          out, w' := DoAck(w', out);
      }
    }

    method BatteryAge(now: int) returns (age: int)
      ensures age == BatteryAgeMs(View(), now)
    {
      if lastBattery.None? { return -1; }
      return Ms(now - batteryAt);
    }
  }

  /** A stage reports `closed` exactly when it has closed the socket. */
  lemma StillOpen(c: Config, s: SessionState, w: World)
    requires s.open
    ensures TimeoutStage(c, s, w).s.open == !TimeoutStage(c, s, w).out.closed
  {
  }

  lemma StillOpenAfterResend(c: Config, s: SessionState, w: World)
    requires s.open
    ensures var p := ResendStage(c, TimeoutStage(c, s, w)); p.s.open == !p.out.closed
  {
    StillOpen(c, s, w);
  }
}
