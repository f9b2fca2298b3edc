/** What each Pump operation does, as functions of the pump's fields and the world. */
module PumpModel {
  import opened Basics
  import opened Environment
  import opened SessionModel
  import opened States

  const RETRY_MS: seq<nat> := [1000, 2000, 4000]
  const MAX_ATTEMPTS := 3

  const NO_WATCH := "no BlueZ watch -- single connect attempt only"
  const LEFT := "pods left this machine"
  const UNKNOWN_PODS := "pods not known to BlueZ"
  const AWAY := "waiting for the pods to connect to this machine"
  const CHANNEL_OPEN := "channel open"
  const CLOSED_BY_PEER := "channel closed by the peer"

  /** `retry` is the delay of the pending retry; `published` is every snapshot handed to the publisher. */
  datatype PumpState = PumpState(
    session: SessionState,
    timer: bool,
    retry: Option<nat>,
    attempts: nat,
    status: string,
    published: seq<State>)

  const IDLE := PumpState(FRESH, false, None, 0, "starting", [])

  function StageName(s: Stage): string {
    match s
    case ParseAddress => "parse-address"
    case AdapterCheck => "adapter-check"
    case CreateSocket => "create-socket"
    case SetSecurity => "set-security"
    case Connect => "connect"
    case Connected => "connected"
  }

  function Snapshot(mac: string, p: PumpState): State {
    var s := p.session;
    State(mac, PhaseName(s.phase), s.open, p.status, s.battery.Some?, s.refusals,
          if s.battery.Some? then Components(s.battery.value) else map[])
  }

  function PublishNow(mac: string, p: PumpState): PumpState {
    p.(published := p.published + [Snapshot(mac, p)])
  }

  /** `here` is what the watch says of the pods, if there is a watch. */
  function ScheduleRetry(mac: string, p: PumpState, here: Option<bool>): PumpState
    requires p.attempts >= 1
  {
    if here != Some(true) then p
    else if p.attempts >= MAX_ATTEMPTS then
      PublishNow(mac, p.(status := p.status + " (gave up after " + Decimal(p.attempts) + " attempts)"))
    else p.(retry := Some(RETRY_MS[p.attempts - 1]))
  }

  function Attach(mac: string, p: PumpState, w: World, here: Option<bool>): (PumpState, World) {
    if p.session.open then (p, w)
    else
      var r := OpenResult(DEFAULTS, p.session, w);
      var (s1, w1) := OpenOf(DEFAULTS, p.session, w);
      var p1 := p.(session := s1, attempts := p.attempts + 1);
      if r.ok then (PublishNow(mac, p1.(status := CHANNEL_OPEN)).(timer := true), w1)
      else
        var p2 := PublishNow(mac, p1.(status := StageName(r.reached) + ": " + r.diagnosis));
        (ScheduleRetry(mac, p2, here), w1)
  }

  function Detach(mac: string, p: PumpState, why: string): PumpState {
    PublishNow(mac, p.(timer := false, session := Shut(p.session), status := why))
  }

  function OnBluez(mac: string, p: PumpState, w: World, connected: bool, path: string): (PumpState, World) {
    var p1 := p.(attempts := 0, retry := None);
    if connected then Attach(mac, p1, w, Some(true))
    else if p.session.open then (Detach(mac, p1, LEFT), w)
    else (PublishNow(mac, p1.(status := if path == "" then UNKNOWN_PODS else AWAY)), w)
  }

  function RetryFires(mac: string, p: PumpState, w: World, here: Option<bool>): (PumpState, World) {
    Attach(mac, p.(retry := None), w, here)
  }

  function Tick(mac: string, p: PumpState, w: World): (PumpState, World) {
    var r := StepOf(DEFAULTS, p.session, w);
    var p1 := p.(session := r.s);
    (if r.out.closed then Detach(mac, p1, CLOSED_BY_PEER)
     else if r.out.Idle() then p1
     else PublishNow(mac, p1), r.w)
  }

  function StartBlind(mac: string, p: PumpState, w: World): (PumpState, World) {
    Attach(mac, p.(status := NO_WATCH), w, None)
  }
}
