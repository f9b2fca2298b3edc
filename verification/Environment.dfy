/** Everything the daemon cannot decide for itself, as scripts the model consumes in order: how far the steady
    clock has moved at each reading, how each connect, write, poll and BlueZ query turns out. Any finite
    behaviour of the outside is some script. `log` is the transcript the packet hook would produce, stamped. */
module Environment {
  import opened Basics
  import opened Battery

  const TICKS_PER_MS := 1_000_000

  datatype Stage = ParseAddress | AdapterCheck | CreateSocket | SetSecurity | Connect | Connected

  datatype ConnectResult = ConnectResult(ok: bool, reached: Stage, diagnosis: string)

  /** What poll and read report on an open socket. */
  datatype Poll = Interrupted | TimedOut | Failed | HungUp | Datagram(bytes: seq<byte>)

  datatype Incoming = Gone | Nothing | Packet(bytes: seq<byte>)

  datatype What = Handshake | HostCaps | Notify

  datatype Kind = Tried | Opened | Sent(what: What, bytes: seq<byte>) | Received(bytes: seq<byte>)

  datatype Event = Event(at: int, kind: Kind)

  /** One entry of a GetManagedObjects reply: a path, whether it is a battery manager, and its Device1, if any. */
  datatype BusObject = BusObject(path: string, manager: bool, device: Option<Device>)

  /** `connected` is absent when BlueZ omits the property. */
  datatype Device = Device(address: string, connected: Option<bool>)

  datatype BusReply = BusReply(objects: Option<seq<BusObject>>, exported: bool)

  datatype World = World(
    now: int,
    gaps: seq<nat>,
    connects: seq<ConnectResult>,
    writes: seq<bool>,
    polls: seq<Poll>,
    replies: seq<BusReply>,
    log: seq<Event>)

  /** Whole milliseconds in a clock difference, as duration_cast truncates it. */
  function Ms(ticks: int): int {
    if ticks >= 0 then ticks / TICKS_PER_MS else -(-ticks / TICKS_PER_MS)
  }

  /** The world after one reading of the clock; the reading is its `now`. */
  function Clock(w: World): World {
    w.(now := w.now + Head(w.gaps, 0), gaps := Tail(w.gaps))
  }

  function Pass(w: World, ticks: nat): World {
    w.(now := w.now + ticks)
  }

  function Record(w: World, kind: Kind): World {
    w.(log := w.log + [Event(w.now, kind)])
  }

  function ConnectOutcome(w: World): ConnectResult {
    Head(w.connects, ConnectResult(false, Connect, ""))
  }

  function AfterConnect(w: World): World {
    Record(Clock(w.(connects := Tail(w.connects))), Tried)
  }

  function WriteOutcome(w: World): bool {
    Head(w.writes, true)
  }

  /** Only a packet that was written whole reaches the hook. */
  function AfterWrite(w: World, what: What, bytes: seq<byte>): World {
    var w1 := Clock(w.(writes := Tail(w.writes)));
    if WriteOutcome(w) then Record(w1, Sent(what, bytes)) else w1
  }

  /** An empty read means the peer closed; a longer datagram is cut to the buffer. */
  function ReadOutcome(w: World): Incoming {
    match Head(w.polls, TimedOut)
    case Interrupted => Nothing
    case TimedOut => Nothing
    case Failed => Gone
    case HungUp => Gone
    case Datagram(bytes) =>
      if bytes == [] then Gone
      else Packet(if |bytes| > READ_BUFFER then bytes[..READ_BUFFER] else bytes)
  }

  function AfterRead(w: World): World {
    var w1 := Clock(w.(polls := Tail(w.polls)));
    match ReadOutcome(w)
    case Packet(bytes) => Record(w1, Received(bytes))
    case _ => w1
  }

  function NextReply(w: World): BusReply {
    Head(w.replies, BusReply(None, false))
  }

  function AfterReply(w: World): World {
    w.(replies := Tail(w.replies))
  }
}
