/** Reopening is a true reset: nothing a session remembers from earlier connections can change what it sends or
    reports on later ones. */
module SessionReset {
  import opened Basics
  import opened Protocol
  import opened Environment
  import opened SessionModel

  /** The per-connection fields agree, clock readings being `k` apart; the cached knowledge is unconstrained. */
  ghost predicate Alike(k: int, s: SessionState, t: SessionState) {
    && s.open == t.open
    && (s.open ==>
          && s.phase == t.phase
          && t.started == s.started + k
          && t.phaseAt == s.phaseAt + k
          && s.batterySeen == t.batterySeen
          && s.notifySentAt == t.notifySentAt
          && s.notifyResent == t.notifyResent)
  }

  function Shifted(k: int, log: seq<Event>): seq<Event> {
    seq(|log|, i requires 0 <= i < |log| => Event(log[i].at + k, log[i].kind))
  }

  /** The same outside outcomes to come, clocks `k` apart, and the same transcript since marks `m` and `n`. */
  ghost predicate SameWorld(k: int, m: nat, n: nat, w: World, v: World) {
    && v == w.(now := w.now + k, log := v.log)
    && m <= |w.log| && n <= |v.log|
    && v.log[n..] == Shifted(k, w.log[m..])
  }

  ghost predicate SameProgress(k: int, m: nat, n: nat, p: Progress, q: Progress) {
    Alike(k, p.s, q.s) && SameWorld(k, m, n, p.w, q.w) && p.out == q.out
  }

  lemma RecordAlike(k: int, m: nat, n: nat, w: World, v: World, kind: Kind)
    requires SameWorld(k, m, n, w, v)
    ensures SameWorld(k, m, n, Record(w, kind), Record(v, kind))
  {
    var e, f := Event(w.now, kind), Event(v.now, kind);
    assert (w.log + [e])[m..] == w.log[m..] + [e];
    assert (v.log + [f])[n..] == v.log[n..] + [f];
  }

  lemma EmitAlike(k: int, m: nat, n: nat, w: World, v: World, what: What, bytes: seq<byte>)
    requires SameWorld(k, m, n, w, v)
    ensures Emits(w, bytes) == Emits(v, bytes)
    ensures SameWorld(k, m, n, AfterEmit(w, what, bytes), AfterEmit(v, what, bytes))
  {
    RecordAlike(k, m, n, Clock(w.(writes := Tail(w.writes))), Clock(v.(writes := Tail(v.writes))), Sent(what, bytes));
  }

  lemma NotifyAlike(c: Config, k: int, m: nat, n: nat, s: SessionState, t: SessionState, w: World, v: World)
    requires s.open && Alike(k, s, t) && SameWorld(k, m, n, w, v)
    ensures Alike(k, RequestNotify(c, s, w).0, RequestNotify(c, t, v).0)
    ensures SameWorld(k, m, n, RequestNotify(c, s, w).1, RequestNotify(c, t, v).1)
  {
    EmitAlike(k, m, n, w, v, Notify, c.notifyRequest);
  }

  lemma LeaveHandshakeAlike(c: Config, k: int, m: nat, n: nat, p: Progress, q: Progress, early: bool)
    requires p.s.open && SameProgress(k, m, n, p, q)
    ensures SameProgress(k, m, n, LeaveHandshake(c, p, early), LeaveHandshake(c, q, early))
  {
    EmitAlike(k, m, n, p.w, q.w, HostCaps, c.hostCaps);
    var w1, v1 := AfterEmit(p.w, HostCaps, c.hostCaps), AfterEmit(q.w, HostCaps, c.hostCaps);
    NotifyAlike(c, k, m, n, Enter(p.s, w1, Listening), Enter(q.s, v1, Listening), Clock(w1), Clock(v1));
  }

  lemma ListenAlike(c: Config, k: int, m: nat, n: nat, s: SessionState, t: SessionState, w: World, v: World)
    requires s.open && Alike(k, s, t) && SameWorld(k, m, n, w, v)
    ensures Alike(k, Listen(c, s, w).0, Listen(c, t, v).0)
    ensures SameWorld(k, m, n, Listen(c, s, w).1, Listen(c, t, v).1)
  {
    NotifyAlike(c, k, m, n, s, t, w, v);
  }

  lemma LeaveFeaturesAlike(c: Config, k: int, m: nat, n: nat, p: Progress, q: Progress)
    requires p.s.open && SameProgress(k, m, n, p, q)
    ensures SameProgress(k, m, n, LeaveFeatures(c, p), LeaveFeatures(c, q))
  {
    ListenAlike(c, k, m, n, p.s, q.s, p.w, q.w);
  }

  lemma TimeoutAlike(c: Config, k: int, m: nat, n: nat, s: SessionState, t: SessionState, w: World, v: World)
    requires s.open && Alike(k, s, t) && SameWorld(k, m, n, w, v)
    ensures SameProgress(k, m, n, TimeoutStage(c, s, w), TimeoutStage(c, t, v))
  {
    var w1, v1 := Clock(w), Clock(v);
    if Waiting(s) && Ms(w1.now - s.phaseAt) > c.ackTimeoutMs {
      assert Ms(v1.now - t.phaseAt) == Ms(w1.now - s.phaseAt);
      if s.phase == WaitHandshakeAck {
        var out := QUIET.(note := Some(HandshakeAckTimeout));
        LeaveHandshakeAlike(c, k, m, n, Progress(s, w1, out), Progress(t, v1, out), false);
      } else {
        var out := QUIET.(note := Some(FeaturesAckTimeout));
        LeaveFeaturesAlike(c, k, m, n, Progress(s, w1, out), Progress(t, v1, out));
      }
    }
  }

  lemma ResendAlike(c: Config, k: int, m: nat, n: nat, p: Progress, q: Progress)
    requires SameProgress(k, m, n, p, q) && p.s.open == !p.out.closed
    ensures SameProgress(k, m, n, ResendStage(c, p), ResendStage(c, q))
    ensures ResendStage(c, p).s.open == !ResendStage(c, p).out.closed
  {
    if p.s.open {
      NotifyAlike(c, k, m, n, p.s.(notifyResent := true), q.s.(notifyResent := true), Clock(p.w), Clock(q.w));
    }
  }

  lemma PacketAlike(c: Config, k: int, m: nat, n: nat, p: Progress, q: Progress)
    requires p.s.open && SameProgress(k, m, n, p, q)
    ensures SameProgress(k, m, n, AckStage(c, BatteryStage(p)), AckStage(c, BatteryStage(q)))
  {
    var p2, q2 := BatteryStage(p), BatteryStage(q);
    assert SameProgress(k, m, n, p2, q2);
    if p2.s.phase == WaitHandshakeAck {
      LeaveHandshakeAlike(c, k, m, n, p2, q2, true);
    } else {
      LeaveFeaturesAlike(c, k, m, n, p2, q2);
    }
  }

  lemma ReadAlike(c: Config, k: int, m: nat, n: nat, p: Progress, q: Progress)
    requires SameProgress(k, m, n, p, q) && p.s.open == !p.out.closed
    ensures SameProgress(k, m, n, ReadStage(c, p), ReadStage(c, q))
  {
    if p.s.open {
      match ReadOutcome(p.w) {
        case Packet(bytes) =>
          RecordAlike(k, m, n, Clock(p.w.(polls := Tail(p.w.polls))), Clock(q.w.(polls := Tail(q.w.polls))),
                      Received(bytes));
          var out := p.out.(packet := true, bytes := bytes);
          PacketAlike(c, k, m, n, Progress(p.s, AfterRead(p.w), out), Progress(q.s, AfterRead(q.w), out));
        case _ =>
      }
    }
  }

  lemma StepAlike(c: Config, k: int, m: nat, n: nat, s: SessionState, t: SessionState, w: World, v: World)
    requires Alike(k, s, t) && SameWorld(k, m, n, w, v)
    ensures SameProgress(k, m, n, StepOf(c, s, w), StepOf(c, t, v))
  {
    if s.open {
      TimeoutAlike(c, k, m, n, s, t, w, v);
      ResendAlike(c, k, m, n, TimeoutStage(c, s, w), TimeoutStage(c, t, v));
      ReadAlike(c, k, m, n, ResendStage(c, TimeoutStage(c, s, w)), ResendStage(c, TimeoutStage(c, t, v)));
    }
  }

  lemma SendAllAlike(c: Config, k: int, m: nat, n: nat, s: SessionState, t: SessionState, w: World, v: World)
    requires s.open && Alike(k, s, t) && SameWorld(k, m, n, w, v)
    ensures Alike(k, SendAll(c, s, w).0, SendAll(c, t, v).0)
    ensures SameWorld(k, m, n, SendAll(c, s, w).1, SendAll(c, t, v).1)
  {
    var w1, v1 := Clock(Pass(w, SETTLE_TICKS)), Clock(Pass(v, SETTLE_TICKS));
    EmitAlike(k, m, n, w1, v1, HostCaps, c.hostCaps);
    var w2, v2 := AfterEmit(w1, HostCaps, c.hostCaps), AfterEmit(v1, HostCaps, c.hostCaps);
    ListenAlike(c, k, m, n, s, t, if c.hostCaps == [] then w2 else Clock(Pass(w2, SETTLE_TICKS)),
                if c.hostCaps == [] then v2 else Clock(Pass(v2, SETTLE_TICKS)));
  }

  /** Opening makes any two sessions alike, whatever either of them remembers. */
  lemma OpenAlike(c: Config, k: int, m: nat, n: nat, s: SessionState, t: SessionState, w: World, v: World)
    requires SameWorld(k, m, n, w, v)
    ensures Alike(k, OpenOf(c, s, w).0, OpenOf(c, t, v).0)
    ensures SameWorld(k, m, n, OpenOf(c, s, w).1, OpenOf(c, t, v).1)
    ensures OpenResult(c, s, w) == OpenResult(c, t, v)
  {
    RecordAlike(k, m, n, Clock(w.(connects := Tail(w.connects))), Clock(v.(connects := Tail(v.connects))), Tried);
    if ConnectOutcome(w).ok {
      var w0, v0 := AfterConnect(w), AfterConnect(v);
      RecordAlike(k, m, n, Clock(w0), Clock(v0), Opened);
      var w1, v1 := Record(Clock(w0), Opened), Record(Clock(v0), Opened);
      EmitAlike(k, m, n, Clock(w1), Clock(v1), Handshake, HANDSHAKE);
      var s2 := Renewed(s, w1);
      var t2 := Renewed(t, v1);
      SendAllAlike(c, k, m, n, s2, t2,
                   if c.sendHandshake then AfterEmit(Clock(w1), Handshake, HANDSHAKE) else Clock(w1),
                   if c.sendHandshake then AfterEmit(Clock(v1), Handshake, HANDSHAKE) else Clock(v1));
    }
  }

  lemma {:induction false} RunAlike(c: Config, k: int, m: nat, n: nat, p: Progress, q: Progress, ops: seq<Op>)
    requires SameProgress(k, m, n, p, q)
    ensures Reports(c, p, ops) == Reports(c, q, ops)
    ensures SameProgress(k, m, n, Run(c, p, ops), Run(c, q, ops))
    decreases ops
  {
    if ops != [] {
      match ops[0] {
        case Open => OpenAlike(c, k, m, n, p.s, q.s, p.w, q.w);
        case Close =>
        case DoStep => StepAlike(c, k, m, n, p.s, q.s, p.w, q.w);
        case Wait(ticks) =>
      }
      RunAlike(c, k, m, n, Apply(c, p, ops[0]), Apply(c, q, ops[0]), ops[1..]);
    }
  }

  /** Two sessions with nothing open, whatever their histories, that meet the same outcomes on clocks a constant
      apart, report the same steps and put the same packets on the wire at corresponding times, forever and
      across any number of reconnects. */
  lemma ReopenIsReset(c: Config, k: int, s: SessionState, t: SessionState, w: World, v: World, ops: seq<Op>)
    requires !s.open && !t.open
    requires v == w.(now := w.now + k, log := v.log)
    ensures Reports(c, Progress(s, w, QUIET), ops) == Reports(c, Progress(t, v, QUIET), ops)
    ensures SameWorld(k, |w.log|, |v.log|, Run(c, Progress(s, w, QUIET), ops).w, Run(c, Progress(t, v, QUIET), ops).w)
  {
    var p, q := Progress(s, w, QUIET), Progress(t, v, QUIET);
    assert SameProgress(k, |w.log|, |v.log|, p, q) by {
      assert v.log[|v.log|..] == Shifted(k, w.log[|w.log|..]);
    }
    RunAlike(c, k, |w.log|, |v.log|, p, q, ops);
  }
}
