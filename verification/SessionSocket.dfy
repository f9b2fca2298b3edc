/** Whether the phase tells if there is a socket: where it does, and the one way it comes not to. */
module SessionSocket {
  import opened Basics
  import opened Environment
  import opened SessionModel
  import opened SessionProtocol

  /** Opening leaves the phase Closed exactly without a socket if and only if nothing was open or the connect works:
      a refused connect on an open session drops the socket and keeps the old phase. */
  lemma OpenPhase(c: Config, s: SessionState, w: World)
    requires PhaseTells(s)
    ensures var s1 := OpenOf(c, s, w).0;
            && (PhaseTells(s1) <==> !s.open || ConnectOutcome(w).ok)
            && (OpenResult(c, s, w).ok <==> s1.open)
  {
    if ConnectOutcome(w).ok {
      ConnectedPhase(c, s, AfterConnect(w));
    }
  }

  lemma ConnectedPhase(c: Config, s: SessionState, w: World)
    ensures PhaseTells(AfterConnected(c, s, w).0)
  {
  }

  lemma RefusedOpen(c: Config, s: SessionState, w: World)
    requires !ConnectOutcome(w).ok
    ensures OpenOf(c, s, w).0 == s.(open := false)
  {
  }

  /** Such a run: opened, then reopened and refused. */
  lemma RefusedReopenKeepsPhase(w: World)
    requires w.connects == [ConnectResult(true, Connected, ""), ConnectResult(false, Connect, "")] && w.writes == []
    ensures var p := Run(DEFAULTS, Progress(FRESH, w, QUIET), [Open, Open]);
            !p.s.open && p.s.phase == WaitHandshakeAck
  {
    var start := Progress(FRESH, w, QUIET);
    var once := Apply(DEFAULTS, start, Open);
    FirstOpen(w);
    RefusedOpen(DEFAULTS, once.s, once.w);
    var twice := Apply(DEFAULTS, once, Open);
    assert [Open, Open][1..] == [Open] && [Open][1..] == [];
    assert Run(DEFAULTS, once, [Open]) == Run(DEFAULTS, twice, []) == twice;
  }

  /** A connect that works and a handshake that is written leave a session waiting for its ack. */
  lemma FirstOpen(w: World)
    requires ConnectOutcome(w).ok && WriteOutcome(w)
    ensures var (s1, w1) := OpenOf(DEFAULTS, FRESH, w);
            && s1.open && s1.phase == WaitHandshakeAck
            && w1.connects == Tail(w.connects)
  {
  }

  // -------------------------------------------------------------------------
  // Whole runs
  // -------------------------------------------------------------------------

  /** A connect refused while a socket was open. */
  predicate RefusedReopen(p: Progress, op: Op) {
    op == Open && p.s.open && !ConnectOutcome(p.w).ok
  }

  /** A close, or a connect that works. */
  predicate Settles(p: Progress, op: Op) {
    op == Close || (op == Open && ConnectOutcome(p.w).ok)
  }

  predicate DanglesFrom(c: Config, p: Progress, ops: seq<Op>, i: nat) {
    && i < |ops| && RefusedReopen(Run(c, p, ops[..i]), ops[i])
    && forall j :: i < j < |ops| ==> !SettlesAt(c, p, ops, j)
  }

  predicate SettlesAt(c: Config, p: Progress, ops: seq<Op>, j: nat)
    requires j < |ops|
  {
    Settles(Run(c, p, ops[..j]), ops[j])
  }

  /** Some reopen was refused, and neither a close nor a connect that worked has come since. */
  predicate Dangles(c: Config, p: Progress, ops: seq<Op>) {
    exists i: nat :: i < |ops| && DanglesFrom(c, p, ops, i)
  }

  lemma {:induction false} RunLast(c: Config, p: Progress, ops: seq<Op>, op: Op)
    ensures Run(c, p, ops + [op]) == Apply(c, Run(c, p, ops), op)
    decreases ops
  {
    if ops == [] {
      assert ops + [op] == [op] && [op][1..] == [];
      assert Run(c, Apply(c, p, op), []) == Apply(c, p, op);
    } else {
      assert (ops + [op])[1..] == ops[1..] + [op];
      RunLast(c, Apply(c, p, ops[0]), ops[1..], op);
    }
  }

  lemma DanglesLast(c: Config, p: Progress, ops: seq<Op>, op: Op)
    ensures Dangles(c, p, ops + [op]) <==>
            var q := Run(c, p, ops); RefusedReopen(q, op) || (Dangles(c, p, ops) && !Settles(q, op))
  {
    var more := ops + [op];
    assert more[..|ops|] == ops;
    forall j: nat | j < |ops|
      ensures more[..j] == ops[..j] && SettlesAt(c, p, more, j) == SettlesAt(c, p, ops, j)
    {
      assert more[..j] == ops[..j];
    }
    assert SettlesAt(c, p, more, |ops|) == Settles(Run(c, p, ops), op);
    forall i: nat | i < |ops|
      ensures DanglesFrom(c, p, more, i) <==> DanglesFrom(c, p, ops, i) && !SettlesAt(c, p, more, |ops|)
    {
      assert DanglesFrom(c, p, more, i) ==> forall j :: i < j < |ops| ==> !SettlesAt(c, p, more, j);
    }
    if RefusedReopen(Run(c, p, ops), op) {
      assert DanglesFrom(c, p, more, |ops|);
    }
    if Dangles(c, p, ops) && !Settles(Run(c, p, ops), op) {
      var i: nat :| i < |ops| && DanglesFrom(c, p, ops, i);
      assert DanglesFrom(c, p, more, i);
    }
  }

  lemma ApplyTells(c: Config, p: Progress, op: Op)
    requires p.s.open ==> p.s.phase != Closed
    ensures var q := Apply(c, p, op);
            && (q.s.open ==> q.s.phase != Closed)
            && (PhaseTells(q.s) <==> Settles(p, op) || (PhaseTells(p.s) && !RefusedReopen(p, op)))
  {
    match op {
      case Open =>
        if ConnectOutcome(p.w).ok {
          ConnectedPhase(c, p.s, AfterConnect(p.w));
        } else {
          RefusedOpen(c, p.s, p.w);
        }
      case Close =>
      case DoStep =>
        if p.s.open {
          StepShuts(c, p.s, p.w);
        }
      case Wait(_) =>
    }
  }

  lemma {:induction false} RunTells(c: Config, p: Progress, ops: seq<Op>)
    requires PhaseTells(p.s)
    ensures var q := Run(c, p, ops); (q.s.open ==> q.s.phase != Closed) && (PhaseTells(q.s) <==> !Dangles(c, p, ops))
    decreases |ops|
  {
    if ops != [] {
      var front, op := ops[..|ops| - 1], ops[|ops| - 1];
      assert front + [op] == ops;
      RunTells(c, p, front);
      RunLast(c, p, front, op);
      DanglesLast(c, p, front, op);
      ApplyTells(c, Run(c, p, front), op);
    }
  }

  /** At every point of every run Closed means exactly "no socket" if and only if no refused reopen is outstanding. */
  lemma ClosedMeansNoSocket(c: Config, w: World, ops: seq<Op>)
    ensures var start := Progress(FRESH, w, QUIET);
            PhaseTells(Run(c, start, ops).s) <==> !Dangles(c, start, ops)
  {
    RunTells(c, Progress(FRESH, w, QUIET), ops);
  }
}
