/** The watch against a live bluetoothd: an object tree that moves, signals that queue behind it, scans that read it
    ahead of the queue. When everything has been delivered, the watch agrees with the tree. */
module WatchAgreement {
  import opened Basics
  import opened Environment
  import opened Watches

  /** What waits to be delivered to the watch, in order. */
  datatype Message = Told(path: string, connected: bool) | TreeMoved | NameUp | NameDown

  datatype System = System(mac: string, up: bool, tree: seq<BusObject>, queue: seq<Message>, watch: WatchState)

  /** What bluetoothd and the main loop can do. */
  datatype Move =
    | Link(i: nat, connected: bool)    // a device connects or disconnects
    | Rebuild(tree: seq<BusObject>)    // objects come and go
    | Stop
    | Boot(tree: seq<BusObject>)
    | Announce                         // the name watch reports the present owner
    | Deliver(now: int)
    | TimerFires

  predicate GoodTree(tree: seq<BusObject>) {
    && PathsNamed(tree)
    && forall i, j :: 0 <= i < j < |tree| ==> tree[i].path != tree[j].path
  }

  function Reply(s: System): Option<seq<BusObject>> {
    if s.up then Some(s.tree) else None
  }

  function Linked(o: BusObject, connected: bool): BusObject
    requires o.device.Some?
  {
    o.(device := Some(o.device.value.(connected := Some(connected))))
  }

  function Receive(s: System, now: int): System
    requires s.queue != []
  {
    var t := s.(queue := s.queue[1..]);
    match s.queue[0]
    case Told(path, connected) => t.(watch := PropsChanged(s.watch, path, Some(connected)))
    case TreeMoved => t.(watch := RescanSoon(s.watch, now))
    case NameUp => t.(watch := Rescan(s.mac, s.watch, Reply(s)))
    case NameDown => t.(watch := Update(s.watch, false, ""))
  }

  function Rescanned(s: System): System {
    s.(watch := RescanFires(s.mac, s.watch, Reply(s)))
  }

  /** Moves that make no sense in a state leave it alone. */
  function Next(s: System, m: Move): System {
    match m
    case Link(i, connected) =>
      if s.up && i < |s.tree| && s.tree[i].device.Some?
      then s.(tree := s.tree[i := Linked(s.tree[i], connected)], queue := s.queue + [Told(s.tree[i].path, connected)])
      else s
    case Rebuild(tree) => if s.up && GoodTree(tree) then s.(tree := tree, queue := s.queue + [TreeMoved]) else s
    case Stop => if s.up then s.(up := false, tree := [], queue := s.queue + [NameDown]) else s
    case Boot(tree) => if !s.up && GoodTree(tree) then s.(up := true, tree := tree, queue := s.queue + [NameUp]) else s
    case Announce => s.(queue := s.queue + [if s.up then NameUp else NameDown])
    case Deliver(now) => if s.queue == [] then s else Receive(s, now)
    case TimerFires => if s.watch.timer.None? then s else Rescanned(s)
  }

  function Play(s: System, moves: seq<Move>): System
    decreases moves
  {
    if moves == [] then s else Play(Next(s, moves[0]), moves[1..])
  }

  /** The watch has just subscribed: nothing is queued, delivered or scanned yet. */
  predicate Subscribed(s: System) {
    && GoodTree(s.tree)
    && (!s.up ==> s.tree == [])
    && s.queue == []
    && s.watch == UNPRIMED
  }

  /** What can happen before the main loop runs: signals queue, none is delivered. */
  predicate Undelivered(moves: seq<Move>) {
    forall i :: 0 <= i < |moves| ==> !moves[i].Deliver? && !moves[i].TimerFires?
  }

  function FirstScan(s: System): System {
    s.(watch := Rescan(s.mac, s.watch, Reply(s)))
  }

  // -------------------------------------------------------------------------
  // Reading the queue
  // -------------------------------------------------------------------------

  /** The last message that is not about a single property. */
  function LastUpheaval(queue: seq<Message>): Option<Message> {
    if queue == [] then None
    else if !queue[|queue| - 1].Told? then Some(queue[|queue| - 1])
    else LastUpheaval(queue[..|queue| - 1])
  }

  /** What the queue will finally say of a path after its last upheaval. */
  function FinalWord(queue: seq<Message>, path: string): Option<bool> {
    if queue == [] then None
    else match queue[|queue| - 1]
         case Told(p, connected) => if p == path then Some(connected) else FinalWord(queue[..|queue| - 1], path)
         case _ => None
  }

  lemma {:induction false} PopFront(queue: seq<Message>, path: string)
    requires queue != []
    ensures LastUpheaval(queue[1..]).Some? ==> LastUpheaval(queue) == LastUpheaval(queue[1..])
    ensures LastUpheaval(queue[1..]).None? ==>
              LastUpheaval(queue) == if queue[0].Told? then None else Some(queue[0])
    ensures FinalWord(queue[1..], path).Some? ==> FinalWord(queue, path) == FinalWord(queue[1..], path)
    ensures LastUpheaval(queue[1..]).None? && FinalWord(queue[1..], path).None? ==>
              FinalWord(queue, path) ==
              match queue[0] case Told(p, b) => (if p == path then Some(b) else None) case _ => None
  {
    if |queue| > 1 {
      var front := queue[..|queue| - 1];
      assert front[1..] == queue[1..][..|queue| - 2];
      PopFront(front, path);
    }
  }

  // -------------------------------------------------------------------------
  // The invariant
  // -------------------------------------------------------------------------

  /** What the queue still says of a device is what the tree says of it now. */
  predicate Truthful(s: System) {
    forall i :: 0 <= i < |s.tree| && s.tree[i].device.Some? ==>
      FinalWord(s.queue, s.tree[i].path) in {None, Some(StatusOf(s.tree[i]).connected)}
  }

  /** Delivering the rest of the queue will leave the watch right. */
  predicate Settling(s: System) {
    var truth := Lookup(s.mac, s.tree);
    && s.watch.path == truth.path
    && (s.watch.path == "" ==> !s.watch.connected)
    && (s.watch.path != "" && FinalWord(s.queue, s.watch.path).None? ==> s.watch.connected == truth.connected)
  }

  /** What is queued fits the tree, whether or not anything has been scanned. */
  predicate Queued(s: System) {
    && GoodTree(s.tree)
    && (!s.up ==> s.tree == [])
    && (LastUpheaval(s.queue) == Some(NameDown) ==> !s.up)
    && Truthful(s)
  }

  predicate Sound(s: System) {
    && Queued(s)
    && CallsFresh(s.watch) && s.watch.primed
    && (s.watch.timer.Some? || LastUpheaval(s.queue).Some? || Settling(s))
  }

  lemma ScanSettles(s: System, v: WatchState)
    requires GoodTree(s.tree) && (!s.up ==> s.tree == []) && CallsFresh(v)
    ensures var t := s.(watch := Rescan(s.mac, v, Reply(s))); Settling(t) && CallsFresh(t.watch) && t.watch.primed
  {
    ScanIsLookup(s.mac, s.tree);
    FirstMatchIsFirst(s.mac, s.tree);
    UpdateFresh(v, Lookup(s.mac, s.tree).connected, Lookup(s.mac, s.tree).path);
  }

  lemma LinkLookup(s: System, i: nat, connected: bool)
    requires i < |s.tree| && s.tree[i].device.Some? && GoodTree(s.tree)
    ensures var tree := s.tree[i := Linked(s.tree[i], connected)];
            && GoodTree(tree)
            && Lookup(s.mac, tree).path == Lookup(s.mac, s.tree).path
            && (Lookup(s.mac, tree).path != s.tree[i].path ==> Lookup(s.mac, tree) == Lookup(s.mac, s.tree))
            && (Lookup(s.mac, tree).path == s.tree[i].path ==> Lookup(s.mac, tree).connected == connected)
  {
    var tree := s.tree[i := Linked(s.tree[i], connected)];
    FirstMatchIsFirst(s.mac, s.tree);
    FirstMatchIsFirst(s.mac, tree);
    assert forall j :: 0 <= j < |tree| ==>
        tree[j].path == s.tree[j].path && (Matches(s.mac, tree[j]) <==> Matches(s.mac, s.tree[j]));
    assert FirstMatch(s.mac, tree) == FirstMatch(s.mac, s.tree);
  }

  lemma ToldLast(queue: seq<Message>, told: Message, path: string)
    requires told.Told?
    ensures LastUpheaval(queue + [told]) == LastUpheaval(queue)
    ensures FinalWord(queue + [told], path) ==
            if told.path == path then Some(told.connected) else FinalWord(queue, path)
  {
    assert (queue + [told])[..|queue|] == queue;
  }

  lemma LinkSound(s: System, i: nat, connected: bool)
    requires Sound(s)
    ensures Sound(Next(s, Link(i, connected)))
  {
    LinkQueued(s, i, connected);
    if s.up && i < |s.tree| && s.tree[i].device.Some? {
      LinkLookup(s, i, connected);
      ToldLast(s.queue, Told(s.tree[i].path, connected), s.watch.path);
    }
  }

  lemma LinkQueued(s: System, i: nat, connected: bool)
    requires Queued(s)
    ensures Queued(Next(s, Link(i, connected)))
  {
    var t := Next(s, Link(i, connected));
    if s.up && i < |s.tree| && s.tree[i].device.Some? {
      LinkLookup(s, i, connected);
      var told := Told(s.tree[i].path, connected);
      forall j | 0 <= j < |t.tree| && t.tree[j].device.Some?
        ensures FinalWord(t.queue, t.tree[j].path) in {None, Some(StatusOf(t.tree[j]).connected)}
      {
        ToldLast(s.queue, told, t.tree[j].path);
        if j != i {
          assert t.tree[j] == s.tree[j];
        }
      }
    }
  }

  lemma UpheavalQueued(s: System, m: Move)
    requires Queued(s) && (m.Rebuild? || m.Stop? || m.Boot? || m.Announce?)
    ensures Queued(Next(s, m)) && (Next(s, m) == s || LastUpheaval(Next(s, m).queue).Some?)
  {
    var t := Next(s, m);
    if t != s {
      var last := t.queue[|s.queue|];
      assert t.queue == s.queue + [last] && !last.Told?;
      UpheavalLast(s.queue, last);
    }
  }

  /** After an upheaval the queue says nothing more of any device. */
  lemma UpheavalLast(queue: seq<Message>, last: Message)
    requires !last.Told?
    ensures LastUpheaval(queue + [last]) == Some(last)
    ensures forall path :: FinalWord(queue + [last], path).None?
  {
  }

  lemma {:induction false} PlayQueued(s: System, moves: seq<Move>)
    requires Queued(s) && Undelivered(moves)
    ensures Queued(Play(s, moves)) && Play(s, moves).mac == s.mac && Play(s, moves).watch == s.watch
    decreases moves
  {
    if moves != [] {
      if moves[0].Link? {
        LinkQueued(s, moves[0].i, moves[0].connected);
      } else {
        UpheavalQueued(s, moves[0]);
      }
      PlayQueued(Next(s, moves[0]), moves[1..]);
    }
  }

  lemma DeliverSound(s: System, now: int)
    requires Sound(s) && s.queue != []
    ensures Sound(Receive(s, now))
  {
    var t := Receive(s, now);
    forall path
      ensures FinalWord(t.queue, path).Some? ==> FinalWord(s.queue, path) == FinalWord(t.queue, path)
    {
      PopFront(s.queue, path);
    }
    PopFront(s.queue, s.watch.path);
    match s.queue[0] {
      case Told(path, connected) =>
        ToldSound(s, now);
      case TreeMoved =>
      case NameUp =>
        ScanSettles(t, s.watch);
      case NameDown =>
        UpdateFresh(s.watch, false, "");
    }
  }

  lemma ToldSound(s: System, now: int)
    requires Sound(s) && s.queue != [] && s.queue[0].Told?
    ensures var t := Receive(s, now);
            && CallsFresh(t.watch) && t.watch.primed && t.watch.timer == s.watch.timer
            && (s.watch.timer.None? && LastUpheaval(t.queue).None? ==> Settling(t))
  {
    var t := Receive(s, now);
    UpdateFresh(s.watch, s.queue[0].connected, s.watch.path);
    PopFront(s.queue, s.watch.path);
    FirstMatchIsFirst(s.mac, s.tree);
    if s.watch.timer.None? && LastUpheaval(t.queue).None? && s.watch.path != "" {
      var k := FirstMatch(s.mac, s.tree).value;
      assert s.tree[k].path == s.watch.path;
      assert FinalWord(s.queue, s.tree[k].path) in {None, Some(StatusOf(s.tree[k]).connected)};
    }
  }

  lemma TimerSound(s: System)
    requires Sound(s)
    ensures Sound(Rescanned(s))
  {
    ScanSettles(s, s.watch.(timer := None));
  }

  lemma {:induction false} PlaySound(s: System, moves: seq<Move>)
    requires Sound(s)
    ensures Sound(Play(s, moves)) && Play(s, moves).mac == s.mac
    decreases moves
  {
    if moves != [] {
      match moves[0] {
        case Link(i, connected) => LinkSound(s, i, connected);
        case Deliver(now) =>
          if s.queue != [] {
            DeliverSound(s, now);
          }
        case TimerFires => TimerSound(s);
        case _ => UpheavalQueued(s, moves[0]);
      }
      PlaySound(Next(s, moves[0]), moves[1..]);
    }
  }

  /** Whatever bluetoothd does, before the first scan and after it, and however its signals interleave with scans: once
      nothing is queued and no rescan is pending, the watch holds the first-match status of the device in the present
      tree; no callback ever repeats the one before it, and the last one reported that status. */
  lemma WatchAgreesWithTree(s: System, early: seq<Move>, moves: seq<Move>)
    requires Subscribed(s) && Undelivered(early)
    ensures var t := Play(FirstScan(Play(s, early)), moves);
            && (forall i :: 0 < i < |t.watch.calls| ==> t.watch.calls[i - 1] != t.watch.calls[i])
            && (t.queue == [] && t.watch.timer.None? ==>
                  && Call(t.watch.connected, t.watch.path) == Lookup(s.mac, t.tree)
                  && t.watch.calls != [] && t.watch.calls[|t.watch.calls| - 1] == Lookup(s.mac, t.tree))
  {
    PlayQueued(s, early);
    var begun := Play(s, early);
    ScanSettles(begun, UNPRIMED);
    PlaySound(FirstScan(begun), moves);
    FirstMatchIsFirst(s.mac, Play(FirstScan(begun), moves).tree);
  }
}
