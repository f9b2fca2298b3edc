/** What each BatteryProvider operation does, as functions of its fields, and the signals BlueZ sees. */
module ProviderModel {
  import opened Basics
  import opened Environment
  import opened States
  import opened Watches

  /** The properties of the exported battery object. */
  datatype Props = Props(device: string, percentage: byte, source: string)

  /** What reaches bluetoothd; `Forgotten` marks it going away and losing everything it knew. */
  datatype Signal = Added(props: Props) | Changed(props: Props) | Removed | Forgotten

  datatype ProviderState = ProviderState(
    adapter: string,
    device: string,
    registered: bool,
    exported: bool,
    percentage: byte,
    source: string,
    signals: seq<Signal>)

  const NEW_PROVIDER := ProviderState("", "", false, false, 0, "", [])

  // -------------------------------------------------------------------------
  // The number and the words
  // -------------------------------------------------------------------------

  /** The usable level of a component. */
  function LevelOf(s: State, key: string): Option<byte> {
    if key in s.components then s.components[key].level else None
  }

  function Lesser(a: Option<byte>, b: Option<byte>): Option<byte> {
    match (a, b)
    case (None, _) => b
    case (_, None) => a
    case (Some(x), Some(y)) => Some(if y < x then y else x)
  }

  function Percentage(s: State): Option<byte> {
    Lesser(LevelOf(s, "left"), LevelOf(s, "right"))
  }

  /** What the Source text can say of one component. */
  datatype Field = Absent | Unreadable | Readable(level: byte)

  function FieldOf(s: State, key: string): Field {
    if key !in s.components then Absent
    else match s.components[key].level case None => Unreadable case Some(n) => Readable(n)
  }

  function FieldText(f: Field): string {
    match f
    case Absent => ""
    case Unreadable => "--"
    case Readable(n) => Decimal(n) + "%"
  }

  const LABELS: seq<string> := ["L", "R", "case"]
  const KEYS: seq<string> := ["left", "right", "case"]

  function FieldsText(sep: string, labels: seq<string>, fields: seq<Field>): string
    requires |labels| == |fields|
    decreases |labels|
  {
    if labels == [] then ""
    else if fields[0].Absent? then FieldsText(sep, labels[1..], fields[1..])
    else sep + labels[0] + " " + FieldText(fields[0]) + FieldsText(", ", labels[1..], fields[1..])
  }

  function Fields(s: State): seq<Field> {
    [FieldOf(s, "left"), FieldOf(s, "right"), FieldOf(s, "case")]
  }

  function SourceText(fields: seq<Field>): string
    requires |fields| == 3
  {
    "AAP at connect" + FieldsText(" -- ", LABELS, fields)
  }

  // -------------------------------------------------------------------------
  // Operations
  // -------------------------------------------------------------------------

  /** First-match lookup of the battery manager and of the device. */
  function FindAdapter(objects: seq<BusObject>): string {
    if objects == [] then ""
    else if objects[0].manager && objects[0].path != "" then objects[0].path
    else FindAdapter(objects[1..])
  }

  function FindDevice(mac: string, objects: seq<BusObject>): string {
    if objects == [] then ""
    else if Matches(mac, objects[0]) && objects[0].path != "" then objects[0].path
    else FindDevice(mac, objects[1..])
  }

  function ResolvePaths(mac: string, v: ProviderState, reply: Option<seq<BusObject>>): ProviderState {
    if reply.None? then v
    else v.(adapter := FindAdapter(reply.value), device := FindDevice(mac, reply.value))
  }

  function Appeared(mac: string, v: ProviderState, reply: Option<seq<BusObject>>): ProviderState {
    if v.registered then v else ResolvePaths(mac, v, reply)
  }

  function Vanished(v: ProviderState): ProviderState {
    v.(registered := false, adapter := "", device := "", exported := false, signals := v.signals + [Forgotten])
  }

  /** Completing a registration only sets the flag. */
  function RegisterDone(v: ProviderState, ok: bool): ProviderState {
    if ok then v.(registered := true) else v
  }

  function PropsOf(v: ProviderState): Props {
    Props(v.device, v.percentage, v.source)
  }

  function AddObject(v: ProviderState, exportable: bool): ProviderState {
    if v.exported || !exportable then v else v.(exported := true, signals := v.signals + [Added(PropsOf(v))])
  }

  function RemoveObject(v: ProviderState): ProviderState {
    if v.exported then v.(exported := false, signals := v.signals + [Removed]) else v
  }

  /** Offering a number and its words to BlueZ, or withdrawing them when there is no number to offer. */
  function Offer(v: ProviderState, pct: Option<byte>, src: string, exportable: bool): ProviderState {
    if pct.None? || v.device == "" then RemoveObject(v)
    else
      var v1 := v.(percentage := pct.value, source := src);
      if !v.exported then AddObject(v1, exportable)
      else if pct.value != v.percentage || src != v.source then v1.(signals := v1.signals + [Changed(PropsOf(v1))])
      else v1
  }

  /** One retry at finding the device, when it is needed and lacking. */
  function Refreshed(mac: string, v: ProviderState, reply: BusReply): ProviderState {
    if v.device == "" then ResolvePaths(mac, v, reply.objects) else v
  }

  function Publish(mac: string, v: ProviderState, s: State, reply: BusReply): ProviderState {
    if !v.registered then v
    else
      Offer(Refreshed(mac, v, reply), if s.channelOpen then Percentage(s) else None, SourceText(Fields(s)),
            reply.exported)
  }

  // -------------------------------------------------------------------------
  // BlueZ's side
  // -------------------------------------------------------------------------

  /** What bluetoothd holds after hearing the signals. */
  function Replica(signals: seq<Signal>): Option<Props> {
    if signals == [] then None
    else match signals[|signals| - 1]
         case Added(props) => Some(props)
         case Changed(props) => Some(props)
         case Removed => None
         case Forgotten => None
  }

  /** The answer to GetManagedObjects on our root. */
  function ManagedObjects(v: ProviderState): Option<Props> {
    if v.exported then Some(PropsOf(v)) else None
  }

  /** A Changed or Removed signal only ever follows something that was there. */
  predicate WellOrdered(signals: seq<Signal>) {
    forall i :: 0 <= i < |signals| ==>
      match signals[i]
      case Added(_) => Replica(signals[..i]).None?
      case Changed(_) => Replica(signals[..i]).Some?
      case Removed => Replica(signals[..i]).Some?
      case Forgotten => true
  }

  predicate ProviderInv(v: ProviderState) {
    && (v.exported ==> v.registered && v.device != "")
    && Replica(v.signals) == ManagedObjects(v)
    && WellOrdered(v.signals)
  }

  lemma OrderedAppend(signals: seq<Signal>, s: Signal)
    requires WellOrdered(signals)
    requires match s
             case Added(_) => Replica(signals).None?
             case Changed(_) => Replica(signals).Some?
             case Removed => Replica(signals).Some?
             case Forgotten => true
    ensures WellOrdered(signals + [s])
  {
    var after := signals + [s];
    forall i | 0 <= i < |after|
      ensures match after[i]
              case Added(_) => Replica(after[..i]).None?
              case Changed(_) => Replica(after[..i]).Some?
              case Removed => Replica(after[..i]).Some?
              case Forgotten => true
    {
      if i < |signals| {
        assert after[..i] == signals[..i];
      } else {
        assert after[..i] == signals;
      }
    }
  }

  /** BlueZ hears of it, in one signal, exactly when what it would be told if it asked has changed. */
  predicate SignalsChange(v: ProviderState, v': ProviderState) {
    && v.signals <= v'.signals && |v'.signals| <= |v.signals| + 1
    && (v'.signals == v.signals <==> ManagedObjects(v') == ManagedObjects(v))
  }

  lemma OfferExact(v: ProviderState, pct: Option<byte>, src: string, exportable: bool)
    requires ProviderInv(v) && v.registered
    ensures var v' := Offer(v, pct, src, exportable);
            && ProviderInv(v') && v'.registered && v'.device == v.device
            && SignalsChange(v, v')
            && (v'.exported ==> pct == Some(v'.percentage) && v'.source == src)
            && (pct.Some? && v.device != "" && (v.exported || exportable) ==> v'.exported)
  {
    var v' := Offer(v, pct, src, exportable);
    if v'.signals != v.signals {
      var s := v'.signals[|v.signals|];
      assert v'.signals == v.signals + [s];
      OrderedAppend(v.signals, s);
    }
  }

  /** What publishing a snapshot leaves on the bus: a number exactly when the channel is open, a pod is readable and
      BlueZ knows the device, and then that snapshot's number. */
  lemma PublishExact(mac: string, v: ProviderState, s: State, reply: BusReply)
    requires ProviderInv(v)
    ensures var v' := Publish(mac, v, s, reply);
            && ProviderInv(v')
            && v'.registered == v.registered
            && SignalsChange(v, v')
            && (v'.exported ==>
                  && s.channelOpen && Percentage(s) == Some(v'.percentage)
                  && v'.source == SourceText(Fields(s)))
            && (v.registered && s.channelOpen && Percentage(s).Some? && v'.device != "" ==>
                  v.exported || reply.exported ==> v'.exported)
  {
    if v.registered {
      OfferExact(Refreshed(mac, v, reply), if s.channelOpen then Percentage(s) else None, SourceText(Fields(s)),
                 reply.exported);
    }
  }

  lemma VanishedInv(v: ProviderState)
    requires ProviderInv(v)
    ensures ProviderInv(Vanished(v))
  {
    OrderedAppend(v.signals, Forgotten);
  }

  // -------------------------------------------------------------------------
  // The number is the lesser pod
  // -------------------------------------------------------------------------

  predicate PodReads(s: State, key: string, n: byte) {
    key in s.components && s.components[key].level == Some(n)
  }

  /** The number of a snapshot is the level of one pod and above that of none; there is none exactly when no pod can be
      read. The case never counts. */
  lemma PercentageIsLesser(s: State, n: byte)
    ensures Percentage(s) == Some(n) <==>
            && (PodReads(s, "left", n) || PodReads(s, "right", n))
            && forall m: byte :: PodReads(s, "left", m) || PodReads(s, "right", m) ==> n <= m
    ensures Percentage(s).None? <==> forall m: byte :: !PodReads(s, "left", m) && !PodReads(s, "right", m)
  {
    var left, right := LevelOf(s, "left"), LevelOf(s, "right");
    assert left.Some? ==> PodReads(s, "left", left.value);
    assert right.Some? ==> PodReads(s, "right", right.value);
  }

  // -------------------------------------------------------------------------
  // The manager is the first
  // -------------------------------------------------------------------------

  predicate IsManager(o: BusObject) {
    o.manager && o.path != ""
  }

  predicate IsFirstManager(objects: seq<BusObject>, k: int) {
    0 <= k < |objects| && IsManager(objects[k]) && forall j :: 0 <= j < k ==> !IsManager(objects[j])
  }

  lemma {:induction false} FindAdapterIsFirst(objects: seq<BusObject>)
    ensures forall k :: IsFirstManager(objects, k) ==> FindAdapter(objects) == objects[k].path
    ensures (forall k :: 0 <= k < |objects| ==> !IsManager(objects[k])) ==> FindAdapter(objects) == ""
    ensures FindAdapter(objects) != "" ==> exists k :: IsFirstManager(objects, k)
  {
    if objects != [] && !IsManager(objects[0]) {
      var rest := objects[1..];
      FindAdapterIsFirst(rest);
      forall k | IsFirstManager(objects, k)
        ensures IsFirstManager(rest, k - 1)
      {
        assert forall j :: 0 <= j < k - 1 ==> rest[j] == objects[j + 1];
      }
      if FindAdapter(objects) != "" {
        var k :| IsFirstManager(rest, k);
        assert IsFirstManager(objects, k + 1) by {
          assert forall j :: 1 <= j < k + 1 ==> objects[j] == rest[j - 1];
        }
      } else if forall k :: 0 <= k < |objects| ==> !IsManager(objects[k]) {
        assert forall k :: 0 <= k < |rest| ==> rest[k] == objects[k + 1];
      }
    } else if objects != [] {
      assert IsFirstManager(objects, 0);
    }
  }

  /** What registering on an appearance of bluetoothd asks: the manager it asks, if it asks at all. */
  function Asks(v: ProviderState, reply: Option<seq<BusObject>>): Option<string> {
    if v.registered || reply.None? || FindAdapter(reply.value) == "" then None else Some(FindAdapter(reply.value))
  }

  // -------------------------------------------------------------------------
  // What Source says
  // -------------------------------------------------------------------------

  /** The text stands for the component, if the snapshot has it. */
  predicate FieldSays(s: State, key: string, text: string) {
    key in s.components ==> SaysLevel(text, s.components[key].level, "--")
  }

  /** The Source text word for word: which label stands before which component's level, and what separates them. */
  lemma SourceReads(s: State, left: string, right: string, box: string)
    requires FieldSays(s, "left", left) && FieldSays(s, "right", right) && FieldSays(s, "case", box)
    ensures SourceText(Fields(s)) ==
            "AAP at connect"
            + (if "left" in s.components then " -- L " + left else "")
            + (if "right" !in s.components then ""
               else (if "left" in s.components then ", R " else " -- R ") + right)
            + (if "case" !in s.components then ""
               else (if "left" in s.components || "right" in s.components then ", case " else " -- case ") + box)
  {
    var f, g, h := FieldOf(s, "left"), FieldOf(s, "right"), FieldOf(s, "case");
    SourcePieces(f, g, h);
    PieceSays(s, "left", left, " -- ", "L ", " -- L ");
    PieceSays(s, "right", right, " -- ", "R ", " -- R ");
    PieceSays(s, "right", right, ", ", "R ", ", R ");
    PieceSays(s, "case", box, " -- ", "case ", " -- case ");
    PieceSays(s, "case", box, ", ", "case ", ", case ");
  }

  lemma PieceSays(s: State, key: string, text: string, sep: string, word: string, lead: string)
    requires FieldSays(s, key, text) && lead == sep + word
    ensures Piece(sep, word, FieldOf(s, key)) == if key in s.components then lead + text else ""
  {
    if key in s.components && s.components[key].level.Some? {
      PercentSays(text, s.components[key].level.value);
    }
  }

  lemma SourcePieces(f: Field, g: Field, h: Field)
    ensures SourceText([f, g, h]) ==
            "AAP at connect"
            + Piece(" -- ", "L ", f)
            + Piece(if f.Absent? then " -- " else ", ", "R ", g)
            + Piece(if f.Absent? && g.Absent? then " -- " else ", ", "case ", h)
  {
    ThreeFields(f, g, h);
    assert [f] + [g, h] == [f, g, h];
    WithLead(Piece(" -- ", "L ", f), Piece(if f.Absent? then " -- " else ", ", "R ", g),
             Piece(if f.Absent? && g.Absent? then " -- " else ", ", "case ", h));
  }

  function Piece(sep: string, word: string, f: Field): string {
    if f.Absent? then "" else sep + word + FieldText(f)
  }

  lemma WithLead(a: string, b: string, c: string)
    ensures "AAP at connect" + (a + b + c) == "AAP at connect" + a + b + c
  {
  }

  lemma OneField(sep: string, word: string, f: Field)
    ensures FieldsText(sep, [word], [f]) == Piece(sep, word + " ", f)
  {
    assert [word][1..] == [] && [f][1..] == [];
    if !f.Absent? {
      assert sep + word + " " + FieldText(f) + "" == sep + (word + " ") + FieldText(f);
    }
  }

  lemma TwoFields(sep: string, labels: seq<string>, f: Field, g: Field)
    requires |labels| == 2
    ensures FieldsText(sep, labels, [f, g]) ==
            Piece(sep, labels[0] + " ", f) + Piece(if f.Absent? then sep else ", ", labels[1] + " ", g)
  {
    assert labels[1..] == [labels[1]] && [f, g][1..] == [g];
    OneField(sep, labels[1], g);
    OneField(", ", labels[1], g);
    if !f.Absent? {
      assert sep + labels[0] + " " + FieldText(f) == sep + (labels[0] + " ") + FieldText(f);
    }
  }

  lemma ThreeFields(f: Field, g: Field, h: Field)
    ensures FieldsText(" -- ", LABELS, [f] + [g, h]) ==
            Piece(" -- ", "L ", f)
            + Piece(if f.Absent? then " -- " else ", ", "R ", g)
            + Piece(if f.Absent? && g.Absent? then " -- " else ", ", "case ", h)
  {
    var sep := if f.Absent? then " -- " else ", ";
    FirstField(f, [g, h]);
    LastTwoFields(sep, g, h);
    Regroup(Piece(" -- ", "L ", f), Piece(sep, "R ", g), Piece(if g.Absent? then sep else ", ", "case ", h));
  }

  lemma FirstField(f: Field, rest: seq<Field>)
    requires |rest| == 2
    ensures FieldsText(" -- ", LABELS, [f] + rest) ==
            Piece(" -- ", "L ", f) + FieldsText(if f.Absent? then " -- " else ", ", LABELS[1..], rest)
  {
    assert ([f] + rest)[1..] == rest;
    assert " -- " + "L" + " " == " -- " + "L ";
  }

  lemma LastTwoFields(sep: string, g: Field, h: Field)
    ensures FieldsText(sep, LABELS[1..], [g, h]) ==
            Piece(sep, "R ", g) + Piece(if g.Absent? then sep else ", ", "case ", h)
  {
    TwoFields(sep, LABELS[1..], g, h);
    assert "R" + " " == "R " && "case" + " " == "case ";
  }

  lemma Regroup(a: string, b: string, c: string)
    ensures a + (b + c) == a + b + c
  {
  }

  // -------------------------------------------------------------------------
  // Source tells snapshots apart
  // -------------------------------------------------------------------------

  lemma FieldTextInjective(f: Field, g: Field)
    requires !f.Absent? && !g.Absent? && FieldText(f) == FieldText(g)
    ensures f == g
  {
    var x, y := FieldText(f), FieldText(g);
    if f.Readable? && g.Readable? {
      assert x[..|x| - 1] == Decimal(f.level);
      assert y[..|y| - 1] == Decimal(g.level);
      DecimalInjective(f.level, g.level);
    } else {
      assert x[0] == y[0];
    }
  }

  lemma {:induction false} FieldsTextHead(sep: string, labels: seq<string>, fields: seq<Field>)
    requires |labels| == |fields|
    ensures var text := FieldsText(sep, labels, fields);
            text == "" || exists i :: 0 <= i < |labels| && !fields[i].Absent? && sep + labels[i] <= text
    decreases |labels|
  {
    if labels != [] {
      var text := FieldsText(sep, labels, fields);
      if fields[0].Absent? {
        FieldsTextHead(sep, labels[1..], fields[1..]);
        if text != "" {
          var i :| 0 <= i < |labels[1..]| && !fields[1..][i].Absent? && sep + labels[1..][i] <= text;
          assert labels[i + 1] == labels[1..][i] && fields[i + 1] == fields[1..][i];
        }
      } else {
        assert text[..|sep + labels[0]|] == sep + labels[0];
        assert sep + labels[0] <= text;
      }
    }
  }

  /** The labels begin with different letters. */
  predicate Distinct(labels: seq<string>) {
    forall i :: 0 <= i < |labels| ==>
      labels[i] != "" && forall j :: 0 <= j < i ==> labels[j] != "" && labels[i][0] != labels[j][0]
  }

  lemma FieldTextNoComma(f: Field)
    ensures ',' !in FieldText(f)
  {
  }

  lemma {:induction false} AbsentDiffers(sep: string, labels: seq<string>, fields: seq<Field>, others: seq<Field>)
    requires |labels| == |fields| == |others| > 0 && Distinct(labels) && sep != ""
    requires fields[0].Absent? && !others[0].Absent?
    ensures FieldsText(sep, labels, fields) != FieldsText(sep, labels, others)
  {
    var x, y := FieldsText(sep, labels, fields), FieldsText(sep, labels, others);
    assert y[..|sep + labels[0]|] == sep + labels[0];
    assert y[|sep|] == labels[0][0];
    FieldsTextHead(sep, labels, fields);
    if x != "" {
      var i :| 0 <= i < |labels| && !fields[i].Absent? && sep + labels[i] <= x;
      assert x[|sep|] == (sep + labels[i])[|sep|] == labels[i][0];
      assert labels[i][0] != labels[0][0];
    }
  }

  lemma CancelLabel(lead: string, x: string, xs: string, y: string, ys: string)
    requires lead + x + xs == lead + y + ys
    ensures x + xs == y + ys
  {
    assert lead + (x + xs) == lead + x + xs && lead + (y + ys) == lead + y + ys;
    CancelLead(lead, x + xs, y + ys);
  }

  /** Where both say something of the first component, they say the same and go on with equal texts. */
  lemma FirstFieldEqual(sep: string, labels: seq<string>, fields: seq<Field>, others: seq<Field>)
    requires |labels| == |fields| == |others| > 0
    requires !fields[0].Absent? && !others[0].Absent?
    requires FieldsText(sep, labels, fields) == FieldsText(sep, labels, others)
    ensures fields[0] == others[0]
    ensures FieldsText(", ", labels[1..], fields[1..]) == FieldsText(", ", labels[1..], others[1..])
  {
    var lead := sep + labels[0] + " ";
    var x, y := FieldText(fields[0]), FieldText(others[0]);
    var xs, ys := FieldsText(", ", labels[1..], fields[1..]), FieldsText(", ", labels[1..], others[1..]);
    CancelLabel(lead, x, xs, y, ys);
    FieldTextNoComma(fields[0]);
    FieldTextNoComma(others[0]);
    StartsWithComma(labels[1..], fields[1..]);
    StartsWithComma(labels[1..], others[1..]);
    SplitUnique(',', x, xs, y, ys);
    FieldTextInjective(fields[0], others[0]);
  }

  lemma {:induction false} FieldsTextInjective(sep: string, labels: seq<string>, fields: seq<Field>, others: seq<Field>)
    requires |labels| == |fields| == |others| && Distinct(labels) && sep != ""
    requires FieldsText(sep, labels, fields) == FieldsText(sep, labels, others)
    ensures fields == others
    decreases |labels|
  {
    if labels != [] {
      if fields[0].Absent? && !others[0].Absent? {
        AbsentDiffers(sep, labels, fields, others);
      } else if !fields[0].Absent? && others[0].Absent? {
        AbsentDiffers(sep, labels, others, fields);
      } else if !fields[0].Absent? {
        FirstFieldEqual(sep, labels, fields, others);
        FieldsTextInjective(", ", labels[1..], fields[1..], others[1..]);
      } else {
        FieldsTextInjective(sep, labels[1..], fields[1..], others[1..]);
      }
      assert fields == [fields[0]] + fields[1..] && others == [others[0]] + others[1..];
    }
  }

  lemma {:induction false} StartsWithComma(labels: seq<string>, fields: seq<Field>)
    requires |labels| == |fields|
    ensures var text := FieldsText(", ", labels, fields); text != "" ==> text[0] == ','
  {
    FieldsTextHead(", ", labels, fields);
  }

  /** Two snapshots have the same Source exactly when left, right and case agree on absent, unreadable or level. */
  lemma SourceInjective(fields: seq<Field>, others: seq<Field>)
    requires |fields| == |others| == 3
    ensures SourceText(fields) == SourceText(others) <==> fields == others
  {
    if SourceText(fields) == SourceText(others) {
      var lead := "AAP at connect";
      assert SourceText(fields)[|lead|..] == FieldsText(" -- ", LABELS, fields);
      assert SourceText(others)[|lead|..] == FieldsText(" -- ", LABELS, others);
      assert LABELS[0][0] == 'L' && LABELS[1][0] == 'R' && LABELS[2][0] == 'c';
      FieldsTextInjective(" -- ", LABELS, fields, others);
    }
  }
}
