/** The session-bus service: property encoding, change detection, and what a client's copy is worth. */
module Dbus {
  import opened Basics
  import opened States

  /** A value inside one component's dictionary. */
  datatype Variant = Str(text: string) | Byte(n: byte) | Flag(on: bool)

  datatype Key = Status | Level | RawLevel | FramingAnomaly

  type Dict = map<Key, Variant>

  /** The properties of io.github.scott8420.Airprobe1 that come from a snapshot; BatteryAgeMs is asked for live. */
  datatype Name = Address | Phase | ChannelOpen | StatusLine | HaveBattery | ParseRefusals | ComponentTable

  /** The value of a whole property. */
  datatype Property = Text(text: string) | Truth(on: bool) | Int32(n: int) | Table(dicts: map<string, Dict>)

  function EncodeComponent(c: ComponentView): Dict {
    map[Status := Str(c.status)]
    + (if c.level.Some? then map[Level := Byte(c.level.value)] else map[])
    + map[RawLevel := Byte(c.rawLevel)]
    + (if c.anomaly then map[FramingAnomaly := Flag(true)] else map[])
  }

  function EncodeComponents(components: map<string, ComponentView>): map<string, Dict> {
    map key | key in components :: EncodeComponent(components[key])
  }

  const NAMES: set<Name> := {Address, Phase, ChannelOpen, StatusLine, HaveBattery, ParseRefusals, ComponentTable}

  function ValueOf(s: State, name: Name): Property {
    match name
    case Address => Text(s.address)
    case Phase => Text(s.phase)
    case ChannelOpen => Truth(s.channelOpen)
    case StatusLine => Text(s.status)
    case HaveBattery => Truth(s.haveBattery)
    case ParseRefusals => Int32(s.parseRefusals)
    case ComponentTable => Table(EncodeComponents(s.components))
  }

  function Properties(s: State): map<Name, Property> {
    map name | name in NAMES :: ValueOf(s, name)
  }

  /** `exported` holds once the object is registered on a connection; `signals` is every PropertiesChanged. */
  datatype ServiceState = ServiceState(state: State, published: bool, exported: bool, signals: seq<map<Name, Property>>)

  const BLANK := State("", "closed", false, "starting", false, 0, map[])
  const NEW_SERVICE := ServiceState(BLANK, false, false, [])

  /** Change detection compares the snapshots field by field, not their encodings. */
  predicate Differs(prev: State, now: State, name: Name) {
    match name
    case Address => prev.address != now.address
    case Phase => prev.phase != now.phase
    case ChannelOpen => prev.channelOpen != now.channelOpen
    case StatusLine => prev.status != now.status
    case HaveBattery => prev.haveBattery != now.haveBattery
    case ParseRefusals => prev.parseRefusals != now.parseRefusals
    case ComponentTable => prev.components != now.components
  }

  function ChangesIn(names: seq<Name>, prev: State, now: State): map<Name, Property> {
    if names == [] then map[]
    else
      var rest := ChangesIn(names[..|names| - 1], prev, now);
      var name := names[|names| - 1];
      if Differs(prev, now, name) then rest[name := ValueOf(now, name)] else rest
  }

  const ORDER: seq<Name> := [Address, Phase, ChannelOpen, StatusLine, HaveBattery, ParseRefusals, ComponentTable]

  function ChangedProperties(prev: State, now: State): map<Name, Property> {
    ChangesIn(ORDER, prev, now)
  }

  /** The bus is ours; registering the object on it may still fail. */
  function Acquired(v: ServiceState, ok: bool): ServiceState {
    v.(exported := ok)
  }

  function Publish(v: ServiceState, s: State): ServiceState {
    if v.published && s == v.state then v
    else
      var v1 := v.(state := s);
      if !v.published then v1.(published := true)
      else if !v.exported then v1
      else
        var changed := ChangedProperties(v.state, s);
        if changed == map[] then v1 else v1.(signals := v1.signals + [changed])
  }

  function PublishAll(v: ServiceState, states: seq<State>): ServiceState
    decreases states
  {
    if states == [] then v else PublishAll(Publish(v, states[0]), states[1..])
  }

  class DbusService {
    var state: State
    var published: bool
    var exported: bool
    var signals: seq<map<Name, Property>>

    function View(): ServiceState
      reads this
    {
      ServiceState(state, published, exported, signals)
    }

    constructor ()
      ensures View() == NEW_SERVICE
    {
      state, published, exported, signals := BLANK, false, false, [];
    }

    method OnBusAcquired(ok: bool)
      modifies this`exported
      ensures View() == Acquired(old(View()), ok)
    {
      exported := ok;
    }

    static method ComponentVariant(c: ComponentView) returns (dict: Dict)
      ensures dict == EncodeComponent(c)
    {
      dict := map[Status := Str(c.status)];
      if c.level.Some? { dict := dict[Level := Byte(c.level.value)]; }
      dict := dict[RawLevel := Byte(c.rawLevel)];
      if c.anomaly { dict := dict[FramingAnomaly := Flag(true)]; }
    }

    method ComponentsVariant() returns (dicts: map<string, Dict>)
      ensures dicts == EncodeComponents(state.components)
    {
      dicts := map[];
      var left := state.components.Keys;
      while left != {}
        invariant left <= state.components.Keys
        invariant dicts == map key | key in state.components && key !in left :: EncodeComponent(state.components[key])
        decreases left
      {
        var key :| key in left;
        var dict := ComponentVariant(state.components[key]);
        dicts := dicts[key := dict];
        left := left - {key};
      }
    }

    method GetProperty(name: Name) returns (value: Property)
      ensures value == ValueOf(state, name)
    {
      match name {
        case Address => value := Text(state.address);
        case Phase => value := Text(state.phase);
        case ChannelOpen => value := Truth(state.channelOpen);
        case StatusLine => value := Text(state.status);
        case HaveBattery => value := Truth(state.haveBattery);
        case ParseRefusals => value := Int32(state.parseRefusals);
        case ComponentTable =>
          var dicts := ComponentsVariant();
          value := Table(dicts);
      }
    }

    method DoPublish(s: State)
      modifies this
      ensures View() == Publish(old(View()), s)
    {
      if published && s == state { return; }
      var prev := state;
      state := s;
      if !published {
        published := true;
        return;
      }
      if !exported { return; }
      var changed: map<Name, Property> := map[];
      for i := 0 to |ORDER|
        invariant state == s && published && exported && signals == old(signals)
        invariant changed == ChangesIn(ORDER[..i], prev, s)
      {
        assert ORDER[..i + 1][..i] == ORDER[..i];
        if Differs(prev, s, ORDER[i]) {
          var value := GetProperty(ORDER[i]);
          changed := changed[ORDER[i] := value];
        }
      }
      assert ORDER[..|ORDER|] == ORDER;
      if changed == map[] { return; }
      signals := signals + [changed];
    }
  }

  // -------------------------------------------------------------------------
  // Reading the encoding back, as the tile does
  // -------------------------------------------------------------------------

  /** One component from its dictionary: no Level key, no level. */
  function DecodeComponent(d: Dict): ComponentView {
    ComponentView(
      if Status in d && d[Status].Str? then d[Status].text else "unknown",
      if Level in d && d[Level].Byte? then Some(d[Level].n) else None,
      if RawLevel in d && d[RawLevel].Byte? then d[RawLevel].n else 0,
      FramingAnomaly in d && d[FramingAnomaly] == Flag(true))
  }

  function DecodeComponents(raw: Option<map<string, Dict>>): map<string, ComponentView> {
    if raw.None? then map[] else map key | key in raw.value :: DecodeComponent(raw.value[key])
  }

  method ComponentsFromDbus(raw: Option<map<string, Dict>>) returns (out: map<string, ComponentView>)
    ensures out == DecodeComponents(raw)
  {
    out := map[];
    if raw.None? { return; }
    var left := raw.value.Keys;
    while left != {}
      invariant left <= raw.value.Keys
      invariant out == map key | key in raw.value && key !in left :: DecodeComponent(raw.value[key])
      decreases left
    {
      var key :| key in left;
      var dict := raw.value[key];
      var c := ComponentView(
        if Status in dict && dict[Status].Str? then dict[Status].text else "unknown",
        None,
        if RawLevel in dict && dict[RawLevel].Byte? then dict[RawLevel].n else 0,
        FramingAnomaly in dict && dict[FramingAnomaly] == Flag(true));
      if Level in dict && dict[Level].Byte? { c := c.(level := Some(dict[Level].n)); }
      out := out[key := c];
      left := left - {key};
    }
  }

  /** One component on the bus, key by key: status and raw level always, a level only if there is one, the anomaly flag
      only if it is set. */
  lemma ComponentWire(components: map<string, ComponentView>, key: string)
    ensures key in EncodeComponents(components) <==> key in components
    ensures key in components ==>
              OnWire(EncodeComponents(components)[key], components[key])
  {
    if key in components {
      OneOnWire(components[key]);
      assert EncodeComponents(components)[key] == EncodeComponent(components[key]);
    }
  }

  predicate OnWire(d: Dict, c: ComponentView) {
    && Status in d && d[Status] == Str(c.status)
    && RawLevel in d && d[RawLevel] == Byte(c.rawLevel)
    && (Level in d <==> c.level.Some?) && (Level in d ==> d[Level] == Byte(c.level.value))
    && (FramingAnomaly in d <==> c.anomaly) && (FramingAnomaly in d ==> d[FramingAnomaly] == Flag(true))
  }

  lemma OneOnWire(c: ComponentView)
    ensures OnWire(EncodeComponent(c), c)
  {
  }

  /** A dictionary as the tile reads it, key by key: what is missing comes out as "unknown", no level, 0 and no
      anomaly. */
  lemma ComponentRead(d: Dict)
    ensures var c := DecodeComponent(d);
            && (forall text :: Status in d && d[Status] == Str(text) ==> c.status == text)
            && (Status !in d ==> c.status == "unknown")
            && (forall n: byte :: Level in d && d[Level] == Byte(n) ==> c.level == Some(n))
            && (Level !in d ==> c.level.None?)
            && (forall n: byte :: RawLevel in d && d[RawLevel] == Byte(n) ==> c.rawLevel == n)
            && (RawLevel !in d ==> c.rawLevel == 0)
            && (c.anomaly <==> FramingAnomaly in d && d[FramingAnomaly] == Flag(true))
  {
  }

  lemma ComponentRoundTrip(c: ComponentView)
    ensures DecodeComponent(EncodeComponent(c)) == c
  {
    assert Status in EncodeComponent(c);
  }

  /** Absent, unreadable and zero stay distinct over the bus. */
  lemma ComponentsRoundTrip(components: map<string, ComponentView>)
    ensures DecodeComponents(Some(EncodeComponents(components))) == components
  {
    forall key | key in components
      ensures DecodeComponents(Some(EncodeComponents(components)))[key] == components[key]
    {
      ComponentRoundTrip(components[key]);
    }
  }

  // -------------------------------------------------------------------------
  // Change detection
  // -------------------------------------------------------------------------

  lemma {:induction false} ChangesInExact(names: seq<Name>, prev: State, now: State)
    ensures forall name: Name :: name in ChangesIn(names, prev, now) <==> name in names && Differs(prev, now, name)
    ensures forall name: Name :: name in ChangesIn(names, prev, now) ==>
              ChangesIn(names, prev, now)[name] == ValueOf(now, name)
  {
    if names != [] {
      ChangesInExact(names[..|names| - 1], prev, now);
      assert names == names[..|names| - 1] + [names[|names| - 1]];
    }
  }

  lemma Listed(name: Name)
    ensures name in NAMES && name in ORDER
  {
    assert ORDER[0] == Address && ORDER[1] == Phase && ORDER[2] == ChannelOpen && ORDER[3] == StatusLine
        && ORDER[4] == HaveBattery && ORDER[5] == ParseRefusals && ORDER[6] == ComponentTable;
    match name {
      case Address =>
      case _ =>
    }
  }

  lemma TableExact(a: map<string, ComponentView>, b: map<string, ComponentView>)
    ensures a == b <==> EncodeComponents(a) == EncodeComponents(b)
  {
    ComponentsRoundTrip(a);
    ComponentsRoundTrip(b);
  }

  lemma DiffersExact(prev: State, now: State, name: Name)
    ensures Differs(prev, now, name) <==> ValueOf(prev, name) != ValueOf(now, name)
  {
    match name {
      case ComponentTable => TableExact(prev.components, now.components);
      case _ =>
    }
  }

  /** A signal carries exactly the properties whose values on the bus differ, with their new values. */
  lemma ChangedExact(prev: State, now: State)
    ensures forall name: Name :: name in ChangedProperties(prev, now) <==> ValueOf(prev, name) != ValueOf(now, name)
    ensures forall name: Name :: name in ChangedProperties(prev, now) ==>
              ChangedProperties(prev, now)[name] == ValueOf(now, name)
  {
    ChangesInExact(ORDER, prev, now);
    forall name: Name
      ensures name in ORDER && (Differs(prev, now, name) <==> ValueOf(prev, name) != ValueOf(now, name))
    {
      DiffersExact(prev, now, name);
      Listed(name);
    }
  }

  /** A client that read every property and then merged every signal. */
  function Merged(copy: map<Name, Property>, signals: seq<map<Name, Property>>): map<Name, Property> {
    if signals == [] then copy else Merged(copy, signals[..|signals| - 1]) + signals[|signals| - 1]
  }

  lemma MergeChanged(prev: State, now: State)
    ensures Properties(prev) + ChangedProperties(prev, now) == Properties(now)
  {
    ChangedExact(prev, now);
    var merged := Properties(prev) + ChangedProperties(prev, now);
    forall name: Name
      ensures name in merged && name in Properties(now) && merged[name] == Properties(now)[name]
    {
      Listed(name);
    }
  }

  lemma MergedAppend(copy: map<Name, Property>, signals: seq<map<Name, Property>>, more: seq<map<Name, Property>>)
    ensures Merged(copy, signals + more) == Merged(Merged(copy, signals), more)
  {
    if more == [] {
      assert signals + more == signals;
    } else {
      assert (signals + more)[..|signals + more| - 1] == signals + more[..|more| - 1];
      MergedAppend(copy, signals, more[..|more| - 1]);
    }
  }

  /** A publish always takes the snapshot over; it tells nobody before the object is on the bus, nor the first time. */
  lemma PublishTakes(v: ServiceState, s: State)
    ensures var v' := Publish(v, s);
            && v'.state == s && v'.published && v'.exported == v.exported
            && (v'.signals != v.signals ==> v.exported && v.published && s != v.state)
  {
  }

  /** What one publish tells the bus. */
  lemma PublishOne(v: ServiceState, s: State)
    requires v.exported
    ensures var v' := Publish(v, s);
            && v'.exported && v'.published && v'.state == s
            && v.signals <= v'.signals && |v'.signals| <= |v.signals| + 1
            && (|v'.signals| > |v.signals| <==> v.published && s != v.state)
            && (v.published ==> Merged(Properties(v.state), v'.signals[|v.signals|..]) == Properties(s))
  {
    var v' := Publish(v, s);
    MergeChanged(v.state, s);
    if ChangedProperties(v.state, s) == map[] {
      NoChanges(v.state, s);
    }
    if v'.signals != v.signals {
      assert v'.signals[|v.signals|..] == [ChangedProperties(v.state, s)];
      assert Merged(Properties(v.state), [ChangedProperties(v.state, s)])
          == Merged(Properties(v.state), []) + ChangedProperties(v.state, s);
    } else {
      assert v'.signals[|v.signals|..] == [];
    }
  }

  lemma NoneDiffer(s: State, t: State)
    requires forall name: Name :: !Differs(s, t, name)
    ensures s == t
  {
    assert !Differs(s, t, Address) && !Differs(s, t, Phase) && !Differs(s, t, ChannelOpen) && !Differs(s, t, StatusLine)
        && !Differs(s, t, HaveBattery) && !Differs(s, t, ParseRefusals) && !Differs(s, t, ComponentTable);
  }

  /** Two snapshots look alike on the bus only if they are equal. */
  lemma SameProperties(s: State, t: State)
    ensures Properties(s) == Properties(t) <==> s == t
  {
    if Properties(s) == Properties(t) {
      forall name: Name
        ensures !Differs(s, t, name)
      {
        Listed(name);
        DiffersExact(s, t, name);
        assert Properties(s)[name] == Properties(t)[name];
      }
      NoneDiffer(s, t);
    }
  }

  lemma NoChanges(s: State, t: State)
    requires ChangedProperties(s, t) == map[]
    ensures s == t
  {
    ChangesInExact(ORDER, s, t);
    forall name: Name
      ensures !Differs(s, t, name)
    {
      Listed(name);
    }
    NoneDiffer(s, t);
  }

  /** A copy taken after the first publish stays equal to the published state, whatever is published next. */
  lemma {:induction false} ReplicaTracks(v: ServiceState, states: seq<State>)
    requires v.exported && v.published
    ensures var v' := PublishAll(v, states);
            && v.signals <= v'.signals
            && Merged(Properties(v.state), v'.signals[|v.signals|..]) == Properties(v'.state)
            && v'.state == if states == [] then v.state else states[|states| - 1]
    decreases states
  {
    if states == [] {
      assert v.signals[|v.signals|..] == [];
    } else {
      var v1 := Publish(v, states[0]);
      PublishOne(v, states[0]);
      ReplicaTracks(v1, states[1..]);
      var v' := PublishAll(v, states);
      assert v'.signals[|v.signals|..] == v1.signals[|v.signals|..] + v'.signals[|v1.signals|..];
      MergedAppend(Properties(v.state), v1.signals[|v.signals|..], v'.signals[|v1.signals|..]);
    }
  }

  /** A copy taken at any time survives the next publish exactly when something had been published before, or the
      first snapshot says nothing new: the first publish is silent. */
  lemma CopySurvives(v: ServiceState, s: State)
    requires v.exported
    ensures var v' := Publish(v, s);
            && v.signals <= v'.signals
            && (Merged(Properties(v.state), v'.signals[|v.signals|..]) == Properties(v'.state)
                <==> v.published || s == v.state)
  {
    PublishOne(v, s);
    if !v.published {
      assert Publish(v, s).signals[|v.signals|..] == [];
      SameProperties(v.state, s);
    }
  }

  /** Such a copy does go stale, where the service is used on its own and put on the bus before the first publish. */
  lemma EarlyCopyGoesStale()
    ensures var v := NEW_SERVICE.(exported := true);
            var v' := Publish(v, BLANK.(status := "channel open"));
            Merged(Properties(v.state), v'.signals[|v.signals|..]) != Properties(v'.state)
  {
    var v := NEW_SERVICE.(exported := true);
    assert "starting"[0] != "channel open"[0];
    CopySurvives(v, BLANK.(status := "channel open"));
  }
}
