/** The words on the tile, and what a reader can conclude from them. */
module Format {
  import opened Basics
  import opened Battery
  import opened States
  import opened Dbus

  const DASH := "\U{2014}"
  const SEP := " \U{00b7} "

  /** Math.round, on the non-negative quotients it is used for. */
  function Round(n: nat, d: nat): nat
    requires d > 0
  {
    (2 * n + d) / (2 * d)
  }

  function FormatAge(ms: int): string {
    if ms < 0 then "age unknown"
    else
      var s := ms / 1000;
      if s < 45 then "just now"
      else
        var m := Round(s, 60);
        if m < 60 then Decimal(m) + " min ago"
        else
          var h := Round(m, 60);
          if h < 24 then (if h == 1 then "1 hr ago" else Decimal(h) + " hr ago")
          else
            var d := Round(h, 24);
            if d == 1 then "1 day ago" else Decimal(d) + " days ago"
  }

  // -------------------------------------------------------------------------
  // What an age label means
  // -------------------------------------------------------------------------

  datatype Unit = Seconds | Minutes | Hours | Days

  datatype Label = Label(count: nat, unit: Unit)

  function LabelOf(ms: nat): Label {
    var s := ms / 1000;
    var m := Round(s, 60);
    var h := Round(m, 60);
    if s < 45 then Label(0, Seconds)
    else if m < 60 then Label(m, Minutes)
    else if h < 24 then Label(h, Hours)
    else Label(Round(h, 24), Days)
  }

  function Spell(l: Label): string {
    match l.unit
    case Seconds => "just now"
    case Minutes => Decimal(l.count) + " min ago"
    case Hours => Decimal(l.count) + " hr ago"
    case Days => Decimal(l.count) + if l.count == 1 then " day ago" else " days ago"
  }

  /** A label read as a duration, in seconds. */
  function Duration(l: Label): nat {
    match l.unit
    case Seconds => 0
    case Minutes => 60 * l.count
    case Hours => 3600 * l.count
    case Days => 86400 * l.count
  }

  lemma RoundMonotone(n: nat, m: nat)
    requires n <= m
    ensures Round(n, 60) <= Round(m, 60) && Round(n, 24) <= Round(m, 24)
  {
  }

  /** The printed age is the spelling of its label. */
  lemma AgeSpelling(ms: nat)
    ensures FormatAge(ms) == Spell(LabelOf(ms))
  {
    assert Decimal(1) == "1";
  }

  /** Labels as they are made: less than a minute has no count. */
  predicate Proper(l: Label) {
    l.unit == Seconds ==> l.count == 0
  }

  function Suffix(l: Label): string {
    match l.unit
    case Seconds => " now"
    case Minutes => " min ago"
    case Hours => " hr ago"
    case Days => if l.count == 1 then " day ago" else " days ago"
  }

  lemma SpellSplits(l: Label)
    ensures Spell(l) == (if l.unit == Seconds then "just" else Decimal(l.count)) + Suffix(l)
  {
  }

  lemma SuffixTells(l: Label, k: Label)
    requires Suffix(l) == Suffix(k)
    ensures l.unit == k.unit
  {
    assert Suffix(l)[1] == Suffix(k)[1];
  }

  /** The printed age determines the count and the unit. */
  lemma SpellInjective(l: Label, k: Label)
    requires Proper(l) && Proper(k) && Spell(l) == Spell(k)
    ensures l == k
  {
    var x := if l.unit == Seconds then "just" else Decimal(l.count);
    var y := if k.unit == Seconds then "just" else Decimal(k.count);
    SpellSplits(l);
    SpellSplits(k);
    SplitUnique(' ', x, Suffix(l), y, Suffix(k));
    SuffixTells(l, k);
    if l.unit != Seconds {
      DecimalInjective(l.count, k.count);
    }
  }

  /** Two readings show the same age exactly when their ages round to the same label; an unknown age looks like none. */
  lemma PrintedAgeTells(x: int, y: int)
    ensures FormatAge(x) == FormatAge(y) <==> (x < 0 && y < 0) || (x >= 0 && y >= 0 && LabelOf(x) == LabelOf(y))
  {
    if x >= 0 {
      AgeSpelling(x);
    }
    if y >= 0 {
      AgeSpelling(y);
    }
    if x >= 0 && y >= 0 {
      if FormatAge(x) == FormatAge(y) {
        SpellInjective(LabelOf(x), LabelOf(y));
      }
    } else if x >= 0 || y >= 0 {
      assert "age unknown"[0] == 'a';
    }
  }

  /** The printed age word for word, `digits` being the numeral of its count. */
  lemma AgeReads(ms: int, digits: string)
    requires ms >= 0 ==> Names(digits, LabelOf(ms).count)
    ensures FormatAge(ms) ==
            if ms < 0 then "age unknown"
            else match LabelOf(ms).unit
                 case Seconds => "just now"
                 case Minutes => digits + " min ago"
                 case Hours => digits + " hr ago"
                 case Days => digits + if LabelOf(ms).count == 1 then " day ago" else " days ago"
  {
    if ms >= 0 {
      AgeSpelling(ms);
      NamesOnce(digits, LabelOf(ms).count);
    }
  }

  /** The units meet at 45 seconds, 59.5 minutes and 23 hours 29.5 minutes, and each count is rounded half up from the
      count of the unit below: read as a duration the age is off by at most half a minute, half an hour and half a
      minute, or half a day, half an hour and half a minute, and never zero of a unit. */
  lemma AgeRounding(ms: nat)
    ensures var l, s := LabelOf(ms), ms / 1000;
            && l.unit == (if s < 45 then Seconds else if s < 3570 then Minutes else if s < 84570 then Hours else Days)
            && match l.unit
               case Seconds => l.count == 0
               case Minutes => 1 <= l.count < 60 && -30 < Duration(l) - s <= 30
               case Hours => 1 <= l.count < 24 && -1770 < Duration(l) - s <= 1830
               case Days => 1 <= l.count && -41370 < Duration(l) - s <= 45030
  {
    var s := ms / 1000;
    MinutesRound(s);
    var m := Round(s, 60);
    HoursRound(m);
    DaysRound(Round(m, 60));
  }

  lemma MinutesRound(s: nat)
    ensures -30 < 60 * Round(s, 60) - s <= 30
  {
  }

  lemma HoursRound(m: nat)
    ensures -30 < 60 * Round(m, 60) - m <= 30
  {
  }

  lemma DaysRound(h: nat)
    ensures -12 < 24 * Round(h, 24) - h <= 12
  {
  }

  /** An older reading never gets a shorter label. */
  lemma AgeMonotone(x: nat, y: nat)
    requires x <= y
    ensures Duration(LabelOf(x)) <= Duration(LabelOf(y))
  {
    var m, n := Round(x / 1000, 60), Round(y / 1000, 60);
    RoundMonotone(x / 1000, y / 1000);
    RoundMonotone(m, n);
    RoundMonotone(Round(m, 60), Round(n, 60));
  }

  // -------------------------------------------------------------------------
  // The tile
  // -------------------------------------------------------------------------

  datatype TileView = TileView(
    daemonPresent: bool,
    phase: string,
    channelOpen: bool,
    haveBattery: bool,
    ageMs: int,
    components: map<string, ComponentView>)

  /** Absent and unreadable both come out as the dash. */
  function LevelText(component: Option<ComponentView>): string {
    LevelWords(if component.None? then None else component.value.level)
  }

  function LevelWords(level: Option<byte>): string {
    if level.None? then DASH else Decimal(level.value) + "%"
  }

  function Pod(v: TileView, c: Component): Option<ComponentView> {
    if ComponentName(c) in v.components then Some(v.components[ComponentName(c)]) else None
  }

  function PodLevel(v: TileView, c: Component): Option<byte> {
    if Pod(v, c).None? then None else Pod(v, c).value.level
  }

  predicate AnyPodReading(v: TileView) {
    PodLevel(v, Left).Some? || PodLevel(v, Right).Some?
  }

  function PodsText(v: TileView): string {
    PodsLine(LevelText(Pod(v, Left)), LevelText(Pod(v, Right)))
  }

  function PodsLine(left: string, right: string): string {
    "L " + left + (SEP + "R " + right)
  }

  function Subtitle(v: TileView): string {
    if !v.daemonPresent then "airprobed not running"
    else if v.haveBattery && AnyPodReading(v) then
      if v.channelOpen then PodsText(v) else FormatAge(v.ageMs) + (SEP + PodsText(v))
    else if v.channelOpen then
      if v.phase == "listening" then (if v.haveBattery then "No pod reading" else "Waiting for a reading")
      else "Connecting\U{2026}"
    else if v.haveBattery then FormatAge(v.ageMs) + (SEP + "no pod reading")
    else "Not connected"
  }

  lemma WordsTell(a: Option<byte>, b: Option<byte>)
    ensures LevelWords(a) == LevelWords(b) <==> a == b
    ensures ' ' !in LevelWords(a)
  {
    var x, y := LevelWords(a), LevelWords(b);
    if x == y {
      if a.Some? && b.Some? {
        assert x[..|x| - 1] == Decimal(a.value) && y[..|y| - 1] == Decimal(b.value);
        DecimalInjective(a.value, b.value);
      } else {
        assert x[0] == y[0] == DASH[0];
      }
    }
  }

  /** Two components read the same exactly when they have the same level, or neither has one. */
  lemma LevelTextTells(a: Option<ComponentView>, b: Option<ComponentView>)
    ensures LevelText(a) == LevelText(b) <==>
            (if a.None? then None else a.value.level) == (if b.None? then None else b.value.level)
  {
    WordsTell(if a.None? then None else a.value.level, if b.None? then None else b.value.level);
  }

  lemma PodsSplit(a: string, b: string, c: string, d: string)
    requires ' ' !in a && ' ' !in c
    requires PodsLine(a, b) == PodsLine(c, d)
    ensures a == c && b == d
  {
    var lead := SEP + "R ";
    var x, y := PodsLine(a, b), PodsLine(c, d);
    assert x[2..] == a + (lead + b) && y[2..] == c + (lead + d);
    SplitUnique(' ', a, lead + b, c, lead + d);
    assert (lead + b)[|lead|..] == b && (lead + d)[|lead|..] == d;
  }

  /** Two lines of pods are equal exactly when the levels are. */
  lemma PodsTell(x: Option<byte>, y: Option<byte>, u: Option<byte>, v: Option<byte>)
    ensures PodsLine(LevelWords(x), LevelWords(y)) == PodsLine(LevelWords(u), LevelWords(v)) <==> x == u && y == v
  {
    WordsTell(x, u);
    WordsTell(u, x);
    WordsTell(y, v);
    if PodsLine(LevelWords(x), LevelWords(y)) == PodsLine(LevelWords(u), LevelWords(v)) {
      PodsSplit(LevelWords(x), LevelWords(y), LevelWords(u), LevelWords(v));
    }
  }

  /** Two live tiles that read the same show the same readings, absent or unreadable never passing for a number. */
  lemma LiveTileTells(u: TileView, v: TileView)
    requires u.daemonPresent && u.channelOpen && u.haveBattery && AnyPodReading(u)
    requires v.daemonPresent && v.channelOpen && v.haveBattery && AnyPodReading(v)
    ensures Subtitle(u) == Subtitle(v) <==>
            PodLevel(u, Left) == PodLevel(v, Left) && PodLevel(u, Right) == PodLevel(v, Right)
  {
    PodsTell(PodLevel(u, Left), PodLevel(u, Right), PodLevel(v, Left), PodLevel(v, Right));
  }

  /** What comes before the readings: nothing on a live tile, the age on a stale one. */
  function Lead(v: TileView): string {
    if v.channelOpen then "" else FormatAge(v.ageMs) + SEP
  }

  lemma AgeStart(ms: int)
    ensures var age := FormatAge(ms);
            && |age| > 1 && (IsDigit(age[0]) || age[0] == 'j' || age[0] == 'a') && (age[0] == 'a' ==> age[1] == 'g')
  {
    if ms >= 0 {
      AgeSpelling(ms);
    }
  }

  /** What the tile says after its lead. */
  function Told(v: TileView): string {
    if v.haveBattery && AnyPodReading(v) then PodsText(v)
    else if v.channelOpen then
      if v.phase == "listening" then (if v.haveBattery then "No pod reading" else "Waiting for a reading")
      else "Connecting\U{2026}"
    else "no pod reading"
  }

  lemma SubtitleSplits(v: TileView)
    requires v.daemonPresent && (v.channelOpen || v.haveBattery)
    ensures Subtitle(v) == Lead(v) + Told(v)
  {
    if v.channelOpen {
      assert Lead(v) + Told(v) == Told(v);
    }
  }

  lemma ToldTells(v: TileView, left: string, right: string)
    ensures Told(v) == PodsLine(left, right) ==> v.haveBattery && AnyPodReading(v)
  {
    assert PodsLine(left, right)[0] == 'L';
    if !(v.haveBattery && AnyPodReading(v)) {
      assert Told(v)[0] != 'L';
    }
  }

  lemma NothingTold(v: TileView, line: string)
    requires !v.channelOpen
    ensures Lead(v) + line != "Not connected"
  {
    AgeStart(v.ageMs);
    assert (Lead(v) + line)[0] == FormatAge(v.ageMs)[0];
  }

  lemma WordsSay(text: string, level: Option<byte>)
    ensures SaysLevel(text, level, "\U{2014}") <==> text == LevelWords(level)
  {
    if level.Some? {
      PercentSays(text, level.value);
    }
  }

  /** No other subtitle passes for readings, and the letters stand before their own pods: the lead -- nothing on a live
      tile, the age on a stale one -- "L", what the left pod says, "R", and what the right pod says is shown exactly
      when there is a battery and these are the two levels, one of them a number. */
  lemma SubtitleTells(v: TileView, x: Option<byte>, y: Option<byte>, left: string, right: string)
    requires v.daemonPresent
    requires SaysLevel(left, x, "\U{2014}") && SaysLevel(right, y, "\U{2014}")
    ensures Subtitle(v) == (if v.channelOpen then "" else FormatAge(v.ageMs) + " \U{00b7} ")
                           + ("L " + left + (" \U{00b7} R " + right)) <==>
            v.haveBattery && (x.Some? || y.Some?) && PodLevel(v, Left) == x && PodLevel(v, Right) == y
  {
    WordsSay(left, x);
    WordsSay(right, y);
    var line := PodsLine(left, right);
    assert line == "L " + left + (" \U{00b7} R " + right);
    if v.channelOpen || v.haveBattery {
      SubtitleSplits(v);
      ToldTells(v, left, right);
      PodsTell(PodLevel(v, Left), PodLevel(v, Right), x, y);
      if Lead(v) + Told(v) == Lead(v) + line {
        CancelLead(Lead(v), Told(v), line);
      }
    } else {
      NothingTold(v, line);
    }
  }

  /** Neither pod has a level. */
  predicate NoPod(v: TileView) {
    PodLevel(v, Left).None? && PodLevel(v, Right).None?
  }

  /** Every other subtitle names exactly one situation. */
  lemma SubtitleWords(v: TileView)
    ensures Subtitle(v) == "airprobed not running" <==> !v.daemonPresent
    ensures Subtitle(v) == "Connecting\U{2026}" <==>
            v.daemonPresent && v.channelOpen && v.phase != "listening" && !(v.haveBattery && !NoPod(v))
    ensures Subtitle(v) == "Waiting for a reading" <==>
            v.daemonPresent && v.channelOpen && v.phase == "listening" && !v.haveBattery
    ensures Subtitle(v) == "No pod reading" <==>
            v.daemonPresent && v.channelOpen && v.phase == "listening" && v.haveBattery && NoPod(v)
    ensures Subtitle(v) == "Not connected" <==> v.daemonPresent && !v.channelOpen && !v.haveBattery
    ensures v.daemonPresent && !v.channelOpen ==>
              (Subtitle(v) == FormatAge(v.ageMs) + " \U{00b7} no pod reading" <==> v.haveBattery && NoPod(v))
  {
    if v.daemonPresent && v.channelOpen {
      LiveWords(v);
    } else if v.daemonPresent && v.haveBattery {
      StaleWords(v);
    } else {
      AgeStart(v.ageMs);
      assert (FormatAge(v.ageMs) + " \U{00b7} no pod reading")[0] == FormatAge(v.ageMs)[0];
    }
  }

  /** Enough of each wording to tell it from the others. */
  lemma LiveWords(v: TileView)
    requires v.daemonPresent && v.channelOpen
    ensures var text := Subtitle(v);
            && |text| > 2
            && text[0] == (if v.haveBattery && AnyPodReading(v) then 'L'
                           else if v.phase != "listening" then 'C'
                           else if v.haveBattery then 'N' else 'W')
            && text[2] != 't'
  {
    if v.haveBattery && AnyPodReading(v) {
      WordsTell(PodLevel(v, Left), None);
      assert Subtitle(v)[0] == 'L';
    }
  }

  lemma StaleWords(v: TileView)
    requires v.daemonPresent && !v.channelOpen && v.haveBattery
    ensures Subtitle(v) !in {"airprobed not running", "Connecting\U{2026}", "Waiting for a reading", "No pod reading"}
    ensures Subtitle(v) != "Not connected"
    ensures Subtitle(v) == FormatAge(v.ageMs) + " \U{00b7} no pod reading" <==> !AnyPodReading(v)
  {
    var tail := if AnyPodReading(v) then PodsText(v) else "no pod reading";
    AgeFirst(v.ageMs, SEP + tail);
    StaleTail(FormatAge(v.ageMs), tail);
    assert AnyPodReading(v) ==> tail[0] == 'L';
  }

  lemma AgeFirst(ms: int, rest: string)
    ensures FormatAge(ms) + rest !in {"airprobed not running", "Connecting\U{2026}", "Waiting for a reading",
                                      "No pod reading", "Not connected"}
  {
    AgeStart(ms);
    var text := FormatAge(ms) + rest;
    assert text[0] == FormatAge(ms)[0] && text[1] == FormatAge(ms)[1];
  }

  lemma StaleTail(age: string, tail: string)
    requires tail != ""
    ensures age + (SEP + tail) == age + " \U{00b7} no pod reading" ==> tail[0] == 'n'
  {
    if age + (SEP + tail) == age + " \U{00b7} no pod reading" {
      CancelLead(age, SEP + tail, " \U{00b7} no pod reading");
      assert (SEP + tail)[3] == tail[0];
    }
  }

  lemma NoPercent(n: nat, suffix: string)
    requires '%' !in suffix
    ensures '%' !in Decimal(n) + suffix
  {
  }

  lemma AgeHasNoPercent(ms: int)
    ensures '%' !in FormatAge(ms)
  {
    if ms >= 0 {
      var m := Round(ms / 1000, 60);
      var h := Round(m, 60);
      NoPercent(m, " min ago");
      NoPercent(h, " hr ago");
      NoPercent(Round(h, 24), " days ago");
    }
  }

  /** Cut a stale subtitle anywhere: if any number of percent is left, so is the whole age. */
  lemma TruncationKeepsDoubt(v: TileView, n: nat)
    requires v.daemonPresent && v.haveBattery && !v.channelOpen && n <= |Subtitle(v)|
    ensures '%' in Subtitle(v)[..n] ==> FormatAge(v.ageMs) <= Subtitle(v)[..n]
  {
    var age := FormatAge(v.ageMs);
    AgeHasNoPercent(v.ageMs);
    if n <= |age| {
      assert Subtitle(v)[..n] == age[..n];
    }
  }

  /** What the tile is given once a report has crossed the bus. */
  function Received(v: TileView, report: Report): TileView {
    v.(haveBattery := true, components := DecodeComponents(Some(EncodeComponents(Components(report)))))
  }

  /** From the packet to the tile: a pod reads n% exactly when its last block in the packet is not disconnected and
      carries the raw level n, at most 100; it reads the dash exactly when there is no such n. */
  lemma TileShowsLastBlock(packet: seq<byte>, bs: seq<Block>, v: TileView, c: Component, level: Option<byte>,
                           text: string)
    requires Blocks(packet) == Some(bs) && SaysLevel(text, level, "\U{2014}")
    ensures LevelText(Pod(Received(v, Parse(packet).value), c)) == text <==> Carries(bs, c, level)
  {
    var report := Parse(packet).value;
    ComponentsRoundTrip(Components(report));
    ComponentsAreLast(report, c);
    LevelIsCarried(bs, c, level);
    WordsSay(text, level);
    WordsTell(PodLevel(Received(v, report), c), level);
  }
}
