/** The snapshot the daemon publishes, and how a battery report becomes part of it. */
module States {
  import opened Basics
  import opened Battery

  datatype ComponentView = ComponentView(status: string, level: Option<byte>, rawLevel: byte, anomaly: bool)

  datatype State = State(
    address: string,
    phase: string,
    channelOpen: bool,
    status: string,
    haveBattery: bool,
    parseRefusals: nat,
    components: map<string, ComponentView>)

  function ViewOf(r: Reading): ComponentView {
    ComponentView(StatusName(r.status), r.level, r.raw, r.anomaly)
  }

  /** The components of a report by name; a repeated component shows its last block. */
  function Components(report: Report): map<string, ComponentView> {
    if report == [] then map[]
    else
      var r := report[|report| - 1];
      Components(report[..|report| - 1])[ComponentName(r.component) := ViewOf(r)]
  }

  method CollectComponents(report: Report) returns (components: map<string, ComponentView>)
    ensures components == Components(report)
  {
    components := map[];
    for i := 0 to |report|
      invariant components == Components(report[..i])
    {
      var r := report[i];
      components := components[ComponentName(r.component) := ViewOf(r)];
      assert report[..i + 1][..i] == report[..i];
    }
    assert report[..|report|] == report;
  }

  /** The last reading of a component in a report, if the report has one. */
  function LastOf(report: Report, c: Component): Option<Reading> {
    if report == [] then None
    else if report[|report| - 1].component == c then Some(report[|report| - 1])
    else LastOf(report[..|report| - 1], c)
  }

  lemma NamesDiffer(c: Component, d: Component)
    ensures ComponentName(c) == ComponentName(d) <==> c == d
  {
    assert "left"[0] == 'l' && "right"[0] == 'r' && "case"[0] == 'c';
  }

  /** A component is in the snapshot exactly when the report has it, with the values of its last block. */
  lemma {:induction false} ComponentsAreLast(report: Report, c: Component)
    ensures ComponentName(c) in Components(report) <==> LastOf(report, c).Some?
    ensures LastOf(report, c).Some? ==> Components(report)[ComponentName(c)] == ViewOf(LastOf(report, c).value)
  {
    if report != [] {
      ComponentsAreLast(report[..|report| - 1], c);
      NamesDiffer(c, report[|report| - 1].component);
    }
  }

  /** Only the three names ever appear. */
  lemma {:induction false} OnlyKnownNames(report: Report)
    ensures Components(report).Keys <= {"left", "right", "case"}
  {
    if report != [] {
      OnlyKnownNames(report[..|report| - 1]);
    }
  }

  // -------------------------------------------------------------------------
  // Levels, from the wire
  // -------------------------------------------------------------------------

  /** The usable level a report ends up with for a component. */
  function ReportLevel(report: Report, c: Component): Option<byte> {
    if LastOf(report, c).None? then None else LastOf(report, c).value.level
  }

  predicate IsLastBlock(bs: seq<Block>, c: Component, i: int) {
    0 <= i < |bs| && bs[i].component == c && forall j :: i < j < |bs| ==> bs[j].component != c
  }

  /** The last block of a component is not disconnected and has the raw level `n`, at most 100. */
  ghost predicate CarriesLevel(bs: seq<Block>, c: Component, n: byte) {
    exists i :: IsLastBlock(bs, c, i) && bs[i].status != DISCONNECTED && bs[i].level == n && n <= 100
  }

  /** What the raw blocks say of a component: that level, or none. */
  ghost predicate Carries(bs: seq<Block>, c: Component, level: Option<byte>) {
    match level
    case Some(n) => CarriesLevel(bs, c, n)
    case None => forall n: byte :: !CarriesLevel(bs, c, n)
  }

  lemma {:induction false} LastIsLastBlock(bs: seq<Block>, c: Component)
    ensures LastOf(ReadBlocks(bs), c).None? ==> forall i :: !IsLastBlock(bs, c, i)
    ensures LastOf(ReadBlocks(bs), c).Some? ==> exists i :: IsLastBlock(bs, c, i)
    ensures forall i :: IsLastBlock(bs, c, i) ==> LastOf(ReadBlocks(bs), c) == Some(ReadBlock(bs[i]))
  {
    if bs != [] {
      var front := bs[..|bs| - 1];
      assert ReadBlocks(bs)[..|bs| - 1] == ReadBlocks(front);
      LastIsLastBlock(front, c);
      if bs[|bs| - 1].component == c {
        assert IsLastBlock(bs, c, |bs| - 1);
      } else {
        forall i
          ensures IsLastBlock(bs, c, i) <==> IsLastBlock(front, c, i)
        {
        }
      }
    }
  }

  /** The level read is the level carried. */
  lemma LevelIsCarried(bs: seq<Block>, c: Component, level: Option<byte>)
    ensures ReportLevel(ReadBlocks(bs), c) == level <==> Carries(bs, c, level)
  {
    LastIsLastBlock(bs, c);
    forall n: byte
      ensures CarriesLevel(bs, c, n) <==> ReportLevel(ReadBlocks(bs), c) == Some(n)
    {
      if LastOf(ReadBlocks(bs), c).Some? {
        var i :| IsLastBlock(bs, c, i);
        assert ReportLevel(ReadBlocks(bs), c) == ReadBlock(bs[i]).level;
      }
    }
  }

  /** The words of a status byte. */
  predicate StatusWord(word: string, status: byte) {
    word == if status == 0 then "unknown"
            else if status == 1 then "charging"
            else if status == 2 then "discharging"
            else if status == 4 then "disconnected"
            else "?"
  }

  /** What a snapshot shows of a block: its raw level, a level only if it is to be believed, the status in words, and
      whether the bytes around it are off. */
  predicate Shows(v: ComponentView, b: Block) {
    && v.rawLevel == b.level
    && v.level == (if b.status != 4 && b.level <= 100 then Some(b.level) else None)
    && StatusWord(v.status, b.status)
    && (v.anomaly <==> b.spacer != 1 || b.end != 1)
  }

  /** The snapshot of a list of blocks shows the last block of every component in it, under its name, and no other. */
  lemma SnapshotShowsBlocks(bs: seq<Block>, c: Component, name: string)
    requires name == match c case Case => "case" case Left => "left" case Right => "right"
    ensures name in Components(ReadBlocks(bs)) <==> exists i :: IsLastBlock(bs, c, i)
    ensures forall i :: IsLastBlock(bs, c, i) ==> Shows(Components(ReadBlocks(bs))[name], bs[i])
  {
    ComponentsAreLast(ReadBlocks(bs), c);
    LastIsLastBlock(bs, c);
  }
}
