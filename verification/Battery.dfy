/** Battery reports: the length-checked block parser, its encoder, and why the two agree. */
module Battery {
  import opened Basics
  import opened Protocol

  datatype Component = Case | Left | Right

  const DISCONNECTED: byte := 4

  const BLOCK_SIZE := 5
  const COUNT_OFFSET := 6
  const FIRST_BLOCK := 7

  /** A reading. `level` is empty whenever the raw byte is not to be believed. */
  datatype Reading = Reading(component: Component, status: byte, level: Option<byte>, raw: byte, anomaly: bool)

  type Report = seq<Reading>

  /** The five bytes of one component on the wire. */
  datatype Block = Block(component: Component, spacer: byte, level: byte, status: byte, end: byte)

  function ComponentOf(b: byte): Option<Component> {
    match b
    case 8 => Some(Case)
    case 4 => Some(Left)
    case 2 => Some(Right)
    case _ => None
  }

  function CodeOf(c: Component): byte {
    match c
    case Case => 8
    case Left => 4
    case Right => 2
  }

  function ComponentName(c: Component): string {
    match c
    case Case => "case"
    case Left => "left"
    case Right => "right"
  }

  function StatusName(status: byte): string {
    match status
    case 0 => "unknown"
    case 1 => "charging"
    case 2 => "discharging"
    case 4 => "disconnected"
    case _ => "?"
  }

  function ReadBlock(b: Block): Reading {
    Reading(b.component, b.status,
            if b.status != DISCONNECTED && b.level <= 100 then Some(b.level) else None,
            b.level, b.spacer != 1 || b.end != 1)
  }

  function ReadBlocks(bs: seq<Block>): Report {
    seq(|bs|, i requires 0 <= i < |bs| => ReadBlock(bs[i]))
  }

  // -------------------------------------------------------------------------
  // The encoder the parser is judged against
  // -------------------------------------------------------------------------

  function EncodeBlock(b: Block): seq<byte> {
    [CodeOf(b.component), b.spacer, b.level, b.status, b.end]
  }

  function EncodeBlocks(bs: seq<Block>): (r: seq<byte>)
    ensures |r| == BLOCK_SIZE * |bs|
  {
    if bs == [] then [] else EncodeBlock(bs[0]) + EncodeBlocks(bs[1..])
  }

  function Preamble(count: byte): seq<byte> {
    STD_HEADER + [4, 0, count]
  }

  function Encode(bs: seq<Block>): seq<byte>
    requires |bs| < 256
  {
    Preamble(|bs|) + EncodeBlocks(bs)
  }

  // -------------------------------------------------------------------------
  // The parser
  // -------------------------------------------------------------------------

  function DecodeBlock(p: seq<byte>): Option<Block>
    requires |p| >= BLOCK_SIZE
  {
    match ComponentOf(p[0])
    case None => None
    case Some(c) => Some(Block(c, p[1], p[2], p[3], p[4]))
  }

  function DecodeBlocks(p: seq<byte>): Option<seq<Block>>
    requires |p| % BLOCK_SIZE == 0
  {
    if p == [] then Some([]) else
      match (DecodeBlock(p), DecodeBlocks(p[BLOCK_SIZE..]))
      case (Some(b), Some(bs)) => Some([b] + bs)
      case _ => None
  }

  /** The packet is a battery packet whose count byte and length agree. */
  predicate WellFramed(p: seq<byte>) {
    && OpcodeOf(p) == OP_BATTERY
    && |p| > COUNT_OFFSET
    && |p| == FIRST_BLOCK + p[COUNT_OFFSET] * BLOCK_SIZE
  }

  function Blocks(p: seq<byte>): Option<seq<Block>> {
    if WellFramed(p) then DecodeBlocks(p[FIRST_BLOCK..]) else None
  }

  function Parse(p: seq<byte>): Option<Report> {
    match Blocks(p)
    case None => None
    case Some(bs) => Some(ReadBlocks(bs))
  }

  method ParseBattery(packet: seq<byte>) returns (report: Option<Report>)
    ensures report == Parse(packet)
  {
    if !HasStdHeader(packet) { return None; }
    if OpcodeOf(packet) != OP_BATTERY { return None; }
    if |packet| <= COUNT_OFFSET { return None; }
    var count := packet[COUNT_OFFSET];
    if |packet| != FIRST_BLOCK + count * BLOCK_SIZE { return None; }

    var components: Report := [];
    NothingRead(packet);
    for i := 0 to count
      invariant Parse(packet) == Join(components, Readings(packet, i))
    {
      var base := FIRST_BLOCK + i * BLOCK_SIZE;
      ReadNext(packet, i, components);
      var component := ComponentOf(packet[base]);
      if component.None? { return None; }
      var spacer, level, status, end := packet[base + 1], packet[base + 2], packet[base + 3], packet[base + 4];

      var reporting := status != DISCONNECTED;
      components := components + [Reading(component.value, status,
                                          if reporting && level <= 100 then Some(level) else None,
                                          level, spacer != 1 || end != 1)];
    }
    AllRead(packet, components);
    return Some(components);
  }

  /** The readings of a well-framed packet from its i-th block on, if all of them are known. */
  ghost function Readings(packet: seq<byte>, i: nat): Option<Report>
    requires WellFramed(packet) && i <= packet[COUNT_OFFSET]
  {
    match DecodeBlocks(packet[FIRST_BLOCK + i * BLOCK_SIZE..])
    case None => None
    case Some(bs) => Some(ReadBlocks(bs))
  }

  ghost function Join(front: Report, rest: Option<Report>): Option<Report> {
    match rest
    case None => None
    case Some(back) => Some(front + back)
  }

  lemma NothingRead(packet: seq<byte>)
    requires WellFramed(packet)
    ensures Parse(packet) == Join([], Readings(packet, 0))
  {
    if Parse(packet).Some? {
      assert [] + Parse(packet).value == Parse(packet).value;
    }
  }

  lemma AllRead(packet: seq<byte>, components: Report)
    requires WellFramed(packet)
    ensures Join(components, Readings(packet, packet[COUNT_OFFSET])) == Some(components)
  {
    assert packet[FIRST_BLOCK + packet[COUNT_OFFSET] * BLOCK_SIZE..] == [];
    assert components + ReadBlocks([]) == components;
  }

  /** What is left begins with the block at hand: unknown, it spoils the packet, known, it is the next reading. */
  lemma ReadNext(packet: seq<byte>, i: nat, components: Report)
    requires WellFramed(packet) && i < packet[COUNT_OFFSET]
    ensures var base := FIRST_BLOCK + i * BLOCK_SIZE;
            && base + BLOCK_SIZE <= |packet|
            && Join(components, Readings(packet, i)) ==
               match ComponentOf(packet[base])
               case None => None
               case Some(c) =>
                 var b := Block(c, packet[base + 1], packet[base + 2], packet[base + 3], packet[base + 4]);
                 Join(components + [ReadBlock(b)], Readings(packet, i + 1))
  {
    var base := FIRST_BLOCK + i * BLOCK_SIZE;
    var p, rest := packet[base..], DecodeBlocks(packet[base + BLOCK_SIZE..]);
    assert p[BLOCK_SIZE..] == packet[base + BLOCK_SIZE..];
    if DecodeBlock(p).Some? && rest.Some? {
      ReadFirst(DecodeBlock(p).value, rest.value, components);
    }
  }

  lemma ReadFirst(b: Block, bs: seq<Block>, components: Report)
    ensures components + ReadBlocks([b] + bs) == components + [ReadBlock(b)] + ReadBlocks(bs)
  {
    assert ReadBlocks([b] + bs) == [ReadBlock(b)] + ReadBlocks(bs);
  }

  // -------------------------------------------------------------------------
  // Exactness
  // -------------------------------------------------------------------------

  lemma {:induction false} DecodeInvertsEncode(bs: seq<Block>)
    ensures DecodeBlocks(EncodeBlocks(bs)) == Some(bs)
  {
    if bs != [] {
      var p := EncodeBlocks(bs);
      assert p[..BLOCK_SIZE] == EncodeBlock(bs[0]);
      assert p[0] == EncodeBlock(bs[0])[0] && p[1] == EncodeBlock(bs[0])[1] && p[2] == EncodeBlock(bs[0])[2]
             && p[3] == EncodeBlock(bs[0])[3] && p[4] == EncodeBlock(bs[0])[4];
      assert p[BLOCK_SIZE..] == EncodeBlocks(bs[1..]);
      DecodeInvertsEncode(bs[1..]);
      assert [bs[0]] + bs[1..] == bs;
    }
  }

  lemma {:induction false} EncodeInvertsDecode(p: seq<byte>)
    requires |p| % BLOCK_SIZE == 0
    ensures DecodeBlocks(p).Some? ==> EncodeBlocks(DecodeBlocks(p).value) == p
  {
    if p != [] && DecodeBlocks(p).Some? {
      var b := DecodeBlock(p).value;
      var bs := DecodeBlocks(p[BLOCK_SIZE..]).value;
      EncodeInvertsDecode(p[BLOCK_SIZE..]);
      assert ([b] + bs)[1..] == bs;
      assert EncodeBlock(b) == p[..BLOCK_SIZE];
    }
  }

  /** The parser accepts exactly the encodings of lists of known components, and reads each block in order. */
  lemma ParseExact(p: seq<byte>, r: Report)
    ensures Parse(p) == Some(r) <==> exists bs :: |bs| < 256 && p == Encode(bs) && r == ReadBlocks(bs)
  {
    if Parse(p) == Some(r) {
      var bs := Blocks(p).value;
      EncodeInvertsDecode(p[FIRST_BLOCK..]);
      assert p == p[..FIRST_BLOCK] + p[FIRST_BLOCK..];
      assert p[..FIRST_BLOCK] == Preamble(|bs|);
      assert |bs| < 256 && p == Encode(bs) && r == ReadBlocks(bs);
    }
    forall bs: seq<Block> | |bs| < 256 && p == Encode(bs) && r == ReadBlocks(bs)
      ensures Parse(p) == Some(r)
    {
      EncodingAccepted(bs);
    }
  }

  lemma EncodingAccepted(bs: seq<Block>)
    requires |bs| < 256
    ensures Blocks(Encode(bs)) == Some(bs)
  {
    var p := Encode(bs);
    assert p[..FIRST_BLOCK] == Preamble(|bs|);
    assert p[..4] == STD_HEADER;
    assert p[4] == Preamble(|bs|)[4] && p[5] == Preamble(|bs|)[5] && p[6] == Preamble(|bs|)[6];
    assert p[FIRST_BLOCK..] == EncodeBlocks(bs);
    DecodeInvertsEncode(bs);
  }

  /** The i-th block stands five bytes after the one before it: component, spacer, level, status, end. */
  predicate BlockAt(p: seq<byte>, base: nat, b: Block) {
    && base + 5 <= |p|
    && p[base] == (match b.component case Case => 8 case Left => 4 case Right => 2)
    && p[base + 1] == b.spacer && p[base + 2] == b.level && p[base + 3] == b.status && p[base + 4] == b.end
  }

  lemma {:induction false} DecodedBytes(p: seq<byte>, i: nat)
    requires |p| % BLOCK_SIZE == 0
    ensures DecodeBlocks(p).Some? ==>
              |p| == 5 * |DecodeBlocks(p).value| && (5 * i < |p| ==> BlockAt(p, 5 * i, DecodeBlocks(p).value[i]))
    decreases |p|
  {
    if p != [] && DecodeBlocks(p).Some? {
      var rest := p[BLOCK_SIZE..];
      if i > 0 {
        DecodedBytes(rest, i - 1);
        if 5 * i < |p| {
          BlockAtTail(p, BLOCK_SIZE, 5 * (i - 1), DecodeBlocks(rest).value[i - 1]);
        }
      } else {
        DecodedBytes(rest, 0);
      }
    }
  }

  lemma BlockAtTail(p: seq<byte>, skip: nat, base: nat, b: Block)
    requires |p| >= skip && BlockAt(p[skip..], base, b)
    ensures BlockAt(p, skip + base, b)
  {
    assert p[skip..][base + 1] == p[skip + base + 1] && p[skip..][base + 2] == p[skip + base + 2];
    assert p[skip..][base + 3] == p[skip + base + 3] && p[skip..][base + 4] == p[skip + base + 4];
  }

  /** An accepted packet byte for byte: header, opcode, count, and each block in its place. */
  lemma BlockBytes(p: seq<byte>, bs: seq<Block>)
    requires Blocks(p) == Some(bs)
    ensures |p| == 7 + 5 * |bs| && p[..6] == [4, 0, 4, 0, 4, 0] && p[6] == |bs|
    ensures forall i :: 0 <= i < |bs| ==> BlockAt(p, 7 + 5 * i, bs[i])
  {
    var body := p[FIRST_BLOCK..];
    DecodedBytes(body, 0);
    assert p[..6] == p[..4] + [p[4], p[5]];
    forall i | 0 <= i < |bs|
      ensures BlockAt(p, 7 + 5 * i, bs[i])
    {
      DecodedBytes(body, i);
      BlockAtTail(p, FIRST_BLOCK, 5 * i, bs[i]);
    }
  }

  predicate Clean(r: Report) {
    forall i :: 0 <= i < |r| ==> !r[i].anomaly
  }

  /** Without framing anomalies no two packets read alike. */
  lemma CleanParseInjective(p: seq<byte>, q: seq<byte>)
    requires Parse(p).Some? && Parse(p) == Parse(q) && Clean(Parse(p).value)
    ensures p == q
  {
    var r := Parse(p).value;
    ParseExact(p, r);
    ParseExact(q, r);
    var bs :| |bs| < 256 && p == Encode(bs) && r == ReadBlocks(bs);
    var cs :| |cs| < 256 && q == Encode(cs) && r == ReadBlocks(cs);
    assert |bs| == |r| == |cs|;
    forall i | 0 <= i < |bs|
      ensures bs[i] == cs[i]
    {
      assert r[i] == ReadBlock(bs[i]) == ReadBlock(cs[i]);
      assert !r[i].anomaly;
    }
    assert bs == cs;
  }

  /** No accepted packet is a proper prefix of another. */
  lemma ParsePrefixFree(p: seq<byte>, extra: seq<byte>)
    requires Parse(p).Some? && extra != []
    ensures Parse(p + extra) == None
  {
    assert (p + extra)[COUNT_OFFSET] == p[COUNT_OFFSET];
  }

  const READ_BUFFER := 1024

  /** A datagram cut to the read buffer is refused: 1017 is not a whole number of blocks. */
  lemma TruncatedRefused(datagram: seq<byte>)
    requires |datagram| >= READ_BUFFER
    ensures Parse(datagram[..READ_BUFFER]) == None
  {
    assert (READ_BUFFER - FIRST_BLOCK) % BLOCK_SIZE != 0;
  }
}
