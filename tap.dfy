/**
 * The TAP tape image. A TAP file is a run of blocks, each a two-byte
 * little-endian length followed by that many bytes, the first of which is the
 * block's flag (0 for a header, 0xFF for data). Opening a tape splits the
 * file into blocks; a cursor then hands the blocks out in file order.
 */
module Tape {
  import opened Base

  /** The timings of a standard-speed block, in T-states (pulse lengths and the pause after it). */
  const Pilot: nat := 2168
  const PilotLenHeader: nat := 3223
  const PilotLenData: nat := 8063
  const Sync1: nat := 667
  const Sync2: nat := 735
  const Zero: nat := 855
  const One: nat := 1710
  const Pause: nat := 3000
  const LastByteLen: int := 8

  /**
   * `DataBlock`: where a block's bytes lie in the file (`start` to `end`,
   * end excluded) and how the loader would play it.
   */
  datatype DataBlock = DataBlock(
    id: u8, flag: u8, start: nat, end: nat,
    pilot: nat, pilot_len: nat, sync1: nat, sync2: nat, zero: nat, one: nat, pause: nat,
    last_byte_len: int)

  /** The length field of the block whose header starts at `start`: low byte first. */
  function LengthAt(data: seq<u8>, start: nat): nat
    requires start + 1 < |data|
  {
    data[start] as nat + data[start + 1] as nat * 0x100
  }

  /**
   * `read_default_block`: the block whose two-byte header starts at `start`.
   * Reading the length and the flag byte after it panics when the file ends
   * before the flag. The block's bytes follow the header and are as many as
   * the header says; its id is the header's first byte. A flag above 128
   * gets the 3223-pulse pilot tone, any other the 8063-pulse one, and the
   * remaining timings are the fixed standard-speed ones.
   */
  function ReadDefaultBlock(data: seq<u8>, start: nat): (r: Checked<DataBlock>)
    ensures r.Ok? <==> start + 2 < |data|
    ensures r.Ok? ==> r.value.start == start + 2 && r.value.start <= r.value.end && r.value.flag == data[start + 2]
    ensures r.Ok? ==> r.value.end == start + 2 + LengthAt(data, start) && r.value.id == data[start]
    ensures r.Ok? ==> r.value.pilot_len == if data[start + 2] > 128 then 3223 else 8063
    ensures r.Ok? ==>
      && r.value.pilot == 2168 && r.value.sync1 == 667 && r.value.sync2 == 735
      && r.value.zero == 855 && r.value.one == 1710 && r.value.pause == 3000 && r.value.last_byte_len == 8
  {
    if start + 2 >= |data| then Panics
    else
      var length := LengthAt(data, start);
      var flag := data[start + 2];
      Ok(DataBlock(
        data[start], flag, start + 2, start + length + 2,
        Pilot, if flag > 128 then PilotLenHeader else PilotLenData,
        Sync1, Sync2, Zero, One, Pause, LastByteLen))
  }

  /**
   * The blocks from the header at `start` to the end of the file: the split
   * loop of `Tap::new`. Each block's header follows the previous block's
   * bytes, and the loop stops at the first block that reaches the end of the
   * file (or runs past it).
   */
  function Split(data: seq<u8>, start: nat): (r: Checked<seq<DataBlock>>)
    ensures r.Ok? ==> |r.value| >= 1 && r.value[0].start == start + 2
    ensures r.Ok? ==> forall i :: 0 <= i < |r.value| ==> r.value[i].start <= r.value[i].end
    ensures r.Ok? ==> forall i :: 0 <= i < |r.value| - 1 ==> r.value[i + 1].start == r.value[i].end + 2
    ensures r.Ok? ==> forall i :: 0 <= i < |r.value| - 1 ==> r.value[i].end < |data|
    ensures r.Ok? ==> r.value[|r.value| - 1].end >= |data|
    decreases |data| - start
  {
    match ReadDefaultBlock(data, start)
    case Panics => Panics
    case Ok(b) =>
      if |data| <= b.end then Ok([b])
      else
        match Split(data, b.end)
        case Panics => Panics
        case Ok(bs) => Ok([b] + bs)
  }

  /** Blocks that come one after the other never share a byte: each starts after every earlier one ends. */
  lemma {:induction false} SplitDisjoint(data: seq<u8>, start: nat, i: nat, j: nat)
    requires Split(data, start).Ok? && i < j < |Split(data, start).value|
    ensures Split(data, start).value[i].end < Split(data, start).value[j].start
    decreases j - i
  {
    var bs := Split(data, start).value;
    if j > i + 1 {
      SplitDisjoint(data, start, i + 1, j);
    }
  }

  /** The blocks found so far followed by those a split still to run finds. */
  function Then(found: seq<DataBlock>, rest: Checked<seq<DataBlock>>): Checked<seq<DataBlock>>
  {
    match rest
    case Ok(bs) => Ok(found + bs)
    case Panics => Panics
  }

  /** One turn of the split loop: the block at `start` moves from what is still to be found to what is found. */
  lemma ThenStep(found: seq<DataBlock>, data: seq<u8>, start: nat)
    requires ReadDefaultBlock(data, start).Ok?
    ensures var b := ReadDefaultBlock(data, start).value;
      Then(found, Split(data, start)) ==
        if |data| <= b.end then Ok(found + [b]) else Then(found + [b], Split(data, b.end))
  {
    var b := ReadDefaultBlock(data, start).value;
    if |data| > b.end && Split(data, b.end).Ok? {
      assert found + ([b] + Split(data, b.end).value) == found + [b] + Split(data, b.end).value;
    }
  }

  /** `"ZXTape!"`, the signature a TZX file starts with, as bytes. */
  const TzxSignature: seq<u8> := [0x5A, 0x58, 0x54, 0x61, 0x70, 0x65, 0x21]

  /**
   * The parse part of `Tap::new` on the file's bytes: the seven-byte header
   * slice panics on a shorter file, a TZX file is `unimplemented!`, and
   * anything else is split into TAP blocks from the start of the file.
   */
  function Open(file: seq<u8>): (r: Checked<seq<DataBlock>>)
    ensures r.Ok? <==> |file| >= 7 && file[..7] != TzxSignature && Split(file, 0).Ok?
  {
    if |file| < 7 || file[..7] == TzxSignature then Panics else Split(file, 0)
  }

  /** `self.data[block.range.clone()]`: the block's bytes, a slice that panics when the range runs past the file. */
  function Payload(data: seq<u8>, b: DataBlock): (r: Checked<seq<u8>>)
    ensures r.Ok? <==> b.start <= b.end <= |data|
    ensures r.Ok? ==> |r.value| == b.end - b.start && forall k :: 0 <= k < |r.value| ==> r.value[k] == data[b.start + k]
  {
    if b.start <= b.end <= |data| then Ok(data[b.start..b.end]) else Panics
  }

  /** The two-byte header of a block of `n` bytes: the low byte first. */
  function Header(n: nat): (h: seq<u8>)
    requires n < 0x1_0000
    ensures |h| == 2 && h[0] as nat + h[1] as nat * 0x100 == n
  {
    [(n % 0x100) as u8, (n / 0x100) as u8]
  }

  /** A TAP file holding the given blocks in order, each behind its header. */
  function Encode(blocks: seq<seq<u8>>): seq<u8>
    requires forall i :: 0 <= i < |blocks| ==> |blocks[i]| < 0x1_0000
  {
    if |blocks| == 0 then [] else Header(|blocks[0]|) + blocks[0] + Encode(blocks[1..])
  }

  /** A block written behind its header is read back with its length, its flag and its bytes. */
  lemma ReadEncoded(prefix: seq<u8>, block: seq<u8>, rest: seq<u8>)
    requires 1 <= |block| < 0x1_0000
    ensures var data := prefix + Header(|block|) + block + rest;
      && ReadDefaultBlock(data, |prefix|).Ok?
      && ReadDefaultBlock(data, |prefix|).value.end == |prefix| + 2 + |block|
      && ReadDefaultBlock(data, |prefix|).value.flag == block[0]
      && Payload(data, ReadDefaultBlock(data, |prefix|).value) == Ok(block)
  {
    var data := prefix + Header(|block|) + block + rest;
    var s := |prefix|;
    assert data[s] == Header(|block|)[0] && data[s + 1] == Header(|block|)[1];
    assert data[s + 2] == block[0];
    assert data[s + 2..s + 2 + |block|] == block;
  }

  /**
   * Splitting a file written by `Encode` finds the blocks that were written,
   * in order, each with its first byte as the flag; this is the TAP format's
   * round trip. Every block needs a flag byte, and a file needs a block.
   */
  lemma {:induction false} SplitEncode(prefix: seq<u8>, blocks: seq<seq<u8>>)
    requires |blocks| >= 1 && forall i :: 0 <= i < |blocks| ==> 1 <= |blocks[i]| < 0x1_0000
    ensures var data := prefix + Encode(blocks);
      && Split(data, |prefix|).Ok?
      && |Split(data, |prefix|).value| == |blocks|
      && forall i :: 0 <= i < |blocks| ==>
           && Payload(data, Split(data, |prefix|).value[i]) == Ok(blocks[i])
           && Split(data, |prefix|).value[i].flag == blocks[i][0]
    decreases |blocks|
  {
    var data := prefix + Encode(blocks);
    var h := Header(|blocks[0]|);
    var s := |prefix|;
    assert data == prefix + h + blocks[0] + Encode(blocks[1..]);
    ReadEncoded(prefix, blocks[0], Encode(blocks[1..]));
    var b := ReadDefaultBlock(data, s).value;
    if |blocks| > 1 {
      var prefix' := prefix + h + blocks[0];
      SplitEncode(prefix', blocks[1..]);
      assert data == prefix' + Encode(blocks[1..]);
      var bs := Split(data, b.end).value;
      assert Split(data, s).value == [b] + bs;
      forall i | 0 <= i < |blocks|
        ensures Payload(data, Split(data, s).value[i]) == Ok(blocks[i])
        ensures Split(data, s).value[i].flag == blocks[i][0]
      {
        if i > 0 {
          assert Split(data, s).value[i] == bs[i - 1];
          assert blocks[1..][i - 1] == blocks[i];
        }
      }
    }
  }

  /** `Tap`: the blocks of an opened file, the file itself and the cursor of the next block to hand out. */
  class Tap {
    var blocks: seq<DataBlock>
    var actual_block: nat
    var data: seq<u8>
    var name: string

    /** The cursor never passes the end of the block list. */
    ghost predicate Valid()
      reads this`actual_block, this`blocks
    {
      actual_block <= |blocks|
    }

    /** A tape positioned at its first block. */
    constructor (blocks: seq<DataBlock>, data: seq<u8>, name: string)
      ensures this.blocks == blocks && this.data == data && this.name == name && actual_block == 0
      ensures Valid()
    {
      this.blocks := blocks;
      this.data := data;
      this.name := name;
      actual_block := 0;
    }

    /**
     * `Tap::new` once the file is read: check the header, then run the split
     * loop, which reads a block at `start`, moves `start` to its end and
     * stops when `start` reaches the end of the file. Reading the file and
     * the name's path conversion are outside the model.
     */
    static method New(file: seq<u8>, name: string) returns (r: Checked<Tap>)
      ensures r.Ok? <==> Open(file).Ok?
      ensures r.Ok? ==> fresh(r.value) && r.value.Valid() && r.value.actual_block == 0
      ensures r.Ok? ==> r.value.blocks == Open(file).value && r.value.data == file && r.value.name == name
    {
      if |file| < 7 || file[..7] == TzxSignature {
        return Panics;
      }
      var start: nat := 0;
      var blocks: seq<DataBlock> := [];
      if Split(file, 0).Ok? {
        assert [] + Split(file, 0).value == Split(file, 0).value;
      }
      while true
        invariant start <= |file|
        invariant Then(blocks, Split(file, start)) == Split(file, 0)
        decreases |file| - start
      {
        var block := ReadDefaultBlock(file, start);
        if block.Panics? {
          return Panics;
        }
        ThenStep(blocks, file, start);
        start := block.value.end;
        blocks := blocks + [block.value];
        if |file| <= start {
          break;
        }
      }
      var tap := new Tap(blocks, file, name);
      return Ok(tap);
    }

    /**
     * `next_block`: past the last block, `None` and the cursor stays;
     * otherwise a copy of the block's bytes, and the cursor moves to the next
     * block. The slice panics when the block runs past the end of the file.
     */
    method NextBlock() returns (r: Checked<Option<seq<u8>>>)
      requires Valid()
      modifies this`actual_block
      ensures Valid()
      ensures old(actual_block) >= |blocks| ==> r == Ok(None) && actual_block == old(actual_block)
      ensures old(actual_block) < |blocks| ==> actual_block == old(actual_block) + 1
      ensures old(actual_block) < |blocks| ==>
        r == match Payload(data, blocks[old(actual_block)]) {
          case Ok(bytes) => Ok(Some(bytes))
          case Panics => Panics
        }
    {
      if actual_block >= |blocks| {
        return Ok(None);
      }
      var block := blocks[actual_block];
      actual_block := actual_block + 1;
      if block.start <= block.end <= |data| {
        r := Ok(Some(data[block.start..block.end]));
      } else {
        r := Panics;
      }
    }
  }
}
