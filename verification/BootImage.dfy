/** Program images: what the host packs and stores is what the boot controller loads. */
module BootImage {
  import opened Words
  import opened DramPortals
  import opened FlatMemory
  import opened CpuTypes
  import opened BootFsm

  // ---- instructions ----

  /** The operand fields have three bits, a jump target has twelve. */
  predicate Encodable(i: Inst) {
    match i
    case JUMP(target) => target < 0x1000
    case FatPtrArith(_, _, _, _, idx) => idx < 8
    case _ => true
  }

  function Fields(opcode: nat, a: nat, b: nat, c: nat, d: nat): u16
    requires opcode < 16 && a < 8 && b < 8 && c < 8 && d < 8
  {
    0x1000 * opcode + 0x200 * a + 0x40 * b + 8 * c + d
  }

  function EncodeInst(i: Inst): u16
    requires Encodable(i)
  {
    match i
    case NOP => 0
    case Vec128(op, rd, rs1, rs2) =>
      Fields(match op case ADD => 1 case SUB => 2 case MUL => 3 case AND => 4, rd, rs1, rs2, 0)
    case LD128(rd, frs) => Fields(5, rd, frs, 0, 0)
    case ST128(rs, frd) => Fields(6, rs, frd, 0, 0)
    case FatPtrLD(frd, frs) => Fields(7, frd, frs, 0, 0)
    case FatPtrST(frd, frs) => Fields(8, frd, frs, 0, 0)
    case FatPtrArith(pop, frd, frs, rs1, idx) => Fields(if pop == PADD then 9 else 10, frd, frs, rs1, idx)
    case JUMP(target) => 0xB000 + target
    case EqualExit(rd, rs1) => Fields(12, rs1, rd, 0, 0)
  }

  lemma OneField(rest: nat, field: nat)
    requires field < 8
    ensures (8 * rest + field) / 8 == rest && (8 * rest + field) % 8 == field
  {
  }

  lemma Divide8(e: nat)
    ensures e / 0x40 == e / 8 / 8 && e / 0x200 == e / 0x40 / 8 && e / 0x1000 == e / 0x200 / 8
  {
  }

  lemma Divide256(e: nat)
    ensures e / 0x1_0000 == e / 0x100 / 0x100 && e / 0x100_0000 == e / 0x1_0000 / 0x100
    ensures e / 0x1_0000_0000 == e / 0x100_0000 / 0x100
  {
  }

  lemma FieldsSplit(opcode: nat, a: nat, b: nat, c: nat, d: nat)
    requires opcode < 16 && a < 8 && b < 8 && c < 8 && d < 8
    ensures var e := Fields(opcode, a, b, c, d);
            && e / 0x1000 == opcode && (e / 0x200) % 8 == a && (e / 0x40) % 8 == b && (e / 8) % 8 == c && e % 8 == d
  {
    var e := Fields(opcode, a, b, c, d);
    OneField(0x200 * opcode + 0x40 * a + 8 * b + c, d);
    OneField(0x40 * opcode + 8 * a + b, c);
    OneField(8 * opcode + a, b);
    OneField(opcode, a);
    Divide8(e);
  }

  lemma InstRoundTrip(i: Inst)
    requires Encodable(i)
    ensures DecodeInst(EncodeInst(i)) == Some(i)
  {
    match i
    case NOP =>
    case Vec128(op, rd, rs1, rs2) =>
      FieldsSplit(match op case ADD => 1 case SUB => 2 case MUL => 3 case AND => 4, rd, rs1, rs2, 0);
    case LD128(rd, frs) => FieldsSplit(5, rd, frs, 0, 0);
    case ST128(rs, frd) => FieldsSplit(6, rs, frd, 0, 0);
    case FatPtrLD(frd, frs) => FieldsSplit(7, frd, frs, 0, 0);
    case FatPtrST(frd, frs) => FieldsSplit(8, frd, frs, 0, 0);
    case FatPtrArith(pop, frd, frs, rs1, idx) => FieldsSplit(if pop == PADD then 9 else 10, frd, frs, rs1, idx);
    case JUMP(target) =>
    case EqualExit(rd, rs1) => FieldsSplit(12, rs1, rd, 0, 0);
  }

  /** Thirteen of the sixteen opcodes are instructions. */
  lemma DecodesExactly(e: u16)
    ensures DecodeInst(e) == None <==> e >= 0xd000
    ensures e < 0x1000 <==> DecodeInst(e) == Some(NOP)
    ensures 0xb000 <= e < 0xc000 <==> DecodeInst(e) == Some(JUMP(e % 0x1000))
  {
  }

  // ---- packing ----

  predicate AllEncodable(prog: seq<Inst>) {
    forall i :: 0 <= i < |prog| ==> Encodable(prog[i])
  }

  /** The k-th half word of the image; zeros follow the program. */
  function Half(prog: seq<Inst>, k: nat): u16
    requires AllEncodable(prog)
  {
    if k < |prog| then EncodeInst(prog[k]) else 0
  }

  function Word(prog: seq<Inst>, w: nat): u32
    requires AllEncodable(prog)
  {
    Half(prog, 2 * w) + 0x1_0000 * Half(prog, 2 * w + 1)
  }

  function DoubleWord(prog: seq<Inst>, d: nat): u64
    requires AllEncodable(prog)
  {
    Word(prog, 2 * d) + 0x1_0000_0000 * Word(prog, 2 * d + 1)
  }

  /** One cache line holds eight double words, 32 instructions. */
  function LinePayload(prog: seq<Inst>, line: nat): Payload
    requires AllEncodable(prog)
  {
    [DoubleWord(prog, 8 * line), DoubleWord(prog, 8 * line + 1), DoubleWord(prog, 8 * line + 2),
     DoubleWord(prog, 8 * line + 3), DoubleWord(prog, 8 * line + 4), DoubleWord(prog, 8 * line + 5),
     DoubleWord(prog, 8 * line + 6), DoubleWord(prog, 8 * line + 7)]
  }

  /** The memory after the host stored `n` lines of the image at entry `base`. */
  function StoreImage(m: Mem, base: u32, prog: seq<Inst>, n: nat): Mem
    requires AllEncodable(prog) && base + 4 * n <= 0x1_0000_0000
  {
    if n == 0 then m
    else MirrorLine(StoreImage(m, base, prog, n - 1), base + 4 * (n - 1), LinePayload(prog, n - 1))
  }

  /** The bytes of the k-th chunk of the image. */
  function ChunkBytes(prog: seq<Inst>, k: nat): Bytes16
    requires AllEncodable(prog)
  {
    LeBytes(DoubleWord(prog, 2 * k), 8) + LeBytes(DoubleWord(prog, 2 * k + 1), 8)
  }

  /** The entries from `base` on hold the first `n` chunks of the image, as bytes nobody has read. */
  ghost predicate IsImage(m: Mem, base: u32, prog: seq<Inst>, n: nat)
    requires AllEncodable(prog)
  {
    forall a: u32 :: base <= a < base + n ==> a in m && m[a] == Untyped(ChunkBytes(prog, a - base))
  }

  ghost predicate Fresh(m: Mem, first: u32, n: nat) {
    forall a: u32 :: first <= a < first + n ==> a !in m
  }

  lemma LineChunks(prog: seq<Inst>, line: nat, i: nat)
    requires AllEncodable(prog) && i < 4
    ensures LineBytes(LinePayload(prog, line), i) == ChunkBytes(prog, 4 * line + i)
  {
    hide LeBytes; hide DoubleWord;
    assert 8 * line + 2 * i == 2 * (4 * line + i);
    assert 8 * line + (2 * i + 1) == 2 * (4 * line + i) + 1;
  }

  lemma {:induction false} LineStored(m: Mem, base: u32, prog: seq<Inst>, line: nat, n: nat, a: u32)
    requires AllEncodable(prog) && n <= 4 && base + 4 * line + 4 <= 0x1_0000_0000
    requires Fresh(m, base + 4 * line, 4)
    ensures var first := base + 4 * line;
            var m' := MirrorEntries(m, first, LinePayload(prog, line), n);
            && (first <= a < first + n ==> a in m' && m'[a] == Untyped(ChunkBytes(prog, a - base)))
            && (!(first <= a < first + n) ==> (a in m' <==> a in m) && (a in m ==> m'[a] == m[a]))
  {
    hide LinePayload; hide ChunkBytes; hide LineBytes;
    if n > 0 {
      LineStored(m, base, prog, line, n - 1, a);
      LineStored(m, base, prog, line, n - 1, base + 4 * line + (n - 1));
      LineChunks(prog, line, n - 1);
    }
  }

  /** Storing the image through the mirror puts it there and nowhere else. */
  lemma {:induction false} ImageStored(m: Mem, base: u32, prog: seq<Inst>, n: nat, a: u32)
    requires AllEncodable(prog) && base + 4 * n <= 0x1_0000_0000 && Fresh(m, base, 4 * n)
    ensures var m' := StoreImage(m, base, prog, n);
            && (base <= a < base + 4 * n ==> a in m' && m'[a] == Untyped(ChunkBytes(prog, a - base)))
            && (!(base <= a < base + 4 * n) ==> (a in m' <==> a in m) && (a in m ==> m'[a] == m[a]))
  {
    hide ChunkBytes; hide LinePayload; hide MirrorEntries; hide LeBytes;
    if n > 0 {
      var before := StoreImage(m, base, prog, n - 1);
      ImageStored(m, base, prog, n - 1, a);
      forall b: u32 | base + 4 * (n - 1) <= b < base + 4 * n ensures b !in before {
        ImageStored(m, base, prog, n - 1, b);
      }
      LineStored(before, base, prog, n - 1, 4, a);
    }
  }

  lemma StoredIsImage(m: Mem, base: u32, prog: seq<Inst>, n: nat, chunks: nat)
    requires AllEncodable(prog) && base + 4 * n <= 0x1_0000_0000 && Fresh(m, base, 4 * n) && chunks <= 4 * n
    ensures IsImage(StoreImage(m, base, prog, n), base, prog, chunks)
  {
    hide ChunkBytes; hide StoreImage;
    var m' := StoreImage(m, base, prog, n);
    forall a: u32 | base <= a < base + chunks ensures a in m' && m'[a] == Untyped(ChunkBytes(prog, a - base)) {
      ImageStored(m, base, prog, n, a);
    }
  }

  // ---- unpacking ----

  /** Four little-endian bytes are the low word. */
  lemma LowWord(x: nat)
    ensures var b := LeBytes(x, 8);
            && Le32(b[0], b[1], b[2], b[3]) == x % 0x1_0000_0000
            && Le32(b[4], b[5], b[6], b[7]) == (x / 0x1_0000_0000) % 0x1_0000_0000
  {
    ByteAt(x, 8, 0);
    ByteAt(x, 8, 1);
    ByteAt(x, 8, 2);
    ByteAt(x, 8, 3);
    ByteAt(x, 8, 4);
    ByteAt(x, 8, 5);
    ByteAt(x, 8, 6);
    ByteAt(x, 8, 7);
    hide LeBytes;
    FourBytes(x);
    var y := x / 0x1_0000_0000;
    FourBytes(y);
    assert Shift(x, 4) == y && Shift(x, 5) == Shift(y, 1) && Shift(x, 6) == Shift(y, 2) && Shift(x, 7) == Shift(y, 3);
  }

  function Shift(x: nat, k: nat): nat {
    if k == 0 then x else Shift(x, k - 1) / 0x100
  }

  lemma {:induction false} ByteAt(x: nat, n: nat, k: nat)
    requires k < n
    ensures LeBytes(x, n)[k] == Shift(x, k) % 0x100
  {
    if k > 0 {
      ByteAt(x / 0x100, n - 1, k - 1);
      ShiftFirst(x, k);
    }
  }

  lemma {:induction false} ShiftFirst(x: nat, k: nat)
    requires k > 0
    ensures Shift(x, k) == Shift(x / 0x100, k - 1)
  {
    if k > 1 {
      ShiftFirst(x, k - 1);
    }
  }

  lemma FourBytes(x: nat)
    ensures Le32(x % 0x100, Shift(x, 1) % 0x100, Shift(x, 2) % 0x100, Shift(x, 3) % 0x100) == x % 0x1_0000_0000
    ensures Shift(x, 4) == x / 0x1_0000_0000
  {
    var x1, x2, x3 := x / 0x100, x / 0x1_0000, x / 0x100_0000;
    Divide256(x);
    assert Shift(x, 1) == x1;
    assert Shift(x, 2) == Shift(x, 1) / 0x100 == x2;
    assert Shift(x, 3) == Shift(x, 2) / 0x100 == x3;
    assert Shift(x, 4) == Shift(x, 3) / 0x100 == x / 0x1_0000_0000;
    assert x == 0x100 * x1 + x % 0x100 && x1 == 0x100 * x2 + x1 % 0x100;
    assert x2 == 0x100 * x3 + x2 % 0x100 && x3 == 0x100 * Shift(x, 4) + x3 % 0x100;
  }

  lemma ChunkWords(prog: seq<Inst>, k: nat)
    requires AllEncodable(prog)
    ensures DecodeCpuData(ChunkBytes(prog, k)) ==
            Vec4(Word(prog, 4 * k), Word(prog, 4 * k + 1), Word(prog, 4 * k + 2), Word(prog, 4 * k + 3))
  {
    hide LeBytes; hide Word; hide Le32;
    var d0, d1 := DoubleWord(prog, 2 * k), DoubleWord(prog, 2 * k + 1);
    LowWord(d0);
    LowWord(d1);
    assert 2 * (2 * k) == 4 * k && 2 * (2 * k + 1) == 4 * k + 2;
  }

  /** Reading the chunks of an image yields its words. */
  lemma {:induction false} ImageRead(m: Mem, base: u32, prog: seq<Inst>, n: nat, a: u32)
    requires AllEncodable(prog) && IsImage(m, base, prog, n) && base + n <= 0x1_0000_0000
    ensures var (words, m') := ReadChunks(m, base, n);
            && words.Some? && |words.value| == n
            && (forall k :: 0 <= k < n ==> words.value[k] == DecodeCpuData(ChunkBytes(prog, k)))
            && (!(base <= a < base + n) ==> (a in m' <==> a in m) && (a in m ==> m'[a] == m[a]))
  {
    hide ChunkBytes; hide DecodeCpuData;
    if n > 0 {
      ImageRead(m, base, prog, n - 1, a);
      ImageRead(m, base, prog, n - 1, base + (n - 1));
    }
  }

  /** Half word `j` of the unpacked chunks is half word `j` of the image. */
  lemma {:induction false} HalvesAre(words: seq<Vec4>, prog: seq<Inst>)
    requires AllEncodable(prog)
    requires forall k :: 0 <= k < |words| ==> words[k] == DecodeCpuData(ChunkBytes(prog, k))
    ensures |Halves(words)| == 8 * |words|
    ensures forall j :: 0 <= j < 8 * |words| ==> Halves(words)[j] == Half(prog, j)
  {
    hide ChunkBytes; hide DecodeCpuData; hide Half; hide ChunkHalves;
    if words != [] {
      var n := |words| - 1;
      HalvesAre(words[..n], prog);
      ChunkWords(prog, n);
      ChunkHalvesAre(prog, n);
      assert Halves(words) == Halves(words[..n]) + ChunkHalves(words[n]);
      forall j | 0 <= j < 8 * |words| ensures Halves(words)[j] == Half(prog, j) {
        if j >= 8 * n {
          assert j == 8 * n + (j - 8 * n);
        }
      }
    }
  }

  lemma WordSplits(prog: seq<Inst>, w: nat)
    requires AllEncodable(prog)
    ensures WordHalves(Word(prog, w)) == [Half(prog, 2 * w), Half(prog, 2 * w + 1)]
  {
  }

  lemma ChunkHalvesAre(prog: seq<Inst>, k: nat)
    requires AllEncodable(prog)
    ensures var v := Vec4(Word(prog, 4 * k), Word(prog, 4 * k + 1), Word(prog, 4 * k + 2), Word(prog, 4 * k + 3));
            && |ChunkHalves(v)| == 8
            && forall j :: 0 <= j < 8 ==> ChunkHalves(v)[j] == Half(prog, 8 * k + j)
  {
    hide Word; hide Half; hide WordHalves;
    WordSplits(prog, 4 * k);
    WordSplits(prog, 4 * k + 1);
    WordSplits(prog, 4 * k + 2);
    WordSplits(prog, 4 * k + 3);
    var v := Vec4(Word(prog, 4 * k), Word(prog, 4 * k + 1), Word(prog, 4 * k + 2), Word(prog, 4 * k + 3));
    assert ChunkHalves(v) == [Half(prog, 8 * k), Half(prog, 8 * k + 1), Half(prog, 8 * k + 2), Half(prog, 8 * k + 3),
                              Half(prog, 8 * k + 4), Half(prog, 8 * k + 5), Half(prog, 8 * k + 6),
                                    Half(prog, 8 * k + 7)];
  }

  /** The program followed by NOPs. */
  function Padded(prog: seq<Inst>, n: nat): seq<Inst>
    requires |prog| <= n
  {
    prog + seq(n - |prog|, _ => NOP)
  }

  lemma {:induction false} HalvesDecode(halves: seq<u16>, prog: seq<Inst>)
    requires AllEncodable(prog) && forall j :: 0 <= j < |halves| ==> halves[j] == Half(prog, j)
    ensures var d := DecodeAll(halves);
            && d.Some? && |d.value| == |halves|
            && forall j :: 0 <= j < |halves| ==> d.value[j] == (if j < |prog| then prog[j] else NOP)
  {
    hide DecodeInst; hide EncodeInst; hide Encodable;
    if halves != [] {
      var n := |halves| - 1;
      HalvesDecode(halves[..n], prog);
      if n < |prog| {
        InstRoundTrip(prog[n]);
      } else {
        ZeroIsNop();
      }
    }
  }

  lemma ZeroIsNop()
    ensures DecodeInst(0) == Some(NOP)
  {
  }

  /** The image round trip: loading an image gives the program back, padded with NOPs, and touches no
      other entry. */
  lemma ImageLoads(l: Loaded, base: u32, prog: seq<Inst>, chunks: nat)
    requires AllEncodable(prog) && |prog| <= 8 * chunks && base + chunks < 0x1_0000_0000
    requires IsImage(l.mem, base, prog, chunks)
    ensures var (ok, l') := LoadProgram(l, base, chunks);
            ok && l'.imem == Padded(prog, 8 * chunks) && l'.agu == l.agu && l'.f == l.f
  {
    hide ChunkBytes; hide DecodeCpuData; hide Halves; hide DecodeAll; hide Half; hide IsImage; hide Encodable;
    ImageRead(l.mem, base, prog, chunks, base);
    var words := ReadChunks(l.mem, base, chunks).0.value;
    HalvesAre(words, prog);
    HalvesDecode(Halves(words), prog);
    assert DecodeAll(Halves(words)).value == Padded(prog, 8 * chunks);
  }
}
