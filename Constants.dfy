/**
 * The engine's shared constants: the render batch size and the flag enums
 * for hulls, edges, points and entities, with the generators that turn
 * each enum into OpenCL `#define` lines.
 */
module Constants {
  import opened JavaText

  const BufferBaseSize: int := 256
  const BufferMultiplier: int := 4
  const MaxBatchSize: int := (BufferBaseSize * BufferBaseSize) * BufferMultiplier

  /** One enum constant: its name and its bit pattern. */
  datatype Flag = Flag(name: string, bits: int)

  const HullFlags: seq<Flag> := [
    Flag("IS_STATIC", 0x1), Flag("IS_CIRCLE", 0x2), Flag("IS_POLYGON", 0x4), Flag("NO_BONES", 0x8),
    Flag("OUT_OF_BOUNDS", 0x10), Flag("IS_SENSOR", 0x20), Flag("IS_FOOT", 0x40), Flag("SIDE_L", 0x80),
    Flag("SIDE_R", 0x100), Flag("IS_LIQUID", 0x200), Flag("IN_LIQUID", 0x400), Flag("TOUCH_ALIKE", 0x800),
    Flag("IS_BLOCK", 0x1000), Flag("IS_ORGANIC", 0x2000), Flag("IN_PERIMETER", 0x4000), Flag("IS_CURSOR", 0x8000),
    Flag("CURSOR_OVER", 0x1_0000), Flag("IS_HAND", 0x2_0000), Flag("IN_RANGE", 0x4_0000), Flag("CURSOR_HIT", 0x8_0000),
    Flag("GHOST_HULL", 0x10_0000), Flag("IS_HEAD", 0x20_0000), Flag("SENSOR_HIT", 0x40_0000)
  ]

  const EdgeFlags: seq<Flag> := [Flag("E_INTERIOR", 0x1), Flag("SENSOR_EDGE", 0x2)]

  const PointFlags: seq<Flag> := [
    Flag("P_INTERIOR", 0x1), Flag("HIT_FLOOR", 0x2), Flag("HIT_WALL", 0x4), Flag("FLOW_LEFT", 0x8),
    Flag("HIGH_DENSITY", 0x10)
  ]

  const EntityFlags: seq<Flag> := [
    Flag("DELETED", 0x1), Flag("CAN_JUMP", 0x2), Flag("FACE_LEFT", 0x4), Flag("IS_WET", 0x8),
    Flag("SECTOR_OUT", 0x10), Flag("ATTACKING", 0x20), Flag("BROKEN", 0x40), Flag("CAN_COLLECT", 0x80),
    Flag("COLLECTED", 0x100), Flag("COLLECTABLE", 0x200), Flag("GHOST_ACTIVE", 0x400)
  ]

  /** The entity flags the player controller reads and writes. */
  const CanJump: int := 0x2
  const FaceLeft: int := 0x4
  const IsWet: int := 0x8
  const Attacking: int := 0x20
  const CanCollect: int := 0x80

  /** The flag the world unloader gives the pieces of a broken object. */
  const Collectable: int := 0x200

  /** An enum whose i-th constant is the single bit 2^i: so all are distinct single bits. */
  predicate OrdinalBits(flags: seq<Flag>)
  {
    forall i :: 0 <= i < |flags| ==> flags[i].bits == Pow2(i)
  }

  /** n has exactly one bit set. */
  predicate SingleBit(n: int)
    decreases if n > 0 then n else 0
  {
    n == 1 || (n > 1 && n % 2 == 0 && SingleBit(n / 2))
  }

  /** Every flag is a single bit and no two flags share one. */
  predicate DistinctSingleBits(flags: seq<Flag>)
  {
    && (forall i :: 0 <= i < |flags| ==> SingleBit(flags[i].bits))
    && (forall i, j :: 0 <= i < j < |flags| ==> flags[i].bits != flags[j].bits)
  }

  lemma {:induction false} Pow2IsSingleBit(k: nat)
    ensures SingleBit(Pow2(k))
  {
    if k > 0 {
      Pow2IsSingleBit(k - 1);
      assert Pow2(k) / 2 == Pow2(k - 1);
    }
  }

  lemma {:induction false} Pow2Increasing(a: nat, b: nat)
    requires a < b
    ensures Pow2(a) < Pow2(b)
  {
    if b > a + 1 {
      Pow2Increasing(a, b - 1);
    }
  }

  lemma OrdinalBitsAreDistinct(flags: seq<Flag>)
    requires OrdinalBits(flags)
    ensures DistinctSingleBits(flags)
  {
    forall i, j | 0 <= i < j < |flags|
      ensures flags[i].bits != flags[j].bits
    {
      Pow2Increasing(i, j);
    }
    forall i | 0 <= i < |flags|
      ensures SingleBit(flags[i].bits)
    {
      Pow2IsSingleBit(i);
    }
  }

  lemma Pow2Low()
    ensures Pow2(0) == 0x1 && Pow2(1) == 0x2 && Pow2(2) == 0x4 && Pow2(3) == 0x8
    ensures Pow2(4) == 0x10 && Pow2(5) == 0x20 && Pow2(6) == 0x40 && Pow2(7) == 0x80
    ensures Pow2(8) == 0x100 && Pow2(9) == 0x200 && Pow2(10) == 0x400
  {
    assert Pow2(4) == 0x10;
    assert Pow2(8) == 0x100;
  }

  lemma Pow2High()
    ensures Pow2(11) == 0x800
    ensures Pow2(12) == 0x1000 && Pow2(13) == 0x2000 && Pow2(14) == 0x4000 && Pow2(15) == 0x8000
    ensures Pow2(16) == 0x1_0000 && Pow2(17) == 0x2_0000 && Pow2(18) == 0x4_0000 && Pow2(19) == 0x8_0000
    ensures Pow2(20) == 0x10_0000 && Pow2(21) == 0x20_0000 && Pow2(22) == 0x40_0000
  {
    Pow2Low();
    assert Pow2(12) == 0x1000;
    assert Pow2(16) == 0x1_0000;
    assert Pow2(20) == 0x10_0000;
  }

  lemma HullFlagsOrdinal()
    ensures OrdinalBits(HullFlags)
  {
    Pow2Low();
    Pow2High();
  }

  lemma SmallFlagsOrdinal()
    ensures OrdinalBits(EdgeFlags) && OrdinalBits(PointFlags) && OrdinalBits(EntityFlags)
  {
    Pow2Low();
  }

  /** Every HullFlags, EdgeFlags, PointFlags and EntityFlags value is a distinct single bit. */
  lemma FlagsAreDistinctSingleBits()
    ensures DistinctSingleBits(HullFlags) && DistinctSingleBits(EdgeFlags)
    ensures DistinctSingleBits(PointFlags) && DistinctSingleBits(EntityFlags)
  {
    HullFlagsOrdinal();
    SmallFlagsOrdinal();
    OrdinalBitsAreDistinct(HullFlags);
    OrdinalBitsAreDistinct(EdgeFlags);
    OrdinalBitsAreDistinct(PointFlags);
    OrdinalBitsAreDistinct(EntityFlags);
  }

  lemma MaxBatchSizeValue()
    ensures MaxBatchSize == 262144
  {
  }

  /** One flag's `#define NAME 0b<binary>` line, without its line break. */
  function DefineLine(f: Flag): string
    requires -0x8000_0000 <= f.bits < 0x8000_0000
  {
    "#define " + f.name + " 0b" + BinaryString(f.bits)
  }

  predicate InIntRange(flags: seq<Flag>)
  {
    forall f :: f in flags ==> -0x8000_0000 <= f.bits < 0x8000_0000
  }

  /** The lines joined with "\n" between them (Collectors.joining's delimiter). */
  function JoinLines(flags: seq<Flag>): string
    requires InIntRange(flags)
  {
    if |flags| == 0 then ""
    else if |flags| == 1 then DefineLine(flags[0])
    else JoinLines(flags[..|flags| - 1]) + "\n" + DefineLine(flags[|flags| - 1])
  }

  /** The *_flags_src generators: the joined lines with the suffix "\n". */
  function FlagsSrc(flags: seq<Flag>): string
    requires InIntRange(flags)
  {
    JoinLines(flags) + "\n"
  }

  /** Each flag's line followed by its own line break, in enum order. */
  function EachLine(flags: seq<Flag>): string
    requires InIntRange(flags)
  {
    if |flags| == 0 then "" else EachLine(flags[..|flags| - 1]) + DefineLine(flags[|flags| - 1]) + "\n"
  }

  /** For a non-empty enum the generated text is one line per flag, in order, each ending in a newline. */
  lemma {:induction false} FlagsSrcIsOneLinePerFlag(flags: seq<Flag>)
    requires InIntRange(flags) && |flags| > 0
    ensures FlagsSrc(flags) == EachLine(flags)
  {
    if |flags| > 1 {
      var init := flags[..|flags| - 1];
      FlagsSrcIsOneLinePerFlag(init);
      assert init[..|init| - 1] == flags[..|flags| - 2];
      assert EachLine(flags) == EachLine(init) + DefineLine(flags[|flags| - 1]) + "\n";
    } else {
      assert flags[..0] == [];
    }
  }

  /** A single-bit flag's line ends in "0b1" followed by as many zeros as its bit position. */
  lemma DefineLineOfBit(f: Flag, k: nat)
    requires f.bits == Pow2(k) && f.bits < 0x8000_0000
    ensures DefineLine(f) == "#define " + f.name + " 0b1" + seq(k, _ => '0')
  {
    BitsOfPow2(k);
  }
}
