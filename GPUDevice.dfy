/**
 * The device-side choices `GPU` makes on the host: the names it gives to
 * OpenGL debug-message codes, the work size it prefers for a device, and the
 * halving that shrinks the largest work group until the scan kernels' local
 * buffers fit in the device's local memory.
 */
module GPUDevice {
  import opened JavaNumbers
  import opened JavaText

  // ---------------------------------------------------------------------
  // OpenGL debug labels
  // ---------------------------------------------------------------------

  /**
   * What a debug table gives for a code: its name, or, for a code the table
   * does not list, the code itself (the library then prints it as an
   * "unknown token").
   */
  datatype DebugLabel = Known(text: string) | Unknown(token: int)

  /** `get_debug_source`: GL_DEBUG_SOURCE_API (0x8246) to GL_DEBUG_SOURCE_OTHER (0x824B). */
  const SourceNames: seq<(int, string)> := [
    (33350, "API"), (33351, "WINDOW SYSTEM"), (33352, "SHADER COMPILER"),
    (33353, "THIRD PARTY"), (33354, "APPLICATION"), (33355, "OTHER")]

  /** `get_debug_type`: GL_DEBUG_TYPE_ERROR (0x824C) to GL_DEBUG_TYPE_OTHER (0x8251), and the marker type (0x8268). */
  const TypeNames: seq<(int, string)> := [
    (33356, "ERROR"), (33357, "DEPRECATED BEHAVIOR"), (33358, "UNDEFINED BEHAVIOR"),
    (33359, "PORTABILITY"), (33360, "PERFORMANCE"), (33361, "OTHER"), (33384, "MARKER")]

  /** `get_debug_severity`: GL_DEBUG_SEVERITY_NOTIFICATION (0x826B) and HIGH, MEDIUM, LOW (0x9146 to 0x9148). */
  const SeverityNames: seq<(int, string)> := [
    (33387, "NOTIFICATION"), (37190, "HIGH"), (37191, "MEDIUM"), (37192, "LOW")]

  /** Where a code first occurs in a table, or the table's length. */
  function CodeIndex(table: seq<(int, string)>, code: int): (i: nat)
    ensures i <= |table|
    ensures i < |table| ==> table[i].0 == code
    ensures forall j :: 0 <= j < i ==> table[j].0 != code
  {
    if |table| == 0 || table[0].0 == code then 0 else 1 + CodeIndex(table[1..], code)
  }

  /** A switch over a table: the name of the first entry for the code. */
  function Label(table: seq<(int, string)>, code: int): (l: DebugLabel)
    ensures l.Unknown? <==> forall i :: 0 <= i < |table| ==> table[i].0 != code
    ensures l.Unknown? ==> l.token == code
    ensures l.Known? ==> exists i :: 0 <= i < |table| && table[i] == (code, l.text)
  {
    var i := CodeIndex(table, code);
    if i < |table| then Known(table[i].1) else Unknown(code)
  }

  /** Where a name first occurs in a table, or the table's length. */
  function LabelIndex(table: seq<(int, string)>, text: string): (i: nat)
    ensures i <= |table|
    ensures i < |table| ==> table[i].1 == text
    ensures forall j :: 0 <= j < i ==> table[j].1 != text
  {
    if |table| == 0 || table[0].1 == text then 0 else 1 + LabelIndex(table[1..], text)
  }

  /** Reading a label back: the code a name stands for, or the token an unknown label carries. */
  function Code(table: seq<(int, string)>, l: DebugLabel): int
  {
    match l
    case Unknown(token) => token
    case Known(text) =>
      var i := LabelIndex(table, text);
      if i < |table| then table[i].0 else 0
  }

  predicate DistinctNames(table: seq<(int, string)>)
  {
    forall i, j :: 0 <= i < j < |table| ==> table[i].1 != table[j].1
  }

  /** A table whose names are distinct loses nothing: every code can be read back from its label. */
  lemma LabelRoundTrip(table: seq<(int, string)>, code: int)
    requires DistinctNames(table)
    ensures Code(table, Label(table, code)) == code
  {
    var l := Label(table, code);
    if l.Known? {
      var i :| 0 <= i < |table| && table[i] == (code, l.text);
      var k := LabelIndex(table, l.text);
      assert k <= i;
      assert k == i;
    }
  }

  function DebugSource(source: int): DebugLabel { Label(SourceNames, source) }
  function DebugType(kind: int): DebugLabel { Label(TypeNames, kind) }
  function DebugSeverity(severity: int): DebugLabel { Label(SeverityNames, severity) }

  lemma NamesAreDistinct()
    ensures DistinctNames(SourceNames)
    ensures DistinctNames(TypeNames)
    ensures DistinctNames(SeverityNames)
  {
  }

  /** Two codes that get the same source, type or severity label are the same code. */
  lemma DebugLabelsAreInjective(a: int, b: int)
    ensures DebugSource(a) == DebugSource(b) ==> a == b
    ensures DebugType(a) == DebugType(b) ==> a == b
    ensures DebugSeverity(a) == DebugSeverity(b) ==> a == b
  {
    NamesAreDistinct();
    LabelRoundTrip(SourceNames, a);
    LabelRoundTrip(SourceNames, b);
    LabelRoundTrip(TypeNames, a);
    LabelRoundTrip(TypeNames, b);
    LabelRoundTrip(SeverityNames, a);
    LabelRoundTrip(SeverityNames, b);
  }

  /** The codes `get_debug_source` names: 0x8246 to 0x824B. */
  lemma DebugSourceCodes(c: int)
    ensures DebugSource(c).Known? <==> 33350 <= c <= 33355
    ensures DebugSource(33350) == Known("API")
  {
    assert forall i :: 0 <= i < |SourceNames| ==> SourceNames[i].0 == 33350 + i;
    if 33350 <= c <= 33355 {
      assert SourceNames[c - 33350].0 == c;
    }
  }

  /** The codes `get_debug_type` names: 0x824C to 0x8251, and 0x8268. */
  lemma DebugTypeCodes(c: int)
    ensures DebugType(c).Known? <==> 33356 <= c <= 33361 || c == 33384
    ensures DebugType(33384) == Known("MARKER")
  {
    assert forall i :: 0 <= i < 6 ==> TypeNames[i].0 == 33356 + i;
    assert TypeNames[6].0 == 33384;
    if 33356 <= c <= 33361 {
      assert TypeNames[c - 33356].0 == c;
    }
  }

  /** The codes `get_debug_severity` names: 0x826B and 0x9146 to 0x9148. */
  lemma DebugSeverityCodes(c: int)
    ensures DebugSeverity(c).Known? <==> c == 33387 || 37190 <= c <= 37192
    ensures DebugSeverity(37190) == Known("HIGH")
  {
    assert SeverityNames[0].0 == 33387;
    assert forall i :: 1 <= i < 4 ==> SeverityNames[i].0 == 37189 + i;
    if 37190 <= c <= 37192 {
      assert SeverityNames[c - 37189].0 == c;
    }
  }

  // ---------------------------------------------------------------------
  // Preferred work size
  // ---------------------------------------------------------------------

  /** What a device query returns for a property the device does not report. */
  const NotReported: int := -1

  /**
   * The preferred work size: AMD's wavefront width when the device reports
   * one, otherwise NVIDIA's warp width, otherwise 32.
   */
  function PreferredWorkSize(wavefrontWidth: int, warpWidth: int): (r: int)
    ensures r != NotReported
    ensures wavefrontWidth != NotReported ==> r == wavefrontWidth
    ensures wavefrontWidth == NotReported && warpWidth != NotReported ==> r == warpWidth
    ensures wavefrontWidth == NotReported && warpWidth == NotReported ==> r == 32
  {
    if wavefrontWidth != NotReported then wavefrontWidth
    else if warpWidth != NotReported then warpWidth
    else 32
  }

  // ---------------------------------------------------------------------
  // Work-group size against local memory
  // ---------------------------------------------------------------------

  /** Bytes of a `cl_int2` and of a `cl_int4`. */
  const Int2Size: int := 8
  const Int4Size: int := 16

  /** The local memory a scan block needs: one int2 and one int4 per element. */
  function ScanLocalBytes(block: int): int
  {
    Int2Size * block + Int4Size * block
  }

  /** A group size whose scan block (twice the group) fits below the device's local memory. */
  predicate Fits(group: int, localMem: int)
  {
    ScanLocalBytes(2 * group) < localMem
  }

  /** The group size the halving loop settles on. */
  function FittedGroupSize(group: int, localMem: int): int
    requires localMem > 0
    decreases if group > 0 then group else 0
  {
    if Fits(group, localMem) then group else FittedGroupSize(Quot(group, 2), localMem)
  }

  /**
   * The loop in `init_cl`: halve the group size (Java's truncating `/ 2`)
   * while the scan block's int2 and int4 buffers need at least the device's
   * local memory; the block is always twice the group.
   */
  method FitWorkGroup(maxGroupSize: int, localMem: int) returns (group: int, block: int)
    requires localMem > 0
    ensures group == FittedGroupSize(maxGroupSize, localMem)
    ensures block == 2 * group
    ensures ScanLocalBytes(block) < localMem
  {
    group := maxGroupSize;
    block := group * 2;
    var int2Max := Int2Size * block;
    var int4Max := Int4Size * block;
    var sizeCap := int2Max + int4Max;
    while sizeCap >= localMem
      invariant block == 2 * group
      invariant sizeCap == ScanLocalBytes(block)
      invariant FittedGroupSize(group, localMem) == FittedGroupSize(maxGroupSize, localMem)
      decreases if group > 0 then group else 0
    {
      group := Quot(group, 2);
      block := group * 2;
      int2Max := Int2Size * block;
      int4Max := Int4Size * block;
      sizeCap := int2Max + int4Max;
    }
    FittedFits(group, localMem);
  }

  lemma FittedFits(group: int, localMem: int)
    requires localMem > 0
    ensures Fits(FittedGroupSize(group, localMem), localMem)
    decreases if group > 0 then group else 0
  {
    if !Fits(group, localMem) {
      FittedFits(Quot(group, 2), localMem);
    }
  }

  /** The group size after k halvings of g, in closed form. */
  function Halving(g: nat, k: nat): nat
  {
    DivNonNegative(g, Pow2(k));
    g / Pow2(k)
  }

  lemma DivNonNegative(g: nat, p: int)
    requires p >= 1
    ensures g / p >= 0
  {
  }

  /** Halving twice by truncation is dividing by the product. */
  lemma HalfOfQuotient(g: nat, p: nat)
    requires p >= 1
    ensures g / p / 2 == g / (2 * p)
  {
    var q, r := g / p, g % p;
    var q2, r2 := q / 2, q % 2;
    assert g == p * q + r;
    assert q == 2 * q2 + r2;
    assert g == (2 * p) * q2 + (p * r2 + r);
    assert 0 <= p * r2 <= p;
    ModUnique(g, 2 * p, q2, p * r2 + r);
  }

  lemma {:induction false} FirstFitFrom(g: nat, localMem: int, k: nat)
    requires localMem > 0
    requires forall j :: 0 <= j < k ==> !Fits(Halving(g, j), localMem)
    ensures exists n: nat :: (k <= n && FittedGroupSize(Halving(g, k), localMem) == Halving(g, n)
      && Fits(Halving(g, n), localMem) && forall j :: 0 <= j < n ==> !Fits(Halving(g, j), localMem))
    decreases Halving(g, k)
  {
    var h := Halving(g, k);
    if !Fits(h, localMem) {
      HalfOfQuotient(g, Pow2(k));
      assert Quot(h, 2) == Halving(g, k + 1);
      FirstFitFrom(g, localMem, k + 1);
    }
  }

  /**
   * For a non-negative device maximum, the group size the loop settles on is
   * the maximum divided by the smallest power of two that makes it fit.
   */
  lemma FittedIsFirstFittingHalving(maxGroupSize: nat, localMem: int)
    requires localMem > 0
    ensures exists n: nat :: (FittedGroupSize(maxGroupSize, localMem) == Halving(maxGroupSize, n)
      && Fits(Halving(maxGroupSize, n), localMem)
      && forall j :: 0 <= j < n ==> !Fits(Halving(maxGroupSize, j), localMem))
  {
    FirstFitFrom(maxGroupSize, localMem, 0);
    assert Halving(maxGroupSize, 0) == maxGroupSize;
  }

  /**
   * The halving loop as written, on a device that reports no local memory:
   * no number of halvings makes the scan block fit, and once the group size
   * is 0 halving leaves it at 0, so the loop in `init_cl` never ends.
   */
  lemma {:induction false} NoHalvingFitsWithoutLocalMemory(g: nat, localMem: int, k: nat)
    requires localMem <= 0
    ensures !Fits(Halving(g, k), localMem)
    ensures Quot(0, 2) == 0 && !Fits(0, localMem)
  {
    assert ScanLocalBytes(2 * Halving(g, k)) == 48 * Halving(g, k) >= 0;
  }
}
