/**
 * The OpenCL source `GPU.CL` generates for two families of kernels: the
 * create kernels, which store one new object's fields at a target position,
 * and the compact kernels, which move each object's fields down by a shift.
 * A kernel's arguments are its enum's constants, in declaration order; each
 * has a name and an OpenCL type.
 */
module KernelSource {
  import opened Wrappers
  import opened JavaStrings

  datatype KernelArg = KernelArg(name: string, clType: string)

  /** What `CL_Type.buffer_name` puts around a type to declare a global buffer of it. */
  const BufferPrefix: string := "__global"
  const BufferSuffix: string := "*"

  /** `CL_Type.buffer_name`: the prefix, the type and the suffix, joined by spaces. */
  function BufferName(clType: string): string
  {
    BufferPrefix + " " + clType + " " + BufferSuffix
  }

  // ---------------------------------------------------------------------
  // Text helpers
  // ---------------------------------------------------------------------

  /**
   * Pieces of text appended one after another, as a `StringBuilder`
   * collects them; a kernel's source is the concatenation of its pieces.
   */
  function Concat(pieces: seq<string>): string
  {
    if |pieces| == 0 then [] else Concat(pieces[..|pieces| - 1]) + pieces[|pieces| - 1]
  }

  lemma {:induction false} ConcatAppend(a: seq<string>, b: seq<string>)
    ensures Concat(a + b) == Concat(a) + Concat(b)
    decreases |b|
  {
    if |b| == 0 {
      assert a + b == a;
    } else {
      assert (a + b)[..|a + b| - 1] == a + b[..|b| - 1];
      ConcatAppend(a, b[..|b| - 1]);
    }
  }

  lemma ConcatOne(x: string)
    ensures Concat([x]) == x
  {
    assert [x][..0] == [];
  }

  /** Appending a piece to the builder appends it to the list of pieces. */
  lemma ConcatSnoc(a: seq<string>, x: string)
    ensures Concat(a) + x == Concat(a + [x])
  {
    assert (a + [x])[..|a|] == a;
  }

  /** `StringBuilder.append`, keeping track of the pieces appended so far. */
  method Append(src: string, ghost done: seq<string>, piece: string) returns (text: string, ghost pieces: seq<string>)
    requires src == Concat(done)
    ensures pieces == done + [piece]
    ensures text == Concat(pieces)
  {
    ConcatSnoc(done, piece);
    text := src + piece;
    pieces := done + [piece];
  }

  lemma SnocAssoc<T>(a: seq<T>, b: seq<T>, x: T)
    ensures a + b + [x] == a + (b + [x])
  {
  }

  lemma SnocTwo<T>(a: seq<T>, x: T, y: T)
    ensures a + [x] + [y] == a + [x, y]
  {
  }

  lemma SnocFour<T>(a: seq<T>, w: T, x: T, y: T, z: T)
    ensures a + [w] + [x] + [y] + [z] == a + [w, x, y, z]
  {
  }

  lemma NoneAppended<T>(a: seq<T>)
    ensures a + [] == a
  {
  }

  /** The braces that open and close a kernel body and a block inside it. */
  const OpenBody: string := "{\n"
  const CloseBody: string := "}\n\n"
  const OpenBlock: string := "\t{\n"
  const CloseBlock: string := "\t}\n"

  /** `w` is the text of `s` from position p on. */
  predicate OccursAt(s: string, w: string, p: nat)
  {
    p + |w| <= |s| && s[p..p + |w|] == w
  }

  /**
   * Each piece is found in the text right after the pieces before it, so
   * the order of the pieces is the order of the text.
   */
  lemma PieceOccurs(pieces: seq<string>, i: nat)
    requires i < |pieces|
    ensures OccursAt(Concat(pieces), pieces[i], |Concat(pieces[..i])|)
  {
    var a, x, b := pieces[..i], pieces[i], pieces[i + 1..];
    assert pieces == (a + [x]) + b;
    ConcatAppend(a + [x], b);
    ConcatAppend(a, [x]);
    ConcatOne(x);
    assert Concat(pieces) == Concat(a) + x + Concat(b);
    assert Concat(pieces)[|Concat(a)|..|Concat(a)| + |x|] == x;
  }

  // ---------------------------------------------------------------------
  // The kernel header
  // ---------------------------------------------------------------------

  /** One parameter: the argument's type and name joined by a space. */
  function Declaration(a: KernelArg): string
  {
    a.clType + " " + a.name
  }

  /** The declarations joined by a comma, a newline and a tab. */
  function Declarations(args: seq<KernelArg>): string
  {
    if |args| == 0 then []
    else if |args| == 1 then Declaration(args[0])
    else Declarations(args[..|args| - 1]) + ",\n\t" + Declaration(args[|args| - 1])
  }

  /** The kernel's signature, up to the line that opens its body. */
  function Header(kernel: string, args: seq<KernelArg>): string
  {
    "__kernel void " + kernel + "(" + Declarations(args) + ")\n"
  }

  // ---------------------------------------------------------------------
  // Create kernels
  // ---------------------------------------------------------------------

  /** By convention every create kernel has an argument named `target`. */
  const TargetName: string := "target"

  /** The position of the argument named `target`, if there is one. */
  function TargetIndex(args: seq<KernelArg>): (r: Option<nat>)
    ensures r.None? <==> forall i :: 0 <= i < |args| ==> args[i].name != TargetName
    ensures r.Some? ==> r.value < |args| && args[r.value].name == TargetName
    ensures r.Some? ==> forall i :: 0 <= i < r.value ==> args[i].name != TargetName
  {
    if |args| == 0 then None
    else if args[0].name == TargetName then Some(0)
    else match TargetIndex(args[1..])
      case None => None
      case Some(i) => Some(i + 1)
  }

  /** One field store: the named buffer at the target position gets the value argument. */
  function StoreLine(name: string, value: string): string
  {
    "\t" + name + "[target] = " + value + ";\n"
  }

  /**
   * The first k stores of a create kernel whose target is argument t: the
   * buffer argument i gets the value argument i + t + 1.
   */
  function StoreLines(args: seq<KernelArg>, t: nat, k: nat): (lines: seq<string>)
    requires k == 0 || k + t < |args|
    ensures |lines| == k
  {
    if k == 0 then [] else StoreLines(args, t, k - 1) + [StoreLine(args[k - 1].name, args[k + t].name)]
  }

  lemma StoreLinesNext(args: seq<KernelArg>, t: nat, k: nat)
    requires k + t + 1 < |args|
    ensures StoreLines(args, t, k + 1) == StoreLines(args, t, k) + [StoreLine(args[k].name, args[k + t + 1].name)]
  {
  }

  lemma {:induction false} StoreLineAt(args: seq<KernelArg>, t: nat, k: nat, i: nat)
    requires k == 0 || k + t < |args|
    requires i < k
    ensures StoreLines(args, t, k)[i] == StoreLine(args[i].name, args[i + t + 1].name)
  {
    if i < k - 1 {
      StoreLineAt(args, t, k - 1, i);
    }
  }

  /** The header of a create kernel and the opening of its body. */
  function CreateOpening(kernel: string, args: seq<KernelArg>): seq<string>
  {
    [Header(kernel, args), OpenBody]
  }

  /** The pieces of a create kernel: its header, the stores in a block. */
  function CreateKernelPieces(kernel: string, args: seq<KernelArg>, t: nat): seq<string>
    requires t == 0 || 2 * t < |args|
  {
    CreateOpening(kernel, args) + StoreLines(args, t, t) + [CloseBody]
  }

  const MissingTarget: string := "NoSuchElementException: no argument named target"
  const ValueOutOfRange: string := "ArrayIndexOutOfBoundsException: no value argument"

  /** What `crud_create_k_src` returns, or the exception it throws. */
  function CreateKernelSource(kernel: string, args: seq<KernelArg>): Result<string>
  {
    match TargetIndex(args)
    case None => Err(MissingTarget)
    case Some(t) =>
      if t > 0 && 2 * t >= |args| then Err(ValueOutOfRange)
      else Ok(Concat(CreateKernelPieces(kernel, args, t)))
  }

  /** One pass of the loop in `crud_create_k_src`: the store of argument k from argument v = k + t + 1. */
  method AppendStore(src: string, ghost done: seq<string>, kernel: string, args: seq<KernelArg>, t: nat, k: nat, v: nat)
    returns (text: string, ghost pieces: seq<string>)
    requires v == k + t + 1 && v < |args|
    requires done == CreateOpening(kernel, args) + StoreLines(args, t, k) && src == Concat(done)
    ensures pieces == CreateOpening(kernel, args) + StoreLines(args, t, k + 1)
    ensures text == Concat(pieces)
  {
    var line := "\t" + args[k].name + "[target] = " + args[v].name + ";\n";
    assert line == StoreLine(args[k].name, args[v].name);
    StoreLinesNext(args, t, k);
    SnocAssoc(CreateOpening(kernel, args), StoreLines(args, t, k), line);
    text, pieces := Append(src, done, line);
  }

  /**
   * `crud_create_k_src`: find `target`, write the header, then one store per
   * argument before the target, reading the value that many places after it.
   */
  method GenerateCreateKernel(kernel: string, args: seq<KernelArg>) returns (r: Result<string>)
    ensures r == CreateKernelSource(kernel, args)
  {
    var found := TargetIndex(args);
    if found.None? {
      return Err(MissingTarget);
    }
    var t := found.value;
    var src := "__kernel void " + kernel;
    src := src + "(" + Declarations(args) + ")\n";
    ConcatOne(src);
    ghost var done := [src];
    src, done := Append(src, done, OpenBody);
    NoneAppended(done);
    var nameIndex := 0;
    while nameIndex < t
      invariant 0 <= nameIndex <= t
      invariant nameIndex == 0 || nameIndex + t < |args|
      invariant done == CreateOpening(kernel, args) + StoreLines(args, t, nameIndex)
      invariant src == Concat(done)
    {
      var valueIndex := nameIndex + t + 1;
      if valueIndex >= |args| {
        return Err(ValueOutOfRange);
      }
      src, done := AppendStore(src, done, kernel, args, t, nameIndex, valueIndex);
      nameIndex := nameIndex + 1;
    }
    src, done := Append(src, done, CloseBody);
    return Ok(src);
  }

  /** Without an argument named `target` there is no kernel, only the exception. */
  lemma CreateKernelNeedsTarget(kernel: string, args: seq<KernelArg>)
    ensures (forall i :: 0 <= i < |args| ==> args[i].name != TargetName)
      <==> CreateKernelSource(kernel, args) == Err(MissingTarget)
  {
  }

  /**
   * With the target at t, the kernel exists exactly when every argument
   * before the target has a value argument: there are more than 2t arguments.
   */
  lemma CreateKernelNeedsValues(kernel: string, args: seq<KernelArg>, t: nat)
    requires t < |args| && args[t].name == TargetName
    requires forall i :: 0 <= i < t ==> args[i].name != TargetName
    ensures CreateKernelSource(kernel, args).Ok? <==> 2 * t < |args|
  {
    assert TargetIndex(args) == Some(t);
  }

  /**
   * The kernel body is exactly the stores, one per argument i before the
   * target, in argument order: buffer i at the target gets argument i + t + 1.
   */
  lemma CreateKernelStores(kernel: string, args: seq<KernelArg>, t: nat)
    requires t < |args| && args[t].name == TargetName
    requires forall j :: 0 <= j < t ==> args[j].name != TargetName
    requires 2 * t < |args|
    ensures CreateKernelSource(kernel, args) == Ok(Concat(CreateKernelPieces(kernel, args, t)))
    ensures |CreateKernelPieces(kernel, args, t)| == t + 3
    ensures forall i :: 0 <= i < t ==>
      CreateKernelPieces(kernel, args, t)[i + 2] == StoreLine(args[i].name, args[i + t + 1].name)
  {
    assert TargetIndex(args) == Some(t);
    var pieces := CreateKernelPieces(kernel, args, t);
    var opening, stores := CreateOpening(kernel, args), StoreLines(args, t, t);
    assert |opening| == 2;
    forall i | 0 <= i < t
      ensures pieces[i + 2] == StoreLine(args[i].name, args[i + t + 1].name)
    {
      assert pieces[i + 2] == (opening + stores)[i + 2];
      assert (opening + stores)[i + 2] == stores[i];
      StoreLineAt(args, t, t, i);
    }
  }

  // ---------------------------------------------------------------------
  // Compact kernels
  // ---------------------------------------------------------------------

  /**
   * The type of a kernel-local copy of a buffer element: the buffer type
   * with every "__global" and every "*" removed, then trimmed.
   */
  function LocalType(clType: string): string
  {
    Trim(Replace(Replace(clType, BufferPrefix, ""), BufferSuffix, ""))
  }

  /** A local type never keeps a pointer star. */
  lemma LocalTypeIsNotAPointer(clType: string)
    ensures '*' !in LocalType(clType)
  {
    var stripped := Replace(Replace(clType, BufferPrefix, ""), BufferSuffix, "");
    RemovedCharIsAbsent(Replace(clType, BufferPrefix, ""), '*');
    TrimKeepsAbsent(stripped, '*');
  }

  lemma StripPrefix(t: string)
    requires '_' !in t
    ensures Replace(BufferName(t), BufferPrefix, "") == " " + t + " *"
  {
    var rest := " " + t + " *";
    assert BufferName(t) == BufferPrefix + rest;
    assert BufferName(t)[..|BufferPrefix|] == BufferPrefix;
    assert BufferName(t)[|BufferPrefix|..] == rest;
    ReplaceAbsent(rest, BufferPrefix, "");
  }

  lemma StripSuffix(t: string)
    requires '*' !in t
    ensures Replace(" " + t + " *", BufferSuffix, "") == " " + t + " "
  {
    assert " " + t + " *" == (" " + t + " ") + "*";
    ReplaceCharAfter(" " + t + " ", "*", '*', "");
    assert "*"[..1] == "*" && "*"[1..] == "";
    assert Replace("*", "*", "") == "";
    assert " " + t + " " + "" == " " + t + " ";
  }

  /**
   * For a buffer of an OpenCL type (a trimmed name without underscores or
   * stars, as "int", "float4"), the local type is that element type again.
   */
  lemma LocalTypeOfBufferName(t: string)
    requires IsTrimmed(t) && '_' !in t && '*' !in t
    ensures LocalType(BufferName(t)) == t
  {
    StripPrefix(t);
    StripSuffix(t);
    TrimOfPadded(" ", t, " ");
  }

  /** The kernel's work item, and the shift read for it from the first argument. */
  const CurrentLine: string := "\tint current = get_global_id(0);\n"

  function ShiftLine(shift: KernelArg): string
  {
    "\tint shift = " + shift.name + "[current];\n"
  }

  /** A local copy of the argument's element for the current work item. */
  function ReadLine(a: KernelArg): string
  {
    "\t" + LocalType(a.clType) + " " + ("_" + a.name) + " = " + a.name + "[current]" + ";\n"
  }

  const BarrierLine: string := "\tbarrier(CLK_GLOBAL_MEM_FENCE);\n"

  /** The block that runs only for a positive shift, and the position it moves to. */
  const GuardLine: string := "\tif (shift > 0)\n"
  const NewIndexLine: string := "\t\tint new_index = current - shift;\n"

  /** The local copy stored back at the shifted position. */
  function WriteLine(a: KernelArg): string
  {
    "\t\t" + a.name + "[new_index]" + " = " + ("_" + a.name) + ";\n"
  }

  /** The copies of arguments 1 to k - 1. */
  function ReadLines(args: seq<KernelArg>, k: nat): (lines: seq<string>)
    requires 1 <= k <= |args|
    ensures |lines| == k - 1
  {
    if k == 1 then [] else ReadLines(args, k - 1) + [ReadLine(args[k - 1])]
  }

  /** The stores of arguments 1 to k - 1. */
  function WriteLines(args: seq<KernelArg>, k: nat): (lines: seq<string>)
    requires 1 <= k <= |args|
    ensures |lines| == k - 1
  {
    if k == 1 then [] else WriteLines(args, k - 1) + [WriteLine(args[k - 1])]
  }

  lemma ReadLinesNext(args: seq<KernelArg>, k: nat)
    requires 1 <= k < |args|
    ensures ReadLines(args, k + 1) == ReadLines(args, k) + [ReadLine(args[k])]
  {
  }

  lemma WriteLinesNext(args: seq<KernelArg>, k: nat)
    requires 1 <= k < |args|
    ensures WriteLines(args, k + 1) == WriteLines(args, k) + [WriteLine(args[k])]
  {
  }

  lemma {:induction false} ReadLineAt(args: seq<KernelArg>, k: nat, j: nat)
    requires 1 <= j < k <= |args|
    ensures ReadLines(args, k)[j - 1] == ReadLine(args[j])
  {
    if j < k - 1 {
      ReadLineAt(args, k - 1, j);
    }
  }

  lemma {:induction false} WriteLineAt(args: seq<KernelArg>, k: nat, j: nat)
    requires 1 <= j < k <= |args|
    ensures WriteLines(args, k)[j - 1] == WriteLine(args[j])
  {
    if j < k - 1 {
      WriteLineAt(args, k - 1, j);
    }
  }

  /** The pieces up to the copies. */
  function CompactOpening(kernel: string, args: seq<KernelArg>): seq<string>
    requires |args| > 0
  {
    [Header(kernel, args), OpenBody, CurrentLine, ShiftLine(args[0])]
  }

  /** The pieces up to the stores. */
  function CompactPrologue(kernel: string, args: seq<KernelArg>): seq<string>
    requires |args| > 0
  {
    CompactOpening(kernel, args) + ReadLines(args, |args|) + [BarrierLine, GuardLine, OpenBlock, NewIndexLine]
  }

  /** The pieces of a compact kernel. */
  function CompactKernelPieces(kernel: string, args: seq<KernelArg>): seq<string>
    requires |args| > 0
  {
    CompactPrologue(kernel, args) + WriteLines(args, |args|) + [CloseBlock, CloseBody]
  }

  const MissingShift: string := "ArrayIndexOutOfBoundsException: no shift argument"

  /** What `compact_k_src` returns, or the exception it throws. */
  function CompactKernelSource(kernel: string, args: seq<KernelArg>): Result<string>
  {
    if |args| == 0 then Err(MissingShift) else Ok(Concat(CompactKernelPieces(kernel, args)))
  }

  /** The loop of `compact_k_src` that copies every argument after the shift. */
  method AppendCopies(src: string, ghost done: seq<string>, kernel: string, args: seq<KernelArg>)
    returns (text: string, ghost pieces: seq<string>)
    requires |args| > 0 && done == CompactOpening(kernel, args) && src == Concat(done)
    ensures pieces == CompactOpening(kernel, args) + ReadLines(args, |args|)
    ensures text == Concat(pieces)
  {
    text, pieces := src, done;
    NoneAppended(done);
    var argIndex := 1;
    while argIndex < |args|
      invariant 1 <= argIndex <= |args|
      invariant pieces == done + ReadLines(args, argIndex)
      invariant text == Concat(pieces)
    {
      var arg := args[argIndex];
      var clType := Trim(Replace(Replace(arg.clType, BufferPrefix, ""), BufferSuffix, ""));
      var localName := "_" + arg.name;
      ReadLinesNext(args, argIndex);
      SnocAssoc(done, ReadLines(args, argIndex), ReadLine(arg));
      text, pieces := Append(text, pieces, "\t" + clType + " " + localName + " = " + arg.name + "[current]" + ";\n");
      argIndex := argIndex + 1;
    }
  }

  /** The loop of `compact_k_src` that stores every copy at the new index. */
  method AppendStores(src: string, ghost done: seq<string>, kernel: string, args: seq<KernelArg>)
    returns (text: string, ghost pieces: seq<string>)
    requires |args| > 0 && done == CompactPrologue(kernel, args) && src == Concat(done)
    ensures pieces == CompactPrologue(kernel, args) + WriteLines(args, |args|)
    ensures text == Concat(pieces)
  {
    text, pieces := src, done;
    NoneAppended(done);
    var argIndex := 1;
    while argIndex < |args|
      invariant 1 <= argIndex <= |args|
      invariant pieces == done + WriteLines(args, argIndex)
      invariant text == Concat(pieces)
    {
      var arg := args[argIndex];
      var localName := "_" + arg.name;
      WriteLinesNext(args, argIndex);
      SnocAssoc(done, WriteLines(args, argIndex), WriteLine(arg));
      text, pieces := Append(text, pieces, "\t\t" + arg.name + "[new_index]" + " = " + localName + ";\n");
      argIndex := argIndex + 1;
    }
  }

  /**
   * `compact_k_src`: read the shift from the first argument, copy every
   * other argument's element, wait at a barrier, then, for a positive shift
   * only, store every copy at the current position minus the shift.
   */
  method GenerateCompactKernel(kernel: string, args: seq<KernelArg>) returns (r: Result<string>)
    ensures r == CompactKernelSource(kernel, args)
  {
    var src := "__kernel void " + kernel;
    src := src + "(" + Declarations(args) + ")\n";
    ConcatOne(src);
    ghost var done := [src];
    src, done := Append(src, done, OpenBody);
    src, done := Append(src, done, CurrentLine);
    if |args| == 0 {
      return Err(MissingShift);
    }
    src, done := Append(src, done, "\tint shift = " + args[0].name + "[current];\n");
    src, done := AppendCopies(src, done, kernel, args);
    ghost var copied := done;
    src, done := Append(src, done, BarrierLine);
    src, done := Append(src, done, GuardLine);
    src, done := Append(src, done, OpenBlock);
    src, done := Append(src, done, NewIndexLine);
    SnocFour(copied, BarrierLine, GuardLine, OpenBlock, NewIndexLine);
    src, done := AppendStores(src, done, kernel, args);
    ghost var stored := done;
    src, done := Append(src, done, CloseBlock);
    src, done := Append(src, done, CloseBody);
    SnocTwo(stored, CloseBlock, CloseBody);
    return Ok(src);
  }

  /** A compact kernel needs its shift argument: without arguments there is none. */
  lemma CompactKernelNeedsShift(kernel: string, args: seq<KernelArg>)
    ensures CompactKernelSource(kernel, args).Err? <==> |args| == 0
  {
  }

  /**
   * With n arguments after the shift, the kernel has 10 + 2n pieces: the
   * shift is read from the first argument (piece 3), the n copies follow,
   * then the barrier, the guard `if (shift > 0)` and the new index (pieces
   * 4 + n to 7 + n), the n stores, and the block's and the kernel's ends.
   */
  lemma CompactKernelLayout(kernel: string, args: seq<KernelArg>)
    requires |args| > 0
    ensures var p, n := CompactKernelPieces(kernel, args), |args| - 1;
      |p| == 10 + 2 * n
      && p[3] == ShiftLine(args[0])
      && p[4 + n] == BarrierLine && p[5 + n] == GuardLine && p[7 + n] == NewIndexLine
      && p[8 + 2 * n] == CloseBlock && p[9 + 2 * n] == CloseBody
  {
    var n := |args| - 1;
    var pro := CompactPrologue(kernel, args);
    var opening, copies := CompactOpening(kernel, args), ReadLines(args, |args|);
    assert pro == (opening + copies) + [BarrierLine, GuardLine, OpenBlock, NewIndexLine];
    assert |pro| == 8 + n;
  }

  /**
   * Each argument i after the shift is copied for the current work item
   * (piece 3 + i) before the barrier, and stored back from its copy at the
   * new index (piece 7 + n + i) after the guard and before the block ends.
   */
  lemma CompactKernelMoves(kernel: string, args: seq<KernelArg>, i: nat)
    requires 1 <= i < |args|
    ensures var p, n := CompactKernelPieces(kernel, args), |args| - 1;
      |p| == 10 + 2 * n
      && p[3 + i] == ReadLine(args[i]) && 3 + i < 4 + n
      && p[7 + n + i] == WriteLine(args[i]) && 7 + n < 7 + n + i < 8 + 2 * n
  {
    var n := |args| - 1;
    var p := CompactKernelPieces(kernel, args);
    var pro := CompactPrologue(kernel, args);
    var opening, copies := CompactOpening(kernel, args), ReadLines(args, |args|);
    var stores := WriteLines(args, |args|);
    assert |opening| == 4;
    assert pro == (opening + copies) + [BarrierLine, GuardLine, OpenBlock, NewIndexLine];
    assert |pro| == 8 + n;
    assert p == (pro + stores) + [CloseBlock, CloseBody];
    assert pro[3 + i] == (opening + copies)[3 + i] == copies[i - 1];
    assert p[7 + n + i] == (pro + stores)[7 + n + i] == stores[i - 1];
    ReadLineAt(args, |args|, i);
    WriteLineAt(args, |args|, i);
  }
}
