/**
 * The animation transition settings: the blend time between every pair of
 * animation states, the complete map of those times built once, and the
 * OpenCL C lookup table generated from that map and kept after its first
 * generation.
 */
module AnimationSettings {
  import A = AnimationStates
  import opened JavaText

  type State = A.AnimationState

  /** A real with no digits beyond hundredths. */
  predicate IsHundredths(r: real)
  {
    (r * 100.0).Floor as real == r * 100.0
  }

  /**
   * `get_transition`: the time, in seconds, to blend from one animation into
   * another. The table repeats the states' own blend-time table entry for
   * entry, and every time is a whole number of hundredths of a second.
   */
  function GetTransition(from: State, to: State): (r: real)
    ensures r == A.BlendTime(from, to)
    ensures 0.0 <= r <= 0.5 && IsHundredths(r)
  {
    match from
    case IDLE =>
      (match to
       case IDLE | UNKNOWN => 0.0
       case WALKING | LAND_HARD | FALLING_SLOW | LAND_SOFT | SWIM_UP | SWIM_DOWN
         | FALLING_FAST | JUMPING | RUNNING | IN_AIR => 0.4
       case PUNCH | RECOIL => 0.1)
    case WALKING =>
      (match to
       case WALKING | UNKNOWN => 0.0
       case IDLE | LAND_HARD | FALLING_SLOW | LAND_SOFT | SWIM_UP | SWIM_DOWN
         | FALLING_FAST | JUMPING | RUNNING | IN_AIR => 0.2
       case PUNCH | RECOIL => 0.1)
    case FALLING_FAST =>
      (match to
       case FALLING_FAST | UNKNOWN => 0.0
       case WALKING | LAND_HARD | FALLING_SLOW | LAND_SOFT | SWIM_UP | SWIM_DOWN
         | IDLE | JUMPING | RUNNING | IN_AIR => 0.2
       case PUNCH | RECOIL => 0.1)
    case IN_AIR =>
      (match to
       case IN_AIR | UNKNOWN => 0.0
       case WALKING | FALLING_SLOW | FALLING_FAST | LAND_SOFT | SWIM_UP | SWIM_DOWN
         | IDLE | JUMPING | RUNNING | LAND_HARD => 0.2
       case PUNCH | RECOIL => 0.1)
    case FALLING_SLOW =>
      (match to
       case FALLING_SLOW | UNKNOWN => 0.0
       case WALKING | LAND_HARD | FALLING_FAST | LAND_SOFT | SWIM_UP | SWIM_DOWN
         | IDLE | JUMPING | RUNNING | IN_AIR => 0.2
       case PUNCH | RECOIL => 0.1)
    case SWIM_UP =>
      (match to
       case SWIM_UP | UNKNOWN => 0.0
       case WALKING | LAND_HARD | FALLING_SLOW | LAND_SOFT | SWIM_DOWN | FALLING_FAST
         | IDLE | JUMPING | RUNNING | IN_AIR => 0.2
       case PUNCH | RECOIL => 0.1)
    case SWIM_DOWN =>
      (match to
       case SWIM_DOWN | UNKNOWN => 0.0
       case WALKING | LAND_HARD | FALLING_SLOW | LAND_SOFT | SWIM_UP | FALLING_FAST
         | IDLE | JUMPING | RUNNING | IN_AIR => 0.2
       case PUNCH | RECOIL => 0.1)
    case PUNCH =>
      (match to
       case PUNCH | UNKNOWN => 0.0
       case IDLE | WALKING | JUMPING => 0.3
       case RUNNING | RECOIL | IN_AIR | LAND_HARD | LAND_SOFT | SWIM_UP | SWIM_DOWN => 0.2
       case FALLING_FAST | FALLING_SLOW => 0.5)
    case RUNNING =>
      (match to
       case RUNNING | UNKNOWN => 0.0
       case LAND_HARD | FALLING_SLOW | LAND_SOFT | SWIM_UP | SWIM_DOWN | FALLING_FAST
         | JUMPING | IN_AIR => 0.2
       case IDLE | WALKING => 0.4
       case PUNCH | RECOIL => 0.1)
    case JUMPING => 0.5
    case RECOIL | LAND_HARD | LAND_SOFT => 0.05
    case UNKNOWN => 0.0
  }

  /** A transition map with an entry for every (from, to) pair, holding get_transition's time. */
  predicate Complete(m: map<State, map<State, real>>)
  {
    forall from: State, to: State :: from in m && to in m[from] && m[from][to] == GetTransition(from, to)
  }

  /** `define_transitions`: one inner map per state, each filled for every target state. */
  method DefineTransitions() returns (m: map<State, map<State, real>>)
    ensures Complete(m)
  {
    m := map[];
    var i := 0;
    while i < |A.Values|
      invariant 0 <= i <= |A.Values|
      invariant forall from: State :: from in m <==> A.Ordinal(from) < i
      invariant forall from: State, to: State :: from in m ==> to in m[from] && m[from][to] == GetTransition(from, to)
    {
      var base := A.Values[i];
      assert A.Ordinal(A.FromIndex(i)) == i;
      var n := TransitionsFrom(base);
      m := m[base := n];
      i := i + 1;
    }
  }

  /** The inner loop of define_transitions: the times from one state to every state. */
  method TransitionsFrom(base: State) returns (n: map<State, real>)
    ensures forall to: State :: to in n && n[to] == GetTransition(base, to)
  {
    n := map[];
    var j := 0;
    while j < |A.Values|
      invariant 0 <= j <= |A.Values|
      invariant forall to: State :: to in n <==> A.Ordinal(to) < j
      invariant forall to: State :: to in n ==> n[to] == GetTransition(base, to)
    {
      var next := A.Values[j];
      assert A.Ordinal(A.FromIndex(j)) == j;
      n := n[next := GetTransition(base, next)];
      j := j + 1;
    }
  }

  /** The value of a text of decimal digits after "0.", as a fraction. */
  function Fraction(s: string): real
  {
    ParseDigits(s) as real / Pow10(|s|)
  }

  function Pow10(k: nat): (r: real)
    ensures r >= 1.0
  {
    if k == 0 then 1.0 else 10.0 * Pow10(k - 1)
  }

  /**
   * `Float.toString` on a time in [0, 1) with no digits beyond hundredths:
   * "0." followed by the tenths digit and, when it is not zero, the
   * hundredths digit.
   */
  function FloatText(r: real): (t: string)
    requires 0.0 <= r < 1.0 && IsHundredths(r)
    ensures 3 <= |t| <= 4 && t[..2] == "0."
    ensures forall i :: 2 <= i < |t| ==> IsDigit(t[i])
    ensures Fraction(t[2..]) == r
    ensures |t| == 4 ==> t[3] != '0'
  {
    var k := (r * 100.0).Floor;
    var tenths := [DigitChar(k / 10)];
    assert ParseDigits(tenths) == k / 10 by {
      assert tenths[..0] == [];
    }
    assert r == k as real / 100.0;
    if k % 10 == 0 then
      var q := k / 10;
      assert k == 10 * q;
      assert Pow10(|tenths|) == 10.0 * Pow10(0) == 10.0;
      assert Fraction(tenths) == q as real / 10.0;
      assert q as real / 10.0 == (10 * q) as real / 100.0;
      assert ("0." + tenths)[2..] == tenths;
      "0." + tenths
    else
      var both := tenths + [DigitChar(k % 10)];
      assert both[..1] == tenths;
      assert ParseDigits(both) == k;
      assert Pow10(|both|) == 10.0 * Pow10(1) == 100.0;
      assert Fraction(both) == k as real / 100.0;
      assert ("0." + both)[2..] == both;
      "0." + both
  }

  /** The text of one time: Float.toString and an "f" suffix. */
  function CellValue(from: State, to: State): string
  {
    FloatText(GetTransition(from, to)) + "f"
  }

  /** The time texts of one row, one per target state in ordinal order. */
  function RowTimes(from: State): (texts: seq<string>)
    ensures |texts| == |A.Values|
  {
    seq(|A.Values|, i requires 0 <= i < |A.Values| => CellValue(from, A.FromIndex(i)))
  }

  /** The first n texts, each followed by sep unless it is the last of all the texts. */
  function Separated(texts: seq<string>, sep: string, n: nat): string
    requires n <= |texts|
  {
    if n == 0 then "" else Separated(texts, sep, n - 1) + (texts[n - 1] + (if n < |texts| then sep else ""))
  }

  /** The j-th cell the generator appends is the j-th time, separated unless it is the last. */
  lemma NextCell(from: State, j: nat)
    requires j < |A.Values|
    ensures var next := A.FromIndex(j);
      Separated(RowTimes(from), ", ", j) + (CellValue(from, next) + (if next != A.UNKNOWN then ", " else ""))
        == Separated(RowTimes(from), ", ", j + 1)
  {
    var next := A.FromIndex(j);
    assert A.Ordinal(next) == j;
    assert RowTimes(from)[j] == CellValue(from, next);
  }

  /** The braces around one row's cells. */
  function RowBody(from: State): string
  {
    "\t{" + Separated(RowTimes(from), ", ", |A.Values|) + "}"
  }

  /** One row: its body, a "," after every row but UNKNOWN's, and a newline. */
  function Row(from: State): string
  {
    RowBody(from) + (if from != A.UNKNOWN then "," else "") + "\n"
  }

  /** The rows of the first n states in ordinal order. */
  function Rows(n: nat): string
  {
    if n == 0 then "" else Rows(n - 1) + Row(A.FromIndex(n - 1))
  }

  /** The declaration line and the opening brace, sized by the number of states. */
  function Header(): string
  {
    "constant float transition_table[" + Decimal(|A.Values|) + "][" + Decimal(|A.Values|) + "] = \n{\n"
  }

  /** The whole generated table: the header, one row per state in ordinal order, the closing brace. */
  function TableText(): string
  {
    Header() + Rows(|A.Values|) + "};\n\n"
  }

  /** Appending the i-th row to the first i rows gives the first i + 1. */
  lemma NextRow(i: nat)
    ensures (Header() + Rows(i)) + Row(A.FromIndex(i)) == Header() + Rows(i + 1)
  {
    Associative(Header(), Rows(i), Row(A.FromIndex(i)));
  }

  lemma Associative(a: string, b: string, c: string)
    ensures (a + b) + c == a + (b + c)
  {
  }

  /** The header reads "constant float transition_table[14][14] = ", a newline and an opening brace. */
  lemma HeaderIsSquare()
    ensures Header() == "constant float transition_table[" + "14" + "][" + "14" + "] = \n{\n"
  {
    assert Digits(14) == Digits(1) + [DigitChar(4)];
  }

  /** The parts joined with sep between consecutive parts. */
  function Join(parts: seq<string>, sep: string): string
  {
    if |parts| == 0 then ""
    else if |parts| == 1 then parts[0]
    else Join(parts[..|parts| - 1], sep) + sep + parts[|parts| - 1]
  }

  lemma {:induction false} SeparatedPrefix(texts: seq<string>, sep: string, n: nat)
    requires 1 <= n <= |texts|
    ensures Separated(texts, sep, n) == Join(texts[..n], sep) + (if n < |texts| then sep else "")
  {
    var parts := texts[..n];
    if n > 1 {
      SeparatedPrefix(texts, sep, n - 1);
      assert parts[..n - 1] == texts[..n - 1];
      var prior := Join(texts[..n - 1], sep);
      var tail := if n < |texts| then sep else "";
      calc {
        Separated(texts, sep, n);
        (prior + sep) + (texts[n - 1] + tail);
        { Associative(prior + sep, texts[n - 1], tail); }
        (prior + sep + texts[n - 1]) + tail;
      }
    }
  }

  /** Separating every text but the last is joining them. */
  lemma SeparatedIsJoin(texts: seq<string>, sep: string)
    ensures Separated(texts, sep, |texts|) == Join(texts, sep)
  {
    if |texts| > 0 {
      SeparatedPrefix(texts, sep, |texts|);
      assert texts[..|texts|] == texts;
    }
  }

  /** A row's cells are its times joined by ", ": the UNKNOWN target, the last, gets no separator. */
  lemma RowCellsAreJoined(from: State)
    ensures RowBody(from) == "\t{" + Join(RowTimes(from), ", ") + "}"
  {
    SeparatedIsJoin(RowTimes(from), ", ");
  }

  /** The bodies of every row, in ordinal order. */
  function RowBodies(): (bodies: seq<string>)
    ensures |bodies| == |A.Values|
  {
    seq(|A.Values|, i requires 0 <= i < |A.Values| => RowBody(A.FromIndex(i)))
  }

  lemma {:induction false} RowsAreSeparated(n: nat)
    requires n < |A.Values|
    ensures Rows(n) == Separated(RowBodies(), ",\n", n)
  {
    if n > 0 {
      RowsAreSeparated(n - 1);
      var from := A.FromIndex(n - 1);
      assert A.Ordinal(from) == n - 1;
      assert RowBodies()[n - 1] == RowBody(from);
      RowWithComma(from);
    }
  }

  lemma RowWithComma(from: State)
    requires from != A.UNKNOWN
    ensures Row(from) == RowBody(from) + ",\n"
  {
    assert "," + "\n" == ",\n";
    Associative(RowBody(from), ",", "\n");
  }

  /** The rows are joined by ",\n" and end with a newline: only UNKNOWN's row, the last, has no comma. */
  lemma RowsAreJoined()
    ensures Rows(|A.Values|) == Join(RowBodies(), ",\n") + "\n"
  {
    var n := |A.Values|;
    var last := A.FromIndex(n - 1);
    RowsAreSeparated(n - 1);
    assert last == A.UNKNOWN;
    assert RowBodies()[n - 1] == RowBody(last);
    assert RowBody(last) + "" == RowBody(last);
    Associative(Rows(n - 1), RowBody(last), "\n");
    SeparatedIsJoin(RowBodies(), ",\n");
  }

  lemma {:induction false} SeparatedAvoids(texts: seq<string>, sep: string, n: nat, c: char)
    requires n <= |texts| && c !in sep
    requires forall i :: 0 <= i < |texts| ==> c !in texts[i]
    ensures c !in Separated(texts, sep, n)
  {
    if n > 0 {
      SeparatedAvoids(texts, sep, n - 1, c);
    }
  }

  lemma TimesHaveNoNewline(from: State)
    ensures forall i :: 0 <= i < |RowTimes(from)| ==> '\n' !in RowTimes(from)[i]
  {
    forall i | 0 <= i < |RowTimes(from)|
      ensures '\n' !in RowTimes(from)[i]
    {
      var t := FloatText(GetTransition(from, A.FromIndex(i)));
      assert t == t[..2] + t[2..];
    }
  }

  lemma RowBodyHasNoNewline(from: State)
    ensures '\n' !in RowBody(from)
  {
    TimesHaveNoNewline(from);
    SeparatedAvoids(RowTimes(from), ", ", |A.Values|, '\n');
  }

  /** Every row is one line: it ends with a newline and holds no other. */
  lemma RowIsOneLine(from: State)
    ensures var row := Row(from); |row| > 0 && row[|row| - 1] == '\n' && '\n' !in row[..|row| - 1]
  {
    RowBodyHasNoNewline(from);
    var line := RowBody(from) + (if from != A.UNKNOWN then "," else "");
    assert '\n' !in line;
    assert Row(from)[..|Row(from)| - 1] == line;
  }

  /** The lookup-table generator with its two static fields: the transition map and the cached text. */
  class TransitionTable {
    const transitions: map<State, map<State, real>>
    var lookup_table: string

    /** The map is complete, and a cached table is the table of that map. */
    predicate Valid()
      reads this
    {
      Complete(transitions) && (lookup_table == "" || lookup_table == TableText())
    }

    /** The static initialisers: the map from define_transitions, no cached text yet. */
    constructor ()
      ensures Valid() && lookup_table == ""
    {
      var m := DefineTransitions();
      transitions := m;
      lookup_table := "";
    }

    /**
     * `cl_lookup_table`: builds the table text on the first call and caches
     * it; every later call returns the cached text.
     */
    method ClLookupTable() returns (text: string)
      requires Valid()
      modifies this
      ensures Valid() && text == TableText() && lookup_table == text
      ensures old(lookup_table) != "" ==> text == old(lookup_table)
    {
      if lookup_table == "" {
        lookup_table := BuildTable();
      }
      text := lookup_table;
    }

    /** The text cl_lookup_table builds when nothing is cached: header, one row per state, closing brace. */
    method BuildTable() returns (text: string)
      requires Complete(transitions)
      ensures text == TableText()
    {
      var length := |A.Values|;
      var buffer := "constant float transition_table[" + Decimal(length) + "][" + Decimal(length) + "] = \n{\n";
      var i := 0;
      while i < length
        invariant 0 <= i <= length
        invariant buffer == Header() + Rows(i)
      {
        var base := A.FromIndex(i);
        var row := RowText(base);
        NextRow(i);
        buffer := buffer + row;
        i := i + 1;
      }
      text := buffer + "};\n\n";
    }

    /** One pass of cl_lookup_table's inner loop: the time, "f", and a ", " unless the target is UNKNOWN. */
    method CellText(base: State, next: State) returns (cell: string)
      requires Complete(transitions)
      ensures cell == CellValue(base, next) + (if next != A.UNKNOWN then ", " else "")
    {
      ghost var time := GetTransition(base, next);
      var value := transitions[base][next];
      cell := FloatText(value) + "f";
      if next != A.UNKNOWN {
        cell := cell + ", ";
      }
    }

    /** The inner loop of cl_lookup_table: the cells of one row. */
    method RowCells(base: State) returns (cells: string)
      requires Complete(transitions)
      ensures cells == Separated(RowTimes(base), ", ", |A.Values|)
    {
      cells := "";
      var j := 0;
      while j < |A.Values|
        invariant 0 <= j <= |A.Values|
        invariant cells == Separated(RowTimes(base), ", ", j)
      {
        var next := A.FromIndex(j);
        var cell := CellText(base, next);
        NextCell(base, j);
        cells := cells + cell;
        j := j + 1;
      }
    }

    /** One pass of cl_lookup_table's outer loop: the row for one state. */
    method RowText(base: State) returns (row: string)
      requires Complete(transitions)
      ensures row == Row(base)
    {
      var cells := RowCells(base);
      row := "\t{" + cells + "}" + (if base != A.UNKNOWN then "," else "") + "\n";
    }
  }
}
