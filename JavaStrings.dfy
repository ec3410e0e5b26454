/**
 * The `String` operations the editor's request parser relies on: `trim`,
 * `indexOf` of a character and `equalsIgnoreCase`, each on `seq<char>`.
 */
module JavaStrings {
  import opened Wrappers

  /** The characters `String.trim` drops: every code point up to the space. */
  predicate IsBlank(c: char)
  {
    c <= ' '
  }

  predicate AllBlank(s: string)
  {
    forall i :: 0 <= i < |s| ==> IsBlank(s[i])
  }

  /** A string `trim` leaves as it is: empty, or neither starting nor ending with a blank. */
  predicate IsTrimmed(s: string)
  {
    |s| == 0 || (!IsBlank(s[0]) && !IsBlank(s[|s| - 1]))
  }

  /** How many blanks s starts with. */
  function LeadingBlanks(s: string): (k: nat)
    ensures k <= |s|
    ensures forall i :: 0 <= i < k ==> IsBlank(s[i])
    ensures k < |s| ==> !IsBlank(s[k])
  {
    if |s| == 0 || !IsBlank(s[0]) then 0 else 1 + LeadingBlanks(s[1..])
  }

  /** The length of s once its trailing blanks are gone. */
  function TrimmedEnd(s: string): (e: nat)
    ensures e <= |s|
    ensures forall i :: e <= i < |s| ==> IsBlank(s[i])
    ensures e > 0 ==> !IsBlank(s[e - 1])
  {
    if |s| == 0 || !IsBlank(s[|s| - 1]) then |s| else TrimmedEnd(s[..|s| - 1])
  }

  /** `String.trim`: s without the blanks at either end. */
  function Trim(s: string): (r: string)
    ensures IsTrimmed(r)
    ensures |r| <= |s|
  {
    var b, e := LeadingBlanks(s), TrimmedEnd(s);
    if e <= b then [] else s[b..e]
  }

  /** `trim` only removes characters: one absent from s is absent from its trimmed text. */
  lemma TrimKeepsAbsent(s: string, c: char)
    requires c !in s
    ensures c !in Trim(s)
  {
    var b, e := LeadingBlanks(s), TrimmedEnd(s);
    if b < e {
      forall i | 0 <= i < e - b
        ensures Trim(s)[i] != c
      {
        assert Trim(s)[i] == s[b + i];
      }
    }
  }

  lemma {:induction false} LeadingBlanksOfPadded(pre: string, u: string)
    requires AllBlank(pre)
    requires |u| == 0 || !IsBlank(u[0])
    ensures LeadingBlanks(pre + u) == |pre|
  {
    if |pre| > 0 {
      assert (pre + u)[1..] == pre[1..] + u;
      LeadingBlanksOfPadded(pre[1..], u);
    }
  }

  lemma {:induction false} TrimmedEndOfPadded(u: string, post: string)
    requires AllBlank(post)
    requires |u| == 0 || !IsBlank(u[|u| - 1])
    ensures TrimmedEnd(u + post) == |u|
  {
    if |post| > 0 {
      assert (u + post)[..|u + post| - 1] == u + post[..|post| - 1];
      TrimmedEndOfPadded(u, post[..|post| - 1]);
    } else {
      assert u + post == u;
    }
  }

  /** `trim` removes exactly the blank padding around a trimmed text. */
  lemma TrimOfPadded(pre: string, t: string, post: string)
    requires AllBlank(pre) && AllBlank(post) && IsTrimmed(t)
    ensures Trim(pre + t + post) == t
  {
    var s := pre + t + post;
    if |t| == 0 {
      assert s == pre + post;
      LeadingBlanksOfPadded(pre + post, []);
      assert pre + post + [] == s;
    } else {
      assert s == pre + (t + post);
      LeadingBlanksOfPadded(pre, t + post);
      TrimmedEndOfPadded(pre + t, post);
      assert s[|pre|..|pre| + |t|] == t;
    }
  }

  /** Trimming twice is trimming once. */
  lemma TrimIsIdempotent(s: string)
    ensures Trim(Trim(s)) == Trim(s)
  {
    TrimOfPadded([], Trim(s), []);
    assert [] + Trim(s) + [] == Trim(s);
  }

  /** `String.indexOf` of a character: its first position, if it occurs. */
  function IndexOf(s: string, c: char): (r: Option<nat>)
    ensures r.None? <==> c !in s
    ensures r.Some? ==> r.value < |s| && s[r.value] == c
    ensures r.Some? ==> forall k :: 0 <= k < r.value ==> s[k] != c
  {
    if |s| == 0 then None
    else if s[0] == c then Some(0)
    else match IndexOf(s[1..], c)
      case None => None
      case Some(i) => Some(i + 1)
  }

  /** A string is its text before position i, the character at i, and the text after it. */
  lemma SplitAround(s: string, i: nat)
    requires i < |s|
    ensures s == s[..i] + [s[i]] + s[i + 1..]
  {
  }

  /** The text on either side of a marked character. */
  lemma Around(u: string, c: char, w: string)
    ensures (u + [c] + w)[..|u|] == u
    ensures (u + [c] + w)[|u| + 1..] == w
  {
  }

  /** The first occurrence is found behind a prefix that does not contain the character. */
  lemma IndexOfAfter(u: string, c: char, w: string)
    requires c !in u
    ensures IndexOf(u + [c] + w, c) == Some(|u|)
  {
    var s := u + [c] + w;
    assert s[|u|] == c && s[..|u|] == u;
  }

  /** Upper case of an ASCII letter; every other character is its own upper case. */
  function UpperAscii(c: char): (u: char)
    ensures 'a' <= c <= 'z' ==> u as int == c as int - 32
    ensures !('a' <= c <= 'z') ==> u == c
  {
    if 'a' <= c <= 'z' then (c as int - 32) as char else c
  }

  /** `String.equalsIgnoreCase` on ASCII text: same length, same letters up to case. */
  predicate EqualsIgnoreCase(a: string, b: string)
  {
    |a| == |b| && forall i :: 0 <= i < |a| ==> UpperAscii(a[i]) == UpperAscii(b[i])
  }

  lemma EqualsIgnoreCaseIsEquivalence(a: string, b: string, c: string)
    ensures EqualsIgnoreCase(a, a)
    ensures EqualsIgnoreCase(a, b) ==> EqualsIgnoreCase(b, a)
    ensures EqualsIgnoreCase(a, b) && EqualsIgnoreCase(b, c) ==> EqualsIgnoreCase(a, c)
  {
  }

  /** A lower-case spelling equals its upper-case spelling, ignoring case. */
  lemma LowerEqualsUpperIgnoringCase(lower: string, upper: string)
    requires |lower| == |upper|
    requires forall i :: 0 <= i < |lower| ==> 'A' <= upper[i] <= 'Z' && lower[i] as int == upper[i] as int + 32
    ensures EqualsIgnoreCase(lower, upper)
  {
  }

  /**
   * `String.replace` of a non-empty target: every occurrence, scanning from
   * the left and resuming after each replaced one, becomes the replacement.
   */
  function Replace(s: string, target: string, replacement: string): (r: string)
    requires |target| > 0
    decreases |s|
  {
    if |s| < |target| then s
    else if s[..|target|] == target then replacement + Replace(s[|target|..], target, replacement)
    else [s[0]] + Replace(s[1..], target, replacement)
  }

  /** Text in which the target's first character never occurs is left as it is. */
  lemma {:induction false} ReplaceAbsent(s: string, target: string, replacement: string)
    requires |target| > 0 && target[0] !in s
    ensures Replace(s, target, replacement) == s
    decreases |s|
  {
    if |s| >= |target| {
      assert s[..|target|][0] == s[0];
      ReplaceAbsent(s[1..], target, replacement);
    }
  }

  /** Replacing a character passes over a prefix without it. */
  lemma {:induction false} ReplaceCharAfter(u: string, v: string, c: char, replacement: string)
    requires c !in u
    ensures Replace(u + v, [c], replacement) == u + Replace(v, [c], replacement)
    decreases |u|
  {
    if |u| > 0 {
      assert u[0] in u;
      assert (u + v)[..1] == [u[0]] != [c];
      assert (u + v)[1..] == u[1..] + v;
      ReplaceCharAfter(u[1..], v, c, replacement);
      assert [u[0]] + u[1..] == u;
    } else {
      assert u + v == v;
    }
  }

  /** Removing a character leaves none of it behind. */
  lemma {:induction false} RemovedCharIsAbsent(s: string, c: char)
    ensures c !in Replace(s, [c], "")
    decreases |s|
  {
    if |s| >= 1 {
      RemovedCharIsAbsent(s[1..], c);
      if s[..1] != [c] {
        assert s[0] != c;
      }
    }
  }
}
