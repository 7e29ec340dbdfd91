/**
 * The handful of Python string primitives the converter relies on:
 * `str.isspace` (also what `strip()` removes and what `\s` matches in a
 * str regex), `str.strip`, `str.startswith(p, i)`, `str.find(p, i)`,
 * `str.splitlines` and `"\n".join`.  Strings are sequences of code points.
 */
module Text {

  datatype Option<T> = None | Some(value: T) {
    predicate IsFailure() {
      None?
    }

    function PropagateFailure<U>(): Option<U>
      requires None?
    {
      None
    }

    function Extract(): T
      requires Some?
    {
      value
    }
  }

  /** The characters CPython's `str.isspace` accepts. */
  predicate IsSpace(c: char) {
    var n := c as int;
    (0x09 <= n <= 0x0D) || (0x1C <= n <= 0x20) || n == 0x85 || n == 0xA0 || n == 0x1680
    || (0x2000 <= n <= 0x200A) || n == 0x2028 || n == 0x2029 || n == 0x202F
    || n == 0x205F || n == 0x3000
  }

  /** The line boundaries CPython's `str.splitlines` splits on. */
  predicate IsLineBreak(c: char) {
    var n := c as int;
    (0x0A <= n <= 0x0D) || (0x1C <= n <= 0x1E) || n == 0x85 || n == 0x2028 || n == 0x2029
  }

  predicate NoLineBreak(s: string) {
    forall k :: 0 <= k < |s| ==> !IsLineBreak(s[k])
  }

  predicate AllSpace(s: string) {
    forall k :: 0 <= k < |s| ==> IsSpace(s[k])
  }

  /** Number of whitespace characters at the front of `s`. */
  function LeadingSpaces(s: string): (n: nat)
    ensures n <= |s|
  {
    if |s| > 0 && IsSpace(s[0]) then 1 + LeadingSpaces(s[1..]) else 0
  }

  /** Number of whitespace characters at the back of `s`. */
  function TrailingSpaces(s: string): (n: nat)
    ensures n <= |s|
  {
    if |s| > 0 && IsSpace(s[|s| - 1]) then 1 + TrailingSpaces(s[..|s| - 1]) else 0
  }

  /** Python's `s.strip()`: the slice left after dropping whitespace at both ends. */
  function Strip(s: string): (r: string)
    ensures LeadingSpaces(s) + |r| <= |s|
    ensures r == s[LeadingSpaces(s)..LeadingSpaces(s) + |r|]
  {
    var a := LeadingSpaces(s);
    var t := s[a..];
    t[..|t| - TrailingSpaces(t)]
  }

  /** `LeadingSpaces` counts exactly the maximal whitespace prefix. */
  lemma {:induction false} LeadingSpacesSpec(s: string)
    ensures AllSpace(s[..LeadingSpaces(s)])
    ensures LeadingSpaces(s) == |s| || !IsSpace(s[LeadingSpaces(s)])
  {
    if |s| > 0 && IsSpace(s[0]) {
      LeadingSpacesSpec(s[1..]);
      assert s[..LeadingSpaces(s)] == [s[0]] + s[1..][..LeadingSpaces(s[1..])];
    }
  }

  /** `TrailingSpaces` counts exactly the maximal whitespace suffix. */
  lemma {:induction false} TrailingSpacesSpec(s: string)
    ensures AllSpace(s[|s| - TrailingSpaces(s)..])
    ensures TrailingSpaces(s) == |s| || !IsSpace(s[|s| - TrailingSpaces(s) - 1])
  {
    if |s| > 0 && IsSpace(s[|s| - 1]) {
      var init := s[..|s| - 1];
      var m := TrailingSpaces(init);
      TrailingSpacesSpec(init);
      assert TrailingSpaces(s) == 1 + m;
      forall j | |s| - (1 + m) <= j < |s| ensures IsSpace(s[j]) {
        if j < |s| - 1 {
          assert s[j] == init[|init| - m..][j - (|init| - m)];
        }
      }
      if m < |init| {
        assert s[|s| - (1 + m) - 1] == init[|init| - m - 1];
      }
    }
  }

  lemma AllSpaceAppend(x: string, y: string)
    requires AllSpace(x) && AllSpace(y)
    ensures AllSpace(x + y)
  {
    forall k | 0 <= k < |x + y| ensures IsSpace((x + y)[k]) {
      if k >= |x| {
        assert (x + y)[k] == y[k - |x|];
      }
    }
  }

  /** The characters `strip` drops at the back are whitespace. */
  lemma StripBack(s: string)
    ensures AllSpace(s[LeadingSpaces(s) + |Strip(s)|..])
  {
    var a := LeadingSpaces(s);
    var t := s[a..];
    var m := |t| - TrailingSpaces(t);
    assert |Strip(s)| == m;
    assert s[a + m..] == t[m..];
    TrailingSpacesSpec(t);
  }

  /** A non-empty result of `strip` starts and ends with non-whitespace. */
  lemma StripEnds(s: string)
    requires Strip(s) != []
    ensures !IsSpace(Strip(s)[0]) && !IsSpace(Strip(s)[|Strip(s)| - 1])
  {
    var a := LeadingSpaces(s);
    var t := s[a..];
    var b := TrailingSpaces(t);
    LeadingSpacesSpec(s);
    TrailingSpacesSpec(t);
    assert Strip(s)[0] == s[a];
    assert Strip(s)[|Strip(s)| - 1] == t[|t| - b - 1];
  }

  /** `strip` leaves nothing exactly of an all-whitespace string. */
  lemma StripEmpty(s: string)
    ensures Strip(s) == [] <==> AllSpace(s)
  {
    var a := LeadingSpaces(s);
    var t := s[a..];
    LeadingSpacesSpec(s);
    if Strip(s) == [] {
      TrailingSpacesSpec(t);
      assert t[|t| - TrailingSpaces(t)..] == t;
      AllSpaceAppend(s[..a], t);
      assert s == s[..a] + t;
    } else {
      assert a < |s| && !IsSpace(s[a]);
    }
  }

  /**
   * What `strip` keeps: it neither starts nor ends with whitespace, what it
   * drops is whitespace, and it is empty exactly for an all-whitespace string.
   */
  lemma StripSpec(s: string)
    ensures AllSpace(s[..LeadingSpaces(s)])
    ensures AllSpace(s[LeadingSpaces(s) + |Strip(s)|..])
    ensures Strip(s) == [] || (!IsSpace(Strip(s)[0]) && !IsSpace(Strip(s)[|Strip(s)| - 1]))
    ensures Strip(s) == [] <==> AllSpace(s)
  {
    LeadingSpacesSpec(s);
    StripBack(s);
    if Strip(s) != [] {
      StripEnds(s);
    }
    StripEmpty(s);
  }

  /** Python's `s.startswith(p, i)`. */
  predicate StartsAt(s: string, p: string, i: nat) {
    i + |p| <= |s| && s[i..i + |p|] == p
  }

  /** `"".join(parts)`. */
  function Concat(parts: seq<string>): string {
    if parts == [] then "" else parts[0] + Concat(parts[1..])
  }

  lemma ConcatCons(x: string, rest: seq<string>)
    ensures Concat([x] + rest) == x + Concat(rest)
  {
    assert ([x] + rest)[1..] == rest;
  }

  lemma {:induction false} ConcatAppend(a: seq<string>, b: seq<string>)
    ensures Concat(a + b) == Concat(a) + Concat(b)
  {
    if a == [] {
      assert a + b == b;
    } else {
      assert (a + b)[1..] == a[1..] + b;
      ConcatAppend(a[1..], b);
    }
  }

  /** `"\n".join(lines)`. */
  function Join(lines: seq<string>): string {
    if |lines| == 0 then ""
    else if |lines| == 1 then lines[0]
    else lines[0] + "\n" + Join(lines[1..])
  }

  /** Index of the first line boundary in `s`, or `|s|`. */
  function LineEnd(s: string): (k: nat)
    ensures k <= |s|
  {
    if |s| == 0 || IsLineBreak(s[0]) then 0 else 1 + LineEnd(s[1..])
  }

  lemma {:induction false} LineEndSpec(s: string)
    ensures NoLineBreak(s[..LineEnd(s)])
    ensures LineEnd(s) == |s| || IsLineBreak(s[LineEnd(s)])
  {
    if |s| > 0 && !IsLineBreak(s[0]) {
      LineEndSpec(s[1..]);
      assert s[..LineEnd(s)] == [s[0]] + s[1..][..LineEnd(s[1..])];
    }
  }

  /**
   * Python's `s.splitlines()`: pieces between boundaries, "\r\n" counting as
   * one boundary, and no trailing empty piece after a final boundary.
   */
  function SplitLines(s: string): (lines: seq<string>)
    decreases |s|
    ensures lines == [] <==> s == []
  {
    if s == [] then []
    else
      var k := LineEnd(s);
      if k == |s| then [s]
      else
        var skip := if s[k] == '\r' && k + 1 < |s| && s[k + 1] == '\n' then 2 else 1;
        [s[..k]] + SplitLines(s[k + skip..])
  }

  /** No piece of `splitlines` holds a line boundary. */
  lemma {:induction false} SplitLinesSpec(s: string)
    decreases |s|
    ensures forall k :: 0 <= k < |SplitLines(s)| ==> NoLineBreak(SplitLines(s)[k])
  {
    if s != [] {
      var k := LineEnd(s);
      LineEndSpec(s);
      if k < |s| {
        var skip := if s[k] == '\r' && k + 1 < |s| && s[k + 1] == '\n' then 2 else 1;
        SplitLinesSpec(s[k + skip..]);
      } else {
        assert s[..k] == s;
      }
    }
  }

  lemma NoLineBreakHasNoNewline(s: string)
    requires NoLineBreak(s)
    ensures '\n' !in s
  {
    if '\n' in s {
      var k :| 0 <= k < |s| && s[k] == '\n';
      assert IsLineBreak(s[k]);
    }
  }

  /** A line without a boundary, then "\n", then more: the line comes off first. */
  lemma SplitLinesCons(l: string, r: string)
    requires NoLineBreak(l)
    ensures SplitLines(l + "\n" + r) == [l] + SplitLines(r)
  {
    var s := l + "\n" + r;
    assert s[|l|] == '\n';
    assert forall j :: 0 <= j < |l| ==> s[j] == l[j];
    assert LineEnd(s) == |l| by {
      LineEndSpec(s);
    }
    assert s[..|l|] == l && s[|l| + 1..] == r;
  }

  /** A single line without a boundary splits into itself, or nothing when empty. */
  lemma SplitLinesOne(l: string)
    requires NoLineBreak(l)
    ensures SplitLines(l) == if l == [] then [] else [l]
  {
    if l != [] {
      LineEndSpec(l);
      assert l[..LineEnd(l)][LineEnd(l)..] == [];
    }
  }

  /**
   * Splitting lines that were joined with "\n" gives them back, except that a
   * final empty line is lost (a trailing "\n" ends the text rather than
   * starting a line).
   */
  predicate NoLineBreaks(lines: seq<string>) {
    forall k :: 0 <= k < |lines| ==> NoLineBreak(lines[k])
  }

  lemma {:induction false} SplitLinesOfJoin(lines: seq<string>)
    requires |lines| > 0
    requires NoLineBreaks(lines)
    ensures SplitLines(Join(lines)) ==
            if lines[|lines| - 1] == [] then lines[..|lines| - 1] else lines
  {
    if |lines| == 1 {
      SplitLinesOne(lines[0]);
    } else {
      JoinTail(lines);
      SplitJoinStep(lines);
      SplitLinesOfJoin(lines[1..]);
    }
  }

  /** How a list of two or more lines splits into its first line and the others. */
  lemma JoinTail(lines: seq<string>)
    requires |lines| > 1
    requires NoLineBreaks(lines)
    ensures lines == [lines[0]] + lines[1..]
    ensures lines[..|lines| - 1] == [lines[0]] + lines[1..][..|lines| - 2]
    ensures lines[1..][|lines| - 2] == lines[|lines| - 1]
    ensures NoLineBreak(lines[0]) && NoLineBreaks(lines[1..])
  {
    assert forall k :: 0 <= k < |lines| - 1 ==> lines[1..][k] == lines[k + 1];
  }

  lemma SplitJoinStep(lines: seq<string>)
    requires |lines| > 1
    requires NoLineBreak(lines[0])
    ensures SplitLines(Join(lines)) == [lines[0]] + SplitLines(Join(lines[1..]))
  {
    assert Join(lines) == lines[0] + "\n" + Join(lines[1..]);
    SplitLinesCons(lines[0], Join(lines[1..]));
  }
}
