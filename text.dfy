/**
 * Character classes and the few string operations of Python's `str` that the
 * two converters rely on: `isspace`, `strip`, `split(sep)`, `sep.join`,
 * `startswith`, `replace(c, '')`, and rendering of non-negative integers.
 */
module Text {

  predicate IsDigit(c: char) { '0' <= c <= '9' }

  /** The characters for which Python's `str.isspace()` holds (and which `\s` matches). */
  predicate IsSpace(c: char) {
    c == ' ' || ('\t' <= c <= '\r') || ('\U{1c}' <= c <= '\U{1f}')
    || c == '\U{85}' || c == '\U{a0}' || c == '\U{1680}'
    || ('\U{2000}' <= c <= '\U{200a}') || c == '\U{2028}' || c == '\U{2029}'
    || c == '\U{202f}' || c == '\U{205f}' || c == '\U{3000}'
  }

  /** A non-empty run of ASCII digits. */
  predicate Digits(s: string) {
    |s| > 0 && forall k :: 0 <= k < |s| ==> IsDigit(s[k])
  }

  predicate AllDigits(s: string) {
    forall k :: 0 <= k < |s| ==> IsDigit(s[k])
  }

  function DigitValue(c: char): nat
    requires IsDigit(c)
  {
    (c as int - '0' as int) as nat
  }

  function DigitChar(d: nat): (c: char)
    requires d < 10
    ensures IsDigit(c) && DigitValue(c) == d
  {
    ('0' as int + d) as char
  }

  function Pow10(n: nat): (p: nat)
    ensures p >= 1
  {
    if n == 0 then 1 else 10 * Pow10(n - 1)
  }

  lemma {:induction false} Pow10Add(a: nat, b: nat)
    ensures Pow10(a + b) == Pow10(a) * Pow10(b)
  {
    if b > 0 {
      Pow10Add(a, b - 1);
      assert Pow10(a + b) == 10 * Pow10(a + b - 1);
    }
  }

  /** The number a string of decimal digits denotes, most significant digit first. */
  function DigitsValue(s: string): nat
    requires AllDigits(s)
  {
    if |s| == 0 then 0 else DigitsValue(s[..|s| - 1]) * 10 + DigitValue(s[|s| - 1])
  }

  lemma {:induction false} DigitsValueBound(s: string)
    requires AllDigits(s)
    ensures DigitsValue(s) < Pow10(|s|)
  {
    if |s| > 0 {
      DigitsValueBound(s[..|s| - 1]);
    }
  }

  lemma AllDigitsAppend(a: string, b: string)
    requires AllDigits(a) && AllDigits(b)
    ensures AllDigits(a + b)
  {
  }

  lemma {:induction false} DigitsValueAppend(a: string, b: string)
    requires AllDigits(a) && AllDigits(b)
    ensures AllDigits(a + b)
    ensures DigitsValue(a + b) == DigitsValue(a) * Pow10(|b|) + DigitsValue(b)
  {
    if |b| == 0 {
      assert a + b == a;
    } else {
      var b' := b[..|b| - 1];
      assert (a + b)[..|a + b| - 1] == a + b';
      DigitsValueAppend(a, b');
      Horner(DigitsValue(a), Pow10(|b'|), DigitsValue(b'), DigitValue(b[|b| - 1]));
    }
  }

  lemma Horner(x: int, p: int, y: int, d: int)
    ensures (x * p + y) * 10 + d == x * (p * 10) + (y * 10 + d)
  {
  }

  /** Decimal rendering of a natural number, as Python's `str(n)` or `%d`. */
  function NatToString(n: nat): (s: string)
    ensures Digits(s) && DigitsValue(s) == n
    ensures |s| <= 1 || s[0] != '0'
  {
    if n < 10 then [DigitChar(n)]
    else
      var p := NatToString(n / 10);
      var s := p + [DigitChar(n % 10)];
      assert s[..|s| - 1] == p;
      s
  }

  /** A number below 10^k takes at most k digits. */
  lemma {:induction false} NatToStringLength(n: nat, k: nat)
    requires k >= 1 && n < Pow10(k)
    ensures |NatToString(n)| <= k
  {
    if n >= 10 {
      NatToStringLength(n / 10, k - 1);
    }
  }

  /** Two digit strings of the same length and value are the same string. */
  lemma {:induction false} DigitsValueInjective(a: string, b: string)
    requires AllDigits(a) && AllDigits(b) && |a| == |b|
    requires DigitsValue(a) == DigitsValue(b)
    ensures a == b
  {
    if |a| > 0 {
      var n := |a| - 1;
      DigitsValueInjective(a[..n], b[..n]);
      assert a == a[..n] + [a[n]] && b == b[..n] + [b[n]];
    }
  }

  /** Left-pads a digit string with zeros to at least `width` characters (`%0<width>d`). */
  function ZeroPad(s: string, width: nat): (r: string)
    requires AllDigits(s)
    ensures AllDigits(r) && DigitsValue(r) == DigitsValue(s)
    ensures |r| == if |s| >= width then |s| else width
    decreases width - |s|
  {
    if |s| >= width then s
    else
      var r := ZeroPad("0" + s, width);
      DigitsValueAppend("0", s);
      r
  }

  /** Python's `s.startswith(prefix)`. */
  predicate StartsWith(s: string, prefix: string) {
    |prefix| <= |s| && s[..|prefix|] == prefix
  }

  /** Python's `s.replace(c, '')`: every occurrence of `c` removed, the rest in order. */
  function Remove(s: string, c: char): (r: string)
    ensures c !in r
    ensures |r| <= |s|
    ensures forall k :: 0 <= k < |r| ==> r[k] in s
  {
    if |s| == 0 then ""
    else if s[0] == c then Remove(s[1..], c)
    else [s[0]] + Remove(s[1..], c)
  }

  lemma {:induction false} RemoveAppend(a: string, b: string, c: char)
    ensures Remove(a + b, c) == Remove(a, c) + Remove(b, c)
  {
    if |a| == 0 {
      assert a + b == b;
    } else {
      assert (a + b)[1..] == a[1..] + b;
      RemoveAppend(a[1..], b, c);
    }
  }

  lemma {:induction false} RemoveAbsent(s: string, c: char)
    requires c !in s
    ensures Remove(s, c) == s
  {
    if |s| > 0 {
      RemoveAbsent(s[1..], c);
      assert [s[0]] + s[1..] == s;
    }
  }

  /** Number of leading whitespace characters. */
  function LeadingSpaces(s: string): (n: nat)
    ensures n <= |s|
    ensures n == |s| || !IsSpace(s[n])
  {
    if |s| > 0 && IsSpace(s[0]) then 1 + LeadingSpaces(s[1..]) else 0
  }

  lemma {:induction false} LeadingSpacesRun(s: string)
    ensures forall k :: 0 <= k < LeadingSpaces(s) ==> IsSpace(s[k])
  {
    if |s| > 0 && IsSpace(s[0]) {
      LeadingSpacesRun(s[1..]);
      assert forall k :: 1 <= k < LeadingSpaces(s) ==> s[k] == s[1..][k - 1];
    }
  }

  /** Number of trailing whitespace characters. */
  function TrailingSpaces(s: string): (n: nat)
    ensures n <= |s|
    ensures forall k :: |s| - n <= k < |s| ==> IsSpace(s[k])
    ensures n == |s| || !IsSpace(s[|s| - 1 - n])
  {
    if |s| > 0 && IsSpace(s[|s| - 1]) then 1 + TrailingSpaces(s[..|s| - 1]) else 0
  }

  /**
   * Python's `s.strip()`: the part of `s` left once the whitespace at both
   * ends is cut off, so that it neither starts nor ends with whitespace.
   */
  function Strip(s: string): (r: string)
    ensures |r| == 0 || (!IsSpace(r[0]) && !IsSpace(r[|r| - 1]))
    ensures |r| <= |s|
    ensures exists i, j :: 0 <= i <= j <= |s| && r == s[i..j]
                           && (forall k :: 0 <= k < i ==> IsSpace(s[k]))
                           && (forall k :: j <= k < |s| ==> IsSpace(s[k]))
  {
    var i := LeadingSpaces(s);
    var j := |s| - TrailingSpaces(s[i..]);
    StripCut(s, i, j);
    s[i..j]
  }

  /** The cut `Strip` makes: whitespace before `i` and from `j` on, none at either end of what is kept. */
  lemma StripCut(s: string, i: nat, j: int)
    requires i == LeadingSpaces(s) && j == |s| - TrailingSpaces(s[i..])
    ensures i <= j <= |s|
    ensures forall k :: 0 <= k < i ==> IsSpace(s[k])
    ensures forall k :: j <= k < |s| ==> IsSpace(s[k])
    ensures i == j || (!IsSpace(s[i]) && !IsSpace(s[j - 1]))
  {
    LeadingSpacesRun(s);
    TrailingCut(s, i, j);
  }

  /** The whitespace `TrailingSpaces` counts at the end of `s[i..]`, as the positions of `s` from `j` on. */
  lemma TrailingCut(s: string, i: nat, j: int)
    requires i <= |s| && j == |s| - TrailingSpaces(s[i..])
    ensures i <= j
    ensures forall k :: j <= k < |s| ==> IsSpace(s[k])
    ensures i < j ==> !IsSpace(s[j - 1])
  {
    var t := s[i..];
    forall k | j <= k < |s|
      ensures IsSpace(s[k])
    {
      assert s[k] == t[k - i];
    }
    if i < j {
      assert s[j - 1] == t[|t| - 1 - TrailingSpaces(t)];
    }
  }

  /**
   * Python's `s.split(sep)` with an explicit separator: every occurrence of
   * `sep` cuts, so adjacent separators give empty parts and "" gives [""].
   */
  function SplitOn(s: string, sep: char): (parts: seq<string>)
    ensures |parts| >= 1
    ensures forall k :: 0 <= k < |parts| ==> sep !in parts[k]
  {
    if |s| == 0 then [""]
    else
      var rest := SplitOn(s[1..], sep);
      if s[0] == sep then [""] + rest
      else [[s[0]] + rest[0]] + rest[1..]
  }

  /** Python's `sep.join(parts)`. */
  function JoinOn(parts: seq<string>, sep: char): string {
    if |parts| == 0 then ""
    else if |parts| == 1 then parts[0]
    else parts[0] + [sep] + JoinOn(parts[1..], sep)
  }

  lemma JoinThree(a: string, b: string, c: string, sep: char)
    ensures JoinOn([a, b, c], sep) == a + [sep] + b + [sep] + c
  {
    assert [a, b, c][1..] == [b, c];
    assert [b, c][1..] == [c];
    assert JoinOn([c], sep) == c;
    assert JoinOn([b, c], sep) == b + [sep] + c;
  }

  /** Splitting never loses text: joining the parts gives the string back. */
  lemma {:induction false} JoinSplit(s: string, sep: char)
    ensures JoinOn(SplitOn(s, sep), sep) == s
  {
    if |s| > 0 {
      var rest := SplitOn(s[1..], sep);
      JoinSplit(s[1..], sep);
      if s[0] == sep {
        assert ([""] + rest)[1..] == rest;
      } else {
        var parts := [[s[0]] + rest[0]] + rest[1..];
        if |rest| == 1 {
          assert parts == [[s[0]] + rest[0]];
        } else {
          assert parts[1..] == rest[1..];
          assert JoinOn(rest, sep) == rest[0] + [sep] + JoinOn(rest[1..], sep);
        }
      }
    }
  }

  /** A separator between two strings separates their parts. */
  lemma {:induction false} SplitOnAppend(a: string, b: string, sep: char)
    ensures SplitOn(a + [sep] + b, sep) == SplitOn(a, sep) + SplitOn(b, sep)
  {
    if |a| == 0 {
      assert a + [sep] + b == [sep] + b;
      assert ([sep] + b)[1..] == b;
    } else {
      assert (a + [sep] + b)[1..] == a[1..] + [sep] + b;
      SplitOnAppend(a[1..], b, sep);
    }
  }

  /** Splitting undoes joining when no part contains the separator. */
  lemma {:induction false} SplitJoin(parts: seq<string>, sep: char)
    requires |parts| >= 1
    requires forall k :: 0 <= k < |parts| ==> sep !in parts[k]
    ensures SplitOn(JoinOn(parts, sep), sep) == parts
  {
    SplitWithout(parts[0], sep);
    if |parts| > 1 {
      SplitJoin(parts[1..], sep);
      SplitOnAppend(parts[0], JoinOn(parts[1..], sep), sep);
    }
  }

  lemma {:induction false} SplitWithout(s: string, sep: char)
    requires sep !in s
    ensures SplitOn(s, sep) == [s]
  {
    if |s| > 0 {
      SplitWithout(s[1..], sep);
      assert [s[0]] + s[1..] == s;
    }
  }

  /** Concatenation of each string followed by a newline (a sequence of `print` calls). */
  function Terminated(ls: seq<string>): string {
    if |ls| == 0 then "" else ls[0] + "\n" + Terminated(ls[1..])
  }

  lemma {:induction false} TerminatedAppend(a: seq<string>, b: seq<string>)
    ensures Terminated(a + b) == Terminated(a) + Terminated(b)
  {
    if |a| > 0 {
      assert (a + b)[1..] == a[1..] + b;
      TerminatedAppend(a[1..], b);
    } else {
      assert a + b == b;
    }
  }

  /** Text written as newline-terminated lines reads back, split at newlines, as those lines and a final "". */
  lemma {:induction false} SplitTerminated(ls: seq<string>)
    requires forall k :: 0 <= k < |ls| ==> '\n' !in ls[k]
    ensures SplitOn(Terminated(ls), '\n') == ls + [""]
  {
    if |ls| > 0 {
      SplitTerminated(ls[1..]);
      SplitWithout(ls[0], '\n');
      SplitOnAppend(ls[0], Terminated(ls[1..]), '\n');
      assert ls[0] + "\n" + Terminated(ls[1..]) == ls[0] + ['\n'] + Terminated(ls[1..]);
      assert [ls[0]] + (ls[1..] + [""]) == ls + [""];
    }
  }

  /** The lines of several blocks, one block after the other. */
  function Concat(blocks: seq<seq<string>>): seq<string> {
    if |blocks| == 0 then [] else blocks[0] + Concat(blocks[1..])
  }

  /** Concatenation of strings is associative. */
  lemma AppendAssoc(a: string, b: string, c: string)
    ensures (a + b) + c == a + (b + c)
  {
  }

  /** The last block's lines come after those of the blocks before it. */
  lemma ConcatSnoc(blocks: seq<seq<string>>)
    requires blocks != []
    ensures Concat(blocks) == Concat(blocks[..|blocks| - 1]) + blocks[|blocks| - 1]
  {
    var init, last := blocks[..|blocks| - 1], blocks[|blocks| - 1];
    assert blocks == init + [last];
    ConcatAppend(init, [last]);
    assert Concat([last]) == last + Concat([]);
  }

  lemma {:induction false} ConcatAppend(a: seq<seq<string>>, b: seq<seq<string>>)
    ensures Concat(a + b) == Concat(a) + Concat(b)
  {
    if |a| > 0 {
      assert (a + b)[1..] == a[1..] + b;
      ConcatAppend(a[1..], b);
    } else {
      assert a + b == b;
    }
  }

  /** Each entry of `ls` is the lines of its block, none holding a newline, joined with newlines. */
  predicate Framed(ls: seq<string>, blocks: seq<seq<string>>) {
    |ls| == |blocks|
    && (forall k :: 0 <= k < |ls| ==> |blocks[k]| >= 1 && ls[k] == JoinOn(blocks[k], '\n'))
    && (forall k, j :: 0 <= k < |blocks| && 0 <= j < |blocks[k]| ==> '\n' !in blocks[k][j])
  }

  lemma FramedAppend(ls: seq<string>, blocks: seq<seq<string>>, ls': seq<string>, blocks': seq<seq<string>>)
    requires Framed(ls, blocks) && Framed(ls', blocks')
    ensures Framed(ls + ls', blocks + blocks')
  {
    var a, b := ls + ls', blocks + blocks';
    forall k | 0 <= k < |a|
      ensures |b[k]| >= 1 && a[k] == JoinOn(b[k], '\n')
    {
      if k >= |ls| {
        assert a[k] == ls'[k - |ls|] && b[k] == blocks'[k - |ls|];
      }
    }
    forall k, j | 0 <= k < |b| && 0 <= j < |b[k]|
      ensures '\n' !in b[k][j]
    {
      if k >= |ls| {
        assert b[k] == blocks'[k - |ls|];
      }
    }
  }

  /**
   * Text written as newline-terminated entries, each entry itself lines joined
   * with newlines, reads back split at newlines as all those lines and a
   * final "".
   */
  lemma {:induction false} SplitTerminatedBlocks(ls: seq<string>, blocks: seq<seq<string>>)
    requires Framed(ls, blocks)
    ensures SplitOn(Terminated(ls), '\n') == Concat(blocks) + [""]
  {
    if |ls| == 0 {
      SplitWithout("", '\n');
    } else {
      assert Framed(ls[1..], blocks[1..]) by {
        forall k | 0 <= k < |ls| - 1
          ensures |blocks[1..][k]| >= 1 && ls[1..][k] == JoinOn(blocks[1..][k], '\n')
        {
          assert ls[1..][k] == ls[k + 1] && blocks[1..][k] == blocks[k + 1];
        }
        forall k, j | 0 <= k < |blocks| - 1 && 0 <= j < |blocks[1..][k]|
          ensures '\n' !in blocks[1..][k][j]
        {
          assert blocks[1..][k] == blocks[k + 1];
        }
      }
      SplitTerminatedBlocks(ls[1..], blocks[1..]);
      assert forall j :: 0 <= j < |blocks[0]| ==> '\n' !in blocks[0][j];
      SplitJoin(blocks[0], '\n');
      SplitOnAppend(ls[0], Terminated(ls[1..]), '\n');
      assert ls[0] + "\n" + Terminated(ls[1..]) == ls[0] + ['\n'] + Terminated(ls[1..]);
    }
  }
}
