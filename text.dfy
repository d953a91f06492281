/**
 * The handful of Python `str` operations the radio code relies on, written
 * out so that their corner cases are explicit: `split` on one separator
 * character, `join`, `replace` (left to right, non-overlapping), `strip`,
 * ASCII `lower`/`upper`, and `int()` on a decimal or hexadecimal string.
 */
module Text {
  import opened Wrappers

  // ---------------------------------------------------------------------
  // Searching
  // ---------------------------------------------------------------------

  /** `sub` occurs in `s` starting at index `i`. */
  predicate OccursAt(s: string, sub: string, i: int)
  {
    0 <= i && i + |sub| <= |s| && s[i..i + |sub|] == sub
  }

  /** `sub in s` for strings: `sub` occurs somewhere in `s` (the empty text occurs everywhere). */
  predicate Contains(s: string, sub: string)
  {
    exists i :: 0 <= i <= |s| && OccursAt(s, sub, i)
  }

  /** An occurrence at a known position is an occurrence. */
  lemma ContainsAt(s: string, sub: string, i: nat)
    requires i + |sub| <= |s| && s[i..i + |sub|] == sub
    ensures Contains(s, sub)
  {
    assert OccursAt(s, sub, i);
  }

  /** A text holding `sub` holds it at some position. */
  lemma ContainsWitness(s: string, sub: string) returns (i: nat)
    requires Contains(s, sub)
    ensures i + |sub| <= |s| && s[i..i + |sub|] == sub
  {
    var j :| 0 <= j <= |s| && OccursAt(s, sub, j);
    i := j;
  }

  /** A text holding `sub` holds each of its characters. */
  lemma ContainedCharsPresent(s: string, sub: string, c: char)
    requires Contains(s, sub) && c in sub
    ensures c in s
  {
    var i := ContainsWitness(s, sub);
    var k :| 0 <= k < |sub| && sub[k] == c;
    assert s[i..i + |sub|][k] == s[i + k];
  }

  /** A text that lacks one of the characters of `sub` does not hold `sub`. */
  lemma AbsentCharNotContained(s: string, sub: string, c: char)
    requires c in sub && c !in s
    ensures !Contains(s, sub)
  {
    if Contains(s, sub) {
      ContainedCharsPresent(s, sub, c);
    }
  }

  /** A text in which `sub[j]` is never directly followed by `sub[j + 1]` does not hold `sub`. */
  lemma AbsentPairNotContained(s: string, sub: string, j: nat)
    requires j + 1 < |sub|
    requires forall i :: 0 <= i < |s| - 1 ==> s[i] != sub[j] || s[i + 1] != sub[j + 1]
    ensures !Contains(s, sub)
  {
    forall i | 0 <= i <= |s|
      ensures !OccursAt(s, sub, i)
    {
      if i + |sub| <= |s| {
        assert s[i..i + |sub|][j] == s[i + j] && s[i..i + |sub|][j + 1] == s[i + j + 1];
      }
    }
  }

  // ---------------------------------------------------------------------
  // List indexing
  // ---------------------------------------------------------------------

  /**
   * Python list indexing: a negative index counts from the end; an index
   * outside `-|s| .. |s|-1` raises IndexError (None).
   */
  function PyIndex<T>(s: seq<T>, i: int): (r: Option<T>)
    ensures r.Some? <==> -|s| <= i < |s|
    ensures 0 <= i < |s| ==> r == Some(s[i])
    ensures -|s| <= i < 0 ==> r == Some(s[|s| + i])
  {
    if 0 <= i < |s| then Some(s[i])
    else if -|s| <= i < 0 then Some(s[|s| + i])
    else None
  }

  // ---------------------------------------------------------------------
  // split / join on one separator character
  // ---------------------------------------------------------------------

  /**
   * `s.split(c)`: the pieces between occurrences of `c`, always at least
   * one, none of them containing `c`.
   */
  function Split(s: string, c: char): (r: seq<string>)
    ensures |r| >= 1
    ensures forall k :: 0 <= k < |r| ==> c !in r[k]
    ensures r[0] <= s
    decreases |s|
  {
    if s == [] then [""]
    else if s[0] == c then [""] + Split(s[1..], c)
    else
      var rest := Split(s[1..], c);
      [[s[0]] + rest[0]] + rest[1..]
  }

  /** `sep.join(ws)`. */
  function Join(ws: seq<string>, sep: string): string
  {
    if ws == [] then "" else ws[0] + JoinTail(ws[1..], sep)
  }

  /** Each remaining word preceded by the separator. */
  function JoinTail(ws: seq<string>, sep: string): string
  {
    if ws == [] then "" else sep + ws[0] + JoinTail(ws[1..], sep)
  }

  /** Splitting and re-joining on the same character gives back the text. */
  lemma {:induction false} SplitJoin(s: string, c: char)
    ensures Join(Split(s, c), [c]) == s
    decreases |s|
  {
    if s != [] {
      SplitJoin(s[1..], c);
      var rest := Split(s[1..], c);
      if s[0] == c {
        calc {
          Join(Split(s, c), [c]);
          "" + JoinTail(rest, [c]);
          [c] + rest[0] + JoinTail(rest[1..], [c]);
          [c] + Join(rest, [c]);
          [s[0]] + s[1..];
        }
      } else {
        calc {
          Join(Split(s, c), [c]);
          ([s[0]] + rest[0]) + JoinTail(rest[1..], [c]);
          [s[0]] + (rest[0] + JoinTail(rest[1..], [c]));
          [s[0]] + s[1..];
        }
      }
    }
  }

  /** Without the separator, splitting yields the text itself as the only piece. */
  lemma {:induction false} SplitAbsent(s: string, c: char)
    requires c !in s
    ensures Split(s, c) == [s]
    decreases |s|
  {
    if s != [] {
      assert s[0] != c;
      SplitAbsent(s[1..], c);
      assert [s[0]] + s[1..] == s;
    }
  }

  /** With the separator present, the first piece is exactly the text before its first occurrence. */
  lemma {:induction false} SplitFirst(s: string, c: char, i: nat)
    requires i < |s| && s[i] == c && c !in s[..i]
    ensures |Split(s, c)| >= 2
    ensures Split(s, c)[0] == s[..i]
    decreases i
  {
    if i > 0 {
      assert s[1..][i - 1] == c;
      assert s[1..][..i - 1] == s[1..i];
      SplitFirst(s[1..], c, i - 1);
    }
  }

  /** With the separator present, there are at least two pieces. */
  lemma {:induction false} SplitPresent(s: string, c: char)
    requires c in s
    ensures |Split(s, c)| >= 2
    decreases |s|
  {
    if s[0] != c {
      SplitPresent(s[1..], c);
    }
  }

  /** Text before the first separator is the first piece; the rest splits on its own. */
  lemma {:induction false} SplitAfter(p: string, c: char, q: string)
    requires c !in p
    ensures Split(p + [c] + q, c) == [p] + Split(q, c)
    decreases |p|
  {
    if p == [] {
      assert p + [c] + q == [c] + q;
      assert ([c] + q)[1..] == q;
    } else {
      SplitAfter(p[1..], c, q);
      assert (p + [c] + q)[1..] == p[1..] + [c] + q;
      assert [p[0]] + p[1..] == p;
    }
  }

  // ---------------------------------------------------------------------
  // replace
  // ---------------------------------------------------------------------

  /** `s.replace(pat, rep)`: every non-overlapping occurrence, scanning left to right. */
  function ReplaceAll(s: string, pat: string, rep: string): (r: string)
    requires |pat| > 0
    decreases |s|
  {
    if |s| < |pat| then s
    else if pat <= s then rep + ReplaceAll(s[|pat|..], pat, rep)
    else [s[0]] + ReplaceAll(s[1..], pat, rep)
  }

  /** Replacing a one-character pattern by text without it removes that character. */
  lemma {:induction false} ReplaceRemoves(s: string, c: char, rep: string)
    requires c !in rep
    ensures c !in ReplaceAll(s, [c], rep)
    decreases |s|
  {
    if |s| >= 1 {
      ReplaceRemoves(s[1..], c, rep);
      if [c] <= s {
      } else {
        assert s[0] != c;
      }
    }
  }

  /** A character absent from both the text and the replacement stays absent. */
  lemma {:induction false} ReplaceKeepsAbsent(s: string, pat: string, rep: string, x: char)
    requires |pat| > 0 && x !in s && x !in rep
    ensures x !in ReplaceAll(s, pat, rep)
    decreases |s|
  {
    if |s| >= |pat| {
      if pat <= s {
        ReplaceKeepsAbsent(s[|pat|..], pat, rep, x);
      } else {
        ReplaceKeepsAbsent(s[1..], pat, rep, x);
      }
    }
  }

  /** Replacing `a` by `b` when `b` is a single different character changes nothing but those characters. */
  lemma {:induction false} ReplaceCharAt(s: string, a: char, b: char, i: nat)
    requires i < |s|
    ensures |ReplaceAll(s, [a], [b])| == |s|
    ensures ReplaceAll(s, [a], [b])[i] == if s[i] == a then b else s[i]
    decreases |s|
  {
    if i > 0 {
      ReplaceCharAt(s[1..], a, b, i - 1);
    } else if |s| > 1 {
      ReplaceCharAt(s[1..], a, b, 0);
    } else {
      assert s[1..] == [];
    }
  }

  /** Replacing `a` by the character `b` maps every position on its own. */
  lemma ReplaceCharEverywhere(s: string, a: char, b: char)
    ensures |ReplaceAll(s, [a], [b])| == |s|
    ensures forall i :: 0 <= i < |s| ==> ReplaceAll(s, [a], [b])[i] == if s[i] == a then b else s[i]
  {
    if |s| > 0 {
      ReplaceCharAt(s, a, b, 0);
    }
    forall i | 0 <= i < |s|
      ensures ReplaceAll(s, [a], [b])[i] == if s[i] == a then b else s[i]
    {
      ReplaceCharAt(s, a, b, i);
    }
  }

  /** A one-character pattern is replaced character by character, from the front. */
  lemma ReplaceCharStep(c: char, s: string, a: char, rep: string)
    ensures ReplaceAll([c] + s, [a], rep) == (if c == a then rep else [c]) + ReplaceAll(s, [a], rep)
  {
    var t := [c] + s;
    assert t[1..] == s && t[..1] == [c];
    if c == a {
      assert [a] <= t;
      assert ReplaceAll(t, [a], rep) == rep + ReplaceAll(t[1..], [a], rep);
    } else {
      assert ([a] <= t) == ([a] == t[..1]);
      assert [a] != [c];
      assert ReplaceAll(t, [a], rep) == [t[0]] + ReplaceAll(t[1..], [a], rep);
    }
  }

  /** Replacing a one-character pattern distributes over concatenation. */
  lemma {:induction false} ReplaceCharConcat(x: string, y: string, a: char, rep: string)
    ensures ReplaceAll(x + y, [a], rep) == ReplaceAll(x, [a], rep) + ReplaceAll(y, [a], rep)
    decreases |x|
  {
    if x == [] {
      assert x + y == y;
      assert ReplaceAll(x, [a], rep) == [];
    } else {
      var c := x[0];
      assert x + y == [c] + (x[1..] + y);
      assert x == [c] + x[1..];
      ReplaceCharStep(c, x[1..] + y, a, rep);
      ReplaceCharStep(c, x[1..], a, rep);
      ReplaceCharConcat(x[1..], y, a, rep);
    }
  }

  /** Every character of the result comes from the text or the replacement. */
  lemma {:induction false} ReplaceDrawsFrom(s: string, pat: string, rep: string)
    requires |pat| > 0
    ensures forall x :: x in ReplaceAll(s, pat, rep) ==> x in s || x in rep
    decreases |s|
  {
    if |s| >= |pat| {
      if pat <= s {
        ReplaceDrawsFrom(s[|pat|..], pat, rep);
        forall x | x in s[|pat|..] ensures x in s {
          var k :| 0 <= k < |s[|pat|..]| && s[|pat|..][k] == x;
          assert s[k + |pat|] == x;
        }
      } else {
        ReplaceDrawsFrom(s[1..], pat, rep);
        forall x | x in s[1..] ensures x in s {
          var k :| 0 <= k < |s[1..]| && s[1..][k] == x;
          assert s[k + 1] == x;
        }
      }
    }
  }

  /** Replacing a character that does not occur changes nothing. */
  lemma {:induction false} ReplaceAbsent(s: string, c: char, rep: string)
    requires c !in s
    ensures ReplaceAll(s, [c], rep) == s
    decreases |s|
  {
    if |s| >= 1 {
      assert s[0] != c;
      ReplaceAbsent(s[1..], c, rep);
      assert [s[0]] + s[1..] == s;
    }
  }

  /** No two consecutive characters of `s` are both `c`. */
  predicate NoDoubled(s: string, c: char)
  {
    forall i :: 0 < i < |s| ==> !(s[i - 1] == c && s[i] == c)
  }

  /** Deleting every doubled `c` (left to right) leaves text without one. */
  lemma {:induction false} DeleteDoubledLeavesNone(s: string, c: char)
    ensures NoDoubled(ReplaceAll(s, [c, c], ""), c)
    ensures s != [] && s[0] != c ==> ReplaceAll(s, [c, c], "") != [] && ReplaceAll(s, [c, c], "")[0] == s[0]
    decreases |s|
  {
    if |s| >= 2 {
      if [c, c] <= s {
        DeleteDoubledLeavesNone(s[2..], c);
      } else {
        DeleteDoubledLeavesNone(s[1..], c);
        var r := ReplaceAll(s[1..], [c, c], "");
        assert ReplaceAll(s, [c, c], "") == [s[0]] + r;
        assert s[0] == c ==> s[1] != c;
      }
    }
  }

  /** Deleting doubled `c` from text that has none changes nothing. */
  lemma {:induction false} DeleteDoubledAbsent(s: string, c: char)
    requires NoDoubled(s, c)
    ensures ReplaceAll(s, [c, c], "") == s
    decreases |s|
  {
    if |s| >= 2 {
      assert !([c, c] <= s) by {
        assert !(s[0] == c && s[1] == c);
      }
      DeleteDoubledAbsent(s[1..], c);
      assert [s[0]] + s[1..] == s;
    }
  }

  // ---------------------------------------------------------------------
  // Whitespace and strip
  // ---------------------------------------------------------------------

  /** Python's `str.isspace` for one character. */
  predicate IsSpace(c: char)
  {
    c == ' ' || ('\t' <= c <= '\r') || ('\U{1c}' <= c <= '\U{1f}')
    || c == '\U{85}' || c == '\U{a0}' || c == '\U{1680}' || ('\U{2000}' <= c <= '\U{200a}')
    || c == '\U{2028}' || c == '\U{2029}' || c == '\U{202f}' || c == '\U{205f}' || c == '\U{3000}'
  }

  /** `s.lstrip()`: the text from its first non-space character on. */
  function LStrip(s: string): (r: string)
    ensures r == [] || !IsSpace(r[0])
    ensures exists k :: 0 <= k <= |s| && r == s[k..]
    decreases |s|
  {
    if s != [] && IsSpace(s[0]) then
      var r := LStrip(s[1..]);
      ghost var k :| 0 <= k <= |s[1..]| && r == s[1..][k..];
      assert r == s[k + 1..];
      r
    else
      assert s == s[0..];
      s
  }

  /** `s.rstrip()`: the text up to its last non-space character. */
  function RStrip(s: string): (r: string)
    ensures r == [] || !IsSpace(r[|r| - 1])
    ensures r <= s
    decreases |s|
  {
    if s != [] && IsSpace(s[|s| - 1]) then RStrip(s[..|s| - 1]) else s
  }

  /** `s.lstrip(c)` for one character. */
  function LStripChar(s: string, c: char): (r: string)
    ensures r == [] || r[0] != c
    ensures |r| <= |s| && forall i :: 0 <= i < |s| - |r| ==> s[i] == c
    decreases |s|
  {
    if s != [] && s[0] == c then LStripChar(s[1..], c) else s
  }

  /** Stripping both ends keeps a character out. */
  lemma StripKeepsAbsent(s: string, x: char)
    requires x !in s
    ensures x !in RStrip(LStrip(s))
  {
    var l := LStrip(s);
    var k :| 0 <= k <= |s| && l == s[k..];
    assert x !in l;
    assert RStrip(l) == l[..|RStrip(l)|];
  }

  /** `s.rstrip(c)` for one character. */
  function RStripChar(s: string, c: char): (r: string)
    ensures r == [] || r[|r| - 1] != c
    ensures r <= s
    ensures forall i :: |r| <= i < |s| ==> s[i] == c
    decreases |s|
  {
    if s != [] && s[|s| - 1] == c then RStripChar(s[..|s| - 1], c) else s
  }

  /** `n` copies of `c`. */
  function Run(c: char, n: nat): (r: string)
    ensures |r| == n && forall i :: 0 <= i < n ==> r[i] == c
  {
    if n == 0 then [] else [c] + Run(c, n - 1)
  }

  /** A text made of `c` alone is a run of `c`. */
  lemma RunOf(s: string, c: char)
    requires forall i :: 0 <= i < |s| ==> s[i] == c
    ensures s == Run(c, |s|)
  {
  }

  /** `s.lstrip(c)` removes a run of `c` from the front and nothing else. */
  lemma {:induction false} LStripCharShape(s: string, c: char)
    ensures s == Run(c, |s| - |LStripChar(s, c)|) + LStripChar(s, c)
    decreases |s|
  {
    if s != [] && s[0] == c {
      LStripCharShape(s[1..], c);
      assert s == [c] + s[1..];
    }
  }

  /** `s.rstrip(c)` removes a run of `c` from the back and nothing else. */
  lemma RStripCharShape(s: string, c: char)
    ensures s == RStripChar(s, c) + Run(c, |s| - |RStripChar(s, c)|)
  {
    var r := RStripChar(s, c);
    RunOf(s[|r|..], c);
    assert s == r + s[|r|..];
  }

  lemma ConcatAssoc(a: string, b: string, c: string)
    ensures a + (b + c) == a + b + c
  {
  }

  /** Stripping a character from one end never creates it at the other. */
  lemma {:induction false} RStripKeepsHead(s: string, c: char)
    requires s != [] && s[0] != c
    ensures RStripChar(s, c) != [] && RStripChar(s, c)[0] == s[0]
    decreases |s|
  {
    if s[|s| - 1] == c {
      RStripKeepsHead(s[..|s| - 1], c);
    }
  }

  // ---------------------------------------------------------------------
  // ASCII case mapping
  // ---------------------------------------------------------------------

  function LowerC(c: char): char
  {
    if 'A' <= c <= 'Z' then (c as int + 32) as char else c
  }

  function UpperC(c: char): char
  {
    if 'a' <= c <= 'z' then (c as int - 32) as char else c
  }

  /** `s.lower()` restricted to ASCII letters. */
  function Lower(s: string): (r: string)
    ensures |r| == |s|
    ensures forall i :: 0 <= i < |s| ==> r[i] == LowerC(s[i])
  {
    seq(|s|, i requires 0 <= i < |s| => LowerC(s[i]))
  }

  /** `s.upper()` restricted to ASCII letters. */
  function Upper(s: string): (r: string)
    ensures |r| == |s|
    ensures forall i :: 0 <= i < |s| ==> r[i] == UpperC(s[i])
  {
    seq(|s|, i requires 0 <= i < |s| => UpperC(s[i]))
  }

  /** Case mapping moves letters only: any other character is left alone and none is produced. */
  lemma CaseMapFixesNonLetters(c: char, x: char)
    requires !('a' <= x <= 'z') && !('A' <= x <= 'Z')
    ensures LowerC(c) == x <==> c == x
    ensures UpperC(c) == x <==> c == x
  {
  }

  /** Mapping a character that was already mapped changes nothing further. */
  lemma CaseMapSettles(c: char)
    ensures LowerC(LowerC(c)) == LowerC(c)
    ensures LowerC(UpperC(LowerC(c))) == LowerC(c)
    ensures UpperC(UpperC(LowerC(c))) == UpperC(LowerC(c))
  {
  }

  /** Case mapping sends letters to letters. */
  lemma CaseMapKeepsLetters(c: char)
    requires 'a' <= c <= 'z' || 'A' <= c <= 'Z'
    ensures 'a' <= LowerC(c) <= 'z'
    ensures 'A' <= UpperC(LowerC(c)) <= 'Z'
  {
  }

  /** Case mapping neither creates nor removes white space. */
  lemma CaseMapKeepsSpace(c: char)
    ensures IsSpace(LowerC(c)) <==> IsSpace(c)
    ensures IsSpace(UpperC(c)) <==> IsSpace(c)
  {
  }

  // ---------------------------------------------------------------------
  // int(s) and int(s, 16)
  // ---------------------------------------------------------------------

  /** Value of one digit in the given base, if it is one. */
  function DigitValue(c: char, base: nat): (r: Option<nat>)
    ensures r.Some? ==> r.value < base
  {
    var v :=
      if '0' <= c <= '9' then c as int - '0' as int
      else if 'a' <= c <= 'z' then c as int - 'a' as int + 10
      else if 'A' <= c <= 'Z' then c as int - 'A' as int + 10
      else 99;
    if v < base then Some(v) else None
  }

  /** The numeral of `n` in base ten, most significant digit first. */
  function Decimal(n: nat): (r: string)
    ensures |r| >= 1
    ensures forall i :: 0 <= i < |r| ==> '0' <= r[i] <= '9'
  {
    if n < 10 then [('0' as int + n) as char]
    else Decimal(n / 10) + [('0' as int + n % 10) as char]
  }

  /** Value of a non-empty run of digits, or None if any character is not a digit. */
  function DigitsValue(ds: string, base: nat): Option<nat>
    decreases |ds|
  {
    if ds == [] then None
    else
      match DigitValue(ds[|ds| - 1], base)
      case None => None
      case Some(d) =>
        if |ds| == 1 then Some(d)
        else
          match DigitsValue(ds[..|ds| - 1], base)
          case None => None
          case Some(high) => Some(high * base + d)
  }

  /** The digits of a stripped numeral after its optional sign. */
  function Unsigned(t: string): string
  {
    if t != [] && (t[0] == '-' || t[0] == '+') then t[1..] else t
  }

  /** The digits after an optional `0x` or `0X` prefix, which only base 16 accepts. */
  function Unprefixed(u: string, base: nat): string
  {
    if base == 16 && |u| >= 2 && u[0] == '0' && (u[1] == 'x' || u[1] == 'X') then u[2..] else u
  }

  /** The magnitude with the numeral's sign applied. */
  function Signed(t: string, v: nat): int
  {
    if t != [] && t[0] == '-' then -(v as int) else v
  }

  /**
   * `int(s)` (base 10) and `int(s, 16)`: surrounding white space, an
   * optional sign, for base 16 an optional `0x`, then at least one digit.
   * None stands for the ValueError Python raises.
   */
  function ParseInt(s: string, base: nat): Option<int>
  {
    var t := RStrip(LStrip(s));
    match DigitsValue(Unprefixed(Unsigned(t), base), base)
    case None => None
    case Some(v) => Some(Signed(t, v))
  }

  /** Reading back a decimal numeral gives its number. */
  lemma {:induction false} DecimalRoundTrip(n: nat)
    ensures DigitsValue(Decimal(n), 10) == Some(n)
  {
    if n >= 10 {
      DecimalRoundTrip(n / 10);
      var ds := Decimal(n);
      assert ds[..|ds| - 1] == Decimal(n / 10);
    }
  }

  /** Digits and the minus sign are not white space. */
  lemma NumeralNotSpace(s: string)
    requires forall i :: 0 <= i < |s| ==> '0' <= s[i] <= '9' || s[i] == '-'
    ensures forall i :: 0 <= i < |s| ==> !IsSpace(s[i])
  {
  }

  /** A text that neither starts nor ends with white space is left alone by strip. */
  lemma StripIdle(s: string)
    requires s != [] && !IsSpace(s[0]) && !IsSpace(s[|s| - 1])
    ensures RStrip(LStrip(s)) == s
  {
  }

  /** A stripped numeral parses to its digits' value, negated when it starts with a minus sign. */
  lemma ParseStripped(s: string, ds: string, v: nat)
    requires RStrip(LStrip(s)) == s && Unsigned(s) == ds
    requires DigitsValue(ds, 10) == Some(v)
    ensures ParseInt(s, 10) == Some(if s != [] && s[0] == '-' then -(v as int) else v as int)
  {
    assert Unprefixed(ds, 10) == ds;
  }

  /** A run of digits, with or without a minus sign in front, parses to its value. */
  lemma ParseDigits(ds: string, v: nat, neg: bool)
    requires ds != [] && forall i :: 0 <= i < |ds| ==> '0' <= ds[i] <= '9'
    requires DigitsValue(ds, 10) == Some(v)
    ensures ParseInt(if neg then "-" + ds else ds, 10) == Some(if neg then -(v as int) else v as int)
  {
    var s := if neg then "-" + ds else ds;
    assert Unsigned(s) == ds && (neg <==> s[0] == '-') by {
      if neg {
        assert s[0] == '-' && s[1..] == ds;
      } else {
        assert '0' <= ds[0] <= '9';
      }
    }
    assert RStrip(LStrip(s)) == s by {
      assert forall i :: 0 <= i < |s| ==> '0' <= s[i] <= '9' || s[i] == '-';
      NumeralNotSpace(s);
      StripIdle(s);
    }
    ParseStripped(s, ds, v);
  }

  /** `int(str(n))` is `n`: reading back the decimal numeral of a number, with its minus sign if negative, gives the number. */
  lemma ParseIntOfDecimal(m: nat, neg: bool)
    ensures ParseInt(if neg then "-" + Decimal(m) else Decimal(m), 10) == Some(if neg then -(m as int) else m as int)
  {
    DecimalRoundTrip(m);
    ParseDigits(Decimal(m), m, neg);
  }
}
