/**
 * The few string operations the analysers apply to labels such as
 * roman numerals ("V/V", "vii°7"), figures ("65") and rule messages.
 */
module Text {

  predicate StartsWith(s: string, prefix: string) {
    |prefix| <= |s| && s[..|prefix|] == prefix
  }

  predicate EndsWith(s: string, suffix: string) {
    |suffix| <= |s| && s[|s| - |suffix|..] == suffix
  }

  /** Python's `sub in s`. */
  predicate Contains(s: string, sub: string)
    decreases |s|
  {
    StartsWith(s, sub) || (|s| > 0 && Contains(s[1..], sub))
  }

  /** Python's `s.replace(pattern, replacement)`: every non-overlapping occurrence, left to right. */
  function ReplaceAll(s: string, pattern: string, replacement: string): (r: string)
    requires |pattern| > 0
    decreases |s|
  {
    if StartsWith(s, pattern) then replacement + ReplaceAll(s[|pattern|..], pattern, replacement)
    else if |s| == 0 then s
    else [s[0]] + ReplaceAll(s[1..], pattern, replacement)
  }

  /** A string without the searched text is left as it is by `replace`. */
  lemma {:induction false} ReplaceAbsent(s: string, pattern: string, replacement: string)
    requires |pattern| > 0
    requires !Contains(s, pattern)
    ensures ReplaceAll(s, pattern, replacement) == s
    decreases |s|
  {
    if |s| > 0 {
      ReplaceAbsent(s[1..], pattern, replacement);
      assert [s[0]] + s[1..] == s;
    }
  }

  /** A one-character search text occurs exactly when the character does. */
  lemma {:induction false} ContainsChar(s: string, c: char)
    ensures Contains(s, [c]) <==> c in s
    decreases |s|
  {
    if |s| > 0 {
      ContainsChar(s[1..], c);
      assert c in s <==> s[0] == c || c in s[1..];
    }
  }

  /** Replacing one character, first step: the head is replaced or kept. */
  lemma ReplaceCharHead(s: string, c: char, replacement: string)
    requires |s| > 0
    ensures ReplaceAll(s, [c], replacement) == (if s[0] == c then replacement else [s[0]]) + ReplaceAll(s[1..], [c], replacement)
  {
    assert s[..1] == [s[0]];
    assert StartsWith(s, [c]) <==> s[0] == c;
  }

  /** Replacing one character works piecewise over a concatenation. */
  lemma {:induction false} ReplaceCharAppend(x: string, y: string, c: char, replacement: string)
    ensures ReplaceAll(x + y, [c], replacement) == ReplaceAll(x, [c], replacement) + ReplaceAll(y, [c], replacement)
    decreases |x|
  {
    if |x| > 0 {
      assert (x + y)[1..] == x[1..] + y;
      ReplaceCharHead(x, c, replacement);
      ReplaceCharHead(x + y, c, replacement);
      ReplaceCharAppend(x[1..], y, c, replacement);
    } else {
      assert x + y == y;
    }
  }

  /**
   * Replacing two different characters, neither of which appears in the
   * other's replacement, gives the same string in either order.
   */
  lemma {:induction false} ReplaceCharsCommute(s: string, a: char, ra: string, b: char, rb: string)
    requires a != b && a !in rb && b !in ra
    ensures ReplaceAll(ReplaceAll(s, [a], ra), [b], rb) == ReplaceAll(ReplaceAll(s, [b], rb), [a], ra)
    decreases |s|
  {
    if |s| > 0 {
      var head, rest := s[..1], s[1..];
      assert s == head + rest;
      ReplaceCharAppend(head, rest, a, ra);
      ReplaceCharAppend(head, rest, b, rb);
      var ha, hb := ReplaceAll(head, [a], ra), ReplaceAll(head, [b], rb);
      var ta, tb := ReplaceAll(rest, [a], ra), ReplaceAll(rest, [b], rb);
      ReplaceCharAppend(ha, ta, b, rb);
      ReplaceCharAppend(hb, tb, a, ra);
      ReplaceCharsCommute(rest, a, ra, b, rb);
      ContainsChar(ra, b);
      ContainsChar(rb, a);
      ReplaceCharHead(head, a, ra);
      ReplaceCharHead(head, b, rb);
      assert head[1..] == "";
      if s[0] == a {
        ReplaceAbsent(ra, [b], rb);
        assert hb == head && ha == ra;
        assert ReplaceAll(head, [a], ra) == ra;
      } else if s[0] == b {
        ReplaceAbsent(rb, [a], ra);
        assert ha == head && hb == rb;
        assert ReplaceAll(head, [b], rb) == rb;
      } else {
        assert ha == head && hb == head;
        ReplaceCharHead(head, a, ra);
      }
    }
  }

  /** After replacing a character by text without it, the character is gone. */
  lemma {:induction false} ReplaceCharRemoves(s: string, c: char, replacement: string)
    requires c !in replacement
    ensures c !in ReplaceAll(s, [c], replacement)
    decreases |s|
  {
    if |s| > 0 {
      ReplaceCharHead(s, c, replacement);
      ReplaceCharRemoves(s[1..], c, replacement);
    }
  }

  /** Replacing a character by a single character keeps the length. */
  lemma {:induction false} ReplaceCharKeepsLength(s: string, c: char, d: char)
    ensures |ReplaceAll(s, [c], [d])| == |s|
    decreases |s|
  {
    if |s| > 0 {
      ReplaceCharHead(s, c, [d]);
      ReplaceCharKeepsLength(s[1..], c, d);
    }
  }

  /** A string ending with `sub` contains it. */
  lemma {:induction false} EndsWithContains(s: string, sub: string)
    requires EndsWith(s, sub)
    ensures Contains(s, sub)
    decreases |s|
  {
    if |s| > |sub| {
      assert s[1..][|s| - 1 - |sub|..] == s[|s| - |sub|..];
      EndsWithContains(s[1..], sub);
    } else {
      assert s[..|sub|] == s[|s| - |sub|..];
    }
  }

  /** ASCII lower-casing, as Python's `str.lower` on the labels used here. */
  function LowerChar(c: char): char {
    if 'A' <= c <= 'Z' then (c as int + 32) as char else c
  }

  function Lower(s: string): (r: string)
    ensures |r| == |s|
    ensures forall i | 0 <= i < |s| :: r[i] == LowerChar(s[i])
  {
    seq(|s|, i requires 0 <= i < |s| => LowerChar(s[i]))
  }
}
