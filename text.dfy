/**
 * The small part of Python's `str` behaviour the loan assistant relies on:
 * `lower()`/`upper()` (on ASCII letters), the substring test `t in s`,
 * `sep.join(xs)` and the decimal rendering of integers.
 */
module Text {

  /** `c.lower()` for an ASCII character. */
  function LowerChar(c: char): char {
    if 'A' <= c <= 'Z' then (c as int + 32) as char else c
  }

  /** `c.upper()` for an ASCII character. */
  function UpperChar(c: char): char {
    if 'a' <= c <= 'z' then (c as int - 32) as char else c
  }

  /** `s.lower()`: every character lowered, nothing else changes. */
  function Lower(s: string): string {
    seq(|s|, i requires 0 <= i < |s| => LowerChar(s[i]))
  }

  /** `s.upper()`: every character raised, nothing else changes. */
  function Upper(s: string): string {
    seq(|s|, i requires 0 <= i < |s| => UpperChar(s[i]))
  }

  /** Lowering twice is lowering once. */
  lemma LowerIdempotent(s: string)
    ensures Lower(Lower(s)) == Lower(s)
  {
  }

  /** Upper-casing forgets whether the text was lowered first. */
  lemma UpperOfLower(s: string)
    ensures Upper(Lower(s)) == Upper(s)
  {
  }

  /** Lowering works character by character, so it distributes over concatenation. */
  lemma LowerConcat(x: string, y: string)
    ensures Lower(x + y) == Lower(x) + Lower(y)
  {
  }

  /** Upper-casing distributes over concatenation too. */
  lemma UpperConcat(x: string, y: string)
    ensures Upper(x + y) == Upper(x) + Upper(y)
  {
  }

  /** `t` occurs in `s` starting at index `i`. */
  predicate OccursAt(s: string, t: string, i: int) {
    0 <= i && i + |t| <= |s| && s[i..i + |t|] == t
  }

  /** Python's substring test `t in s`, by scanning from the left. */
  function Contains(s: string, t: string): bool
    decreases |s|
  {
    if |t| > |s| then false
    else if t <= s then true
    else Contains(s[1..], t)
  }

  /** The scan finds `t` exactly when `t` occurs somewhere in `s`. */
  lemma {:induction false} ContainsSpec(s: string, t: string)
    ensures Contains(s, t) <==> exists i :: OccursAt(s, t, i)
    decreases |s|
  {
    if |t| > |s| {
    } else if s[..|t|] == t {
      assert OccursAt(s, t, 0);
    } else {
      ContainsSpec(s[1..], t);
      assert forall i :: OccursAt(s[1..], t, i) <==> OccursAt(s, t, i + 1) by {
        forall i ensures OccursAt(s[1..], t, i) <==> OccursAt(s, t, i + 1) {
          if 0 <= i && i + |t| <= |s| - 1 {
            assert s[1..][i..i + |t|] == s[i + 1..i + 1 + |t|];
          }
        }
      }
      assert !OccursAt(s, t, 0);
      assert (exists i :: OccursAt(s, t, i)) ==> exists i :: OccursAt(s[1..], t, i) by {
        if exists i :: OccursAt(s, t, i) {
          var i :| OccursAt(s, t, i);
          assert OccursAt(s[1..], t, i - 1);
        }
      }
    }
  }

  /** Whatever surrounds it, a text placed inside another is found in it. */
  lemma ContainsInfix(a: string, t: string, b: string)
    ensures Contains(a + t + b, t)
  {
    assert (a + t + b)[|a|..|a| + |t|] == t;
    assert OccursAt(a + t + b, t, |a|);
    ContainsSpec(a + t + b, t);
  }

  /** Each of three texts spliced between four others is found in the result. */
  lemma ContainsEachPiece(a: string, x: string, b: string, y: string, c: string, z: string, d: string)
    ensures var s := a + x + b + y + c + z + d;
            Contains(s, x) && Contains(s, y) && Contains(s, z)
  {
    var s := a + x + b + y + c + z + d;
    assert s == a + x + (b + y + c + z + d);
    ContainsInfix(a, x, b + y + c + z + d);
    assert s == (a + x + b) + y + (c + z + d);
    ContainsInfix(a + x + b, y, c + z + d);
    ContainsInfix(a + x + b + y + c, z, d);
  }

  /** Each of five texts spliced between six others is found in the result. */
  lemma ContainsEachOfFive(a: string, x1: string, b: string, x2: string, c: string, x3: string,
                           d: string, x4: string, e: string, x5: string, f: string)
    ensures var s := a + x1 + b + x2 + c + x3 + d + x4 + e + x5 + f;
            Contains(s, x1) && Contains(s, x2) && Contains(s, x3) && Contains(s, x4) && Contains(s, x5)
  {
    var front := a + x1 + b + x2 + c;
    var s := a + x1 + b + x2 + c + x3 + d + x4 + e + x5 + f;
    ContainsEachPiece(front, x3, d, x4, e, x5, f);
    assert s == a + x1 + b + x2 + (c + x3 + d + x4 + e + x5 + f);
    assert s == a + x1 + (b + x2 + c + x3 + d + x4 + e + x5 + f);
    ContainsInfix(a, x1, b + x2 + c + x3 + d + x4 + e + x5 + f);
    ContainsInfix(a + x1 + b, x2, c + x3 + d + x4 + e + x5 + f);
  }

  /** `any(k in s for k in keywords)`. */
  function ContainsAny(s: string, keywords: seq<string>): (b: bool)
    ensures b <==> exists k :: k in keywords && Contains(s, k)
  {
    if keywords == [] then false
    else if Contains(s, keywords[0]) then
      assert keywords[0] in keywords;
      true
    else
      var rest := ContainsAny(s, keywords[1..]);
      assert (exists k :: k in keywords && Contains(s, k)) <==> rest by {
        if rest {
          var k :| k in keywords[1..] && Contains(s, k);
          assert k in keywords;
        }
        if exists k :: k in keywords && Contains(s, k) {
          var k :| k in keywords && Contains(s, k);
          assert k != keywords[0];
          assert k in keywords[1..];
        }
      }
      rest
  }

  /** `sep.join(xs)`. */
  function Join(xs: seq<string>, sep: string): string {
    if |xs| == 0 then ""
    else if |xs| == 1 then xs[0]
    else xs[0] + sep + Join(xs[1..], sep)
  }

  /**
   * Appending one more entry to a non-empty list extends its rendering by the
   * separator and that entry: what was rendered before is never rewritten.
   */
  lemma {:induction false} JoinSnoc(xs: seq<string>, x: string, sep: string)
    requires |xs| > 0
    ensures Join(xs + [x], sep) == Join(xs, sep) + sep + x
  {
    if |xs| == 1 {
      assert xs + [x] == [xs[0], x];
      assert (xs + [x])[1..] == [x];
    } else {
      assert (xs + [x])[1..] == xs[1..] + [x];
      JoinSnoc(xs[1..], x, sep);
    }
  }

  /** Appending a pair of entries, the way a chat turn extends a transcript. */
  lemma JoinAppendPair(xs: seq<string>, a: string, b: string, sep: string)
    ensures Join(xs + [a, b], sep) ==
            (if xs == [] then a else Join(xs, sep) + sep + a) + sep + b
  {
    if xs == [] {
      assert xs + [a, b] == [a, b];
      assert [a, b][1..] == [b];
    } else {
      assert xs + [a, b] == (xs + [a]) + [b];
      JoinSnoc(xs, a, sep);
      JoinSnoc(xs + [a], b, sep);
    }
  }

  function DigitChar(d: int): char
    requires 0 <= d < 10
  {
    ('0' as int + d) as char
  }

  /** `str(n)` for a natural number. */
  function NatToDecimal(n: nat): (r: string)
    ensures |r| > 0
    ensures forall i :: 0 <= i < |r| ==> '0' <= r[i] <= '9'
  {
    if n < 10 then [DigitChar(n)] else NatToDecimal(n / 10) + [DigitChar(n % 10)]
  }

  /** `str(i)` for any integer. */
  function IntToDecimal(i: int): string {
    if i < 0 then "-" + NatToDecimal(-i) else NatToDecimal(i)
  }
}
