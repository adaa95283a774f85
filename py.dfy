/** The Python string and number built-ins the listing path relies on:
    `str.split` in its three forms, `str.join`, `in` on strings,
    `str.startswith`, `str.lower`, `str.format` of one named field, `int()`
    of a string and `int()` of a float. */
module Py {
  import opened Base

  // ---------------------------------------------------------------------
  // str.split(sep) and sep.join(pieces)

  /** `s.split(sep)` for a one-character separator: it splits at every
      occurrence and keeps empty pieces. */
  function Split(s: string, sep: char): (r: seq<string>)
    ensures |r| >= 1
    ensures forall i :: 0 <= i < |r| ==> sep !in r[i]
  {
    if |s| == 0 then [""]
    else
      var rest := Split(s[1..], sep);
      if s[0] == sep then [""] + rest
      else [[s[0]] + rest[0]] + rest[1..]
  }

  /** `sep.join(pieces)`. */
  function Join(sep: char, pieces: seq<string>): string
  {
    if |pieces| == 0 then ""
    else if |pieces| == 1 then pieces[0]
    else pieces[0] + [sep] + Join(sep, pieces[1..])
  }

  /** Joining the pieces of a split gives back the original text. */
  lemma {:induction false} JoinSplit(s: string, sep: char)
    ensures Join(sep, Split(s, sep)) == s
  {
    if |s| > 0 {
      var rest := Split(s[1..], sep);
      JoinSplit(s[1..], sep);
      if s[0] == sep {
        assert ([""] + rest)[1..] == rest;
      } else if |rest| > 1 {
        assert ([[s[0]] + rest[0]] + rest[1..])[1..] == rest[1..];
        assert s == [s[0]] + s[1..];
      } else {
        assert s == [s[0]] + s[1..];
      }
    }
  }

  /** Joining two non-empty runs of pieces puts one separator between them. */
  lemma {:induction false} JoinAppend(sep: char, a: seq<string>, b: seq<string>)
    requires |a| >= 1 && |b| >= 1
    ensures Join(sep, a + b) == Join(sep, a) + [sep] + Join(sep, b)
  {
    if |a| == 1 {
      assert (a + b)[1..] == b;
    } else {
      JoinAppend(sep, a[1..], b);
      assert (a + b)[1..] == a[1..] + b;
    }
  }

  /** Text without the separator splits into itself alone. */
  lemma {:induction false} SplitWithoutSeparator(s: string, sep: char)
    requires sep !in s
    ensures Split(s, sep) == [s]
  {
    if |s| > 0 {
      SplitWithoutSeparator(s[1..], sep);
      assert s == [s[0]] + s[1..];
    }
  }

  /** A separator-free head followed by the separator splits off as one piece. */
  lemma {:induction false} SplitAfterPiece(p: string, sep: char, t: string)
    requires sep !in p
    ensures Split(p + [sep] + t, sep) == [p] + Split(t, sep)
  {
    var s := p + [sep] + t;
    if |p| == 0 {
      assert s[1..] == t;
    } else {
      assert s[1..] == p[1..] + [sep] + t;
      SplitAfterPiece(p[1..], sep, t);
      assert [p[0]] + p[1..] == p;
    }
  }

  /** Splitting separator-free pieces joined by the separator gives the pieces back. */
  lemma {:induction false} SplitJoin(pieces: seq<string>, sep: char)
    requires |pieces| >= 1
    requires forall i :: 0 <= i < |pieces| ==> sep !in pieces[i]
    ensures Split(Join(sep, pieces), sep) == pieces
  {
    if |pieces| == 1 {
      SplitWithoutSeparator(pieces[0], sep);
    } else {
      SplitJoin(pieces[1..], sep);
      SplitAfterPiece(pieces[0], sep, Join(sep, pieces[1..]));
      assert [pieces[0]] + pieces[1..] == pieces;
    }
  }

  /** A split has one more piece than the text has separators. */
  lemma {:induction false} SplitCount(s: string, sep: char)
    ensures |Split(s, sep)| == multiset(s)[sep] + 1
  {
    if |s| > 0 {
      SplitCount(s[1..], sep);
      assert s == [s[0]] + s[1..];
      assert multiset(s) == multiset([s[0]]) + multiset(s[1..]);
    }
  }

  // ---------------------------------------------------------------------
  // str.split(sep, 1)

  /** `s.split(sep, 1)`: the text before the first separator and, when there
      is one, everything after it. */
  function SplitOnce(s: string, sep: char): (r: seq<string>)
    ensures 1 <= |r| <= 2
    ensures sep !in r[0]
    ensures |r| == 1 <==> sep !in s
    ensures |r| == 1 ==> r[0] == s
    ensures |r| == 2 ==> r[0] + [sep] + r[1] == s
  {
    if |s| == 0 then [""]
    else if s[0] == sep then ["", s[1..]]
    else
      var rest := SplitOnce(s[1..], sep);
      assert s == [s[0]] + s[1..];
      [[s[0]] + rest[0]] + rest[1..]
  }

  lemma {:induction false} SplitOnceAfterPiece(p: string, sep: char, t: string)
    requires sep !in p
    ensures SplitOnce(p + [sep] + t, sep) == [p, t]
  {
    var s := p + [sep] + t;
    var r := SplitOnce(s, sep);
    assert sep in s by { assert s[|p|] == sep; }
    assert |r| == 2;
    // r[0] is the separator-free prefix before the first separator, which is p
    SplitOncePrefix(s, sep, p, t);
  }

  lemma {:induction false} SplitOncePrefix(s: string, sep: char, p: string, t: string)
    requires sep !in p && s == p + [sep] + t
    ensures SplitOnce(s, sep) == [p, t]
  {
    if |p| == 0 {
      assert s[0] == sep && s[1..] == t;
    } else {
      assert s[0] == p[0] && s[1..] == p[1..] + [sep] + t;
      SplitOncePrefix(s[1..], sep, p[1..], t);
      assert [p[0]] + p[1..] == p;
    }
  }

  // ---------------------------------------------------------------------
  // str.split() with no argument

  /** The ASCII characters `str.split()` and `str.strip()` treat as whitespace. */
  predicate IsSpace(c: char)
  {
    c == ' ' || c == '\t' || c == '\n' || c == '\r' || c == '\U{B}' || c == '\U{C}'
  }

  predicate NoSpace(w: string)
  {
    forall i :: 0 <= i < |w| ==> !IsSpace(w[i])
  }

  /** `s.split()`: the maximal runs of non-whitespace, so no piece is empty
      and no piece holds whitespace. */
  function SplitWhitespace(s: string): (r: seq<string>)
    ensures forall i :: 0 <= i < |r| ==> |r[i]| > 0 && NoSpace(r[i])
    ensures |s| > 0 && !IsSpace(s[0]) ==> |r| > 0
  {
    if |s| == 0 then []
    else
      var rest := SplitWhitespace(s[1..]);
      if IsSpace(s[0]) then rest
      else if |s| > 1 && !IsSpace(s[1]) then [[s[0]] + rest[0]] + rest[1..]
      else [[s[0]]] + rest
  }

  /** A word followed by a space splits off as one piece. */
  lemma {:induction false} SplitWhitespaceAfterWord(w: string, t: string)
    requires |w| > 0 && NoSpace(w)
    ensures SplitWhitespace(w + [' '] + t) == [w] + SplitWhitespace(t)
  {
    var s := w + [' '] + t;
    assert s[0] == w[0];
    if |w| == 1 {
      assert s[1] == ' ';
      assert s[1..] == [' '] + t;
      assert ([' '] + t)[1..] == t;
      assert w == [w[0]];
    } else {
      assert s[1..] == w[1..] + [' '] + t;
      assert s[1] == w[1];
      SplitWhitespaceAfterWord(w[1..], t);
      var rest := SplitWhitespace(s[1..]);
      assert rest[0] == w[1..] && rest[1..] == SplitWhitespace(t);
      assert [w[0]] + w[1..] == w;
    }
  }

  /** A word alone splits into itself. */
  lemma {:induction false} SplitWhitespaceWord(w: string)
    requires |w| > 0 && NoSpace(w)
    ensures SplitWhitespace(w) == [w]
  {
    if |w| > 1 {
      SplitWhitespaceWord(w[1..]);
      assert w[1..][0] == w[1];
      assert [w[0]] + w[1..] == w;
    } else {
      assert w == [w[0]];
      assert SplitWhitespace(w[1..]) == [];
    }
  }

  /** Words joined by single spaces split back into the same words. */
  lemma {:induction false} SplitWhitespaceJoin(words: seq<string>)
    requires forall i :: 0 <= i < |words| ==> |words[i]| > 0 && NoSpace(words[i])
    ensures SplitWhitespace(Join(' ', words)) == words
  {
    if |words| == 1 {
      SplitWhitespaceWord(words[0]);
    } else if |words| > 1 {
      SplitWhitespaceJoin(words[1..]);
      SplitWhitespaceAfterWord(words[0], Join(' ', words[1..]));
      assert [words[0]] + words[1..] == words;
    }
  }

  /** Text made of whitespace only has no words. */
  lemma {:induction false} SplitWhitespaceBlank(s: string)
    requires forall i :: 0 <= i < |s| ==> IsSpace(s[i])
    ensures SplitWhitespace(s) == []
  {
    if |s| > 0 {
      SplitWhitespaceBlank(s[1..]);
    }
  }

  // ---------------------------------------------------------------------
  // in, startswith, lower, format

  predicate StartsWith(s: string, prefix: string)
  {
    |prefix| <= |s| && s[..|prefix|] == prefix
  }

  /** `sub in s`. */
  predicate Contains(s: string, sub: string)
    decreases |s|
  {
    StartsWith(s, sub) || (|s| > 0 && Contains(s[1..], sub))
  }

  predicate OccursAt(s: string, sub: string, i: int)
  {
    0 <= i <= |s| - |sub| && s[i..i + |sub|] == sub
  }

  /** `sub in s` holds exactly when `sub` occurs at some position of `s`. */
  lemma {:induction false} ContainsAt(s: string, sub: string)
    ensures Contains(s, sub) <==> exists i :: OccursAt(s, sub, i)
  {
    if StartsWith(s, sub) {
      assert OccursAt(s, sub, 0);
    } else if |s| > 0 {
      ContainsAt(s[1..], sub);
      if Contains(s[1..], sub) {
        var i :| OccursAt(s[1..], sub, i);
        assert s[1..][i..i + |sub|] == s[i + 1..i + 1 + |sub|];
        assert OccursAt(s, sub, i + 1);
      }
      if exists i :: OccursAt(s, sub, i) {
        var i :| OccursAt(s, sub, i);
        if i > 0 {
          assert s[1..][i - 1..i - 1 + |sub|] == s[i..i + |sub|];
          assert OccursAt(s[1..], sub, i - 1);
        }
      }
    }
  }

  function LowerChar(c: char): char
  {
    if 'A' <= c <= 'Z' then (c as int + 32) as char else c
  }

  /** `s.lower()` on ASCII letters. */
  function Lower(s: string): (r: string)
    ensures |r| == |s|
    ensures forall i :: 0 <= i < |s| ==> r[i] == LowerChar(s[i])
  {
    seq(|s|, i requires 0 <= i < |s| => LowerChar(s[i]))
  }

  /** Lower-casing twice is lower-casing once. */
  lemma LowerIdempotent(s: string)
    ensures Lower(Lower(s)) == Lower(s)
  {
    assert forall i :: 0 <= i < |s| ==> LowerChar(LowerChar(s[i])) == LowerChar(s[i]);
  }

  /** `pattern.format(name=value)` for a pattern whose only replacement
      field is `{name}`: every occurrence of `field` becomes `value`. */
  function ReplaceAll(s: string, field: string, value: string): (r: string)
    requires |field| > 0
    ensures !Contains(s, field) ==> r == s
    decreases |s|
  {
    if |s| < |field| then s
    else if StartsWith(s, field) then value + ReplaceAll(s[|field|..], field, value)
    else [s[0]] + ReplaceAll(s[1..], field, value)
  }

  /** The field at the head of the text is replaced and the rest follows. */
  lemma ReplaceAllAtHead(field: string, value: string, t: string)
    requires |field| > 0
    ensures ReplaceAll(field + t, field, value) == value + ReplaceAll(t, field, value)
  {
    assert (field + t)[..|field|] == field;
    assert (field + t)[|field|..] == t;
  }

  /** A character at which the field does not start is copied. */
  lemma ReplaceAllPlainStep(s: string, field: string, value: string)
    requires |field| > 0 && |s| > 0 && !StartsWith(s, field)
    ensures ReplaceAll(s, field, value) == [s[0]] + ReplaceAll(s[1..], field, value)
  {
    if |s| < |field| {
      assert ReplaceAll(s[1..], field, value) == s[1..];
      assert [s[0]] + s[1..] == s;
    }
  }

  /** Text in which the field cannot start before position |p| passes that
      text through unchanged. */
  lemma {:induction false} ReplaceAllAfterPlain(p: string, field: string, value: string, t: string)
    requires |field| > 0
    requires forall i :: 0 <= i < |p| ==> !StartsWith((p + t)[i..], field)
    ensures ReplaceAll(p + t, field, value) == p + ReplaceAll(t, field, value)
  {
    if |p| > 0 {
      var s := p + t;
      assert s[0..] == s;
      ReplaceAllPlainStep(s, field, value);
      assert s[1..] == p[1..] + t;
      forall i | 0 <= i < |p[1..]|
        ensures !StartsWith((p[1..] + t)[i..], field)
      {
        assert (p[1..] + t)[i..] == s[i + 1..];
      }
      ReplaceAllAfterPlain(p[1..], field, value, t);
      calc {
        ReplaceAll(s, field, value);
        [s[0]] + ReplaceAll(s[1..], field, value);
        [p[0]] + (p[1..] + ReplaceAll(t, field, value));
        { assert [p[0]] + p[1..] == p; }
        p + ReplaceAll(t, field, value);
      }
    } else {
      assert p + t == t;
    }
  }

  /** Text shorter than `sub` cannot contain it. */
  lemma ShorterLacks(s: string, sub: string)
    requires |s| < |sub|
    ensures !Contains(s, sub)
  {
    ContainsAt(s, sub);
  }

  /** When the field occurs, the replacement value appears in the result. */
  lemma {:induction false} ReplaceAllInserts(s: string, field: string, value: string)
    requires |field| > 0
    ensures Contains(s, field) ==> Contains(ReplaceAll(s, field, value), value)
    decreases |s|
  {
    if |s| < |field| {
      ShorterLacks(s, field);
    } else if StartsWith(s, field) {
      var r := ReplaceAll(s, field, value);
      assert r[..|value|] == value;
    } else if Contains(s, field) {
      ReplaceAllInserts(s[1..], field, value);
      var r := ReplaceAll(s, field, value);
      assert r[1..] == ReplaceAll(s[1..], field, value);
    }
  }

  // ---------------------------------------------------------------------
  // int() of a string, str() of an int, int() of a float

  predicate IsDigit(c: char) { '0' <= c <= '9' }

  predicate AllDigits(s: string) { forall i :: 0 <= i < |s| ==> IsDigit(s[i]) }

  function DigitValue(c: char): nat requires IsDigit(c) { c as int - '0' as int }

  /** The number a run of decimal digits denotes. */
  function DigitsValue(s: string): nat
    requires AllDigits(s)
  {
    if |s| == 0 then 0 else DigitsValue(s[..|s| - 1]) * 10 + DigitValue(s[|s| - 1])
  }

  function DigitChar(d: nat): char requires d < 10 { ('0' as int + d) as char }

  /** `str(n)` for a natural number. */
  function NatToString(n: nat): (r: string)
    ensures |r| > 0 && AllDigits(r)
  {
    if n < 10 then [DigitChar(n)] else NatToString(n / 10) + [DigitChar(n % 10)]
  }

  /** `str(n)` for an int. */
  function IntToString(n: int): string
  {
    if n < 0 then "-" + NatToString(-n) else NatToString(n)
  }

  /** `s.strip()`: the text without leading and trailing whitespace. */
  function Strip(s: string): (r: string)
    ensures |r| > 0 ==> !IsSpace(r[0]) && !IsSpace(r[|r| - 1])
    decreases |s|
  {
    if |s| == 0 then s
    else if IsSpace(s[0]) then Strip(s[1..])
    else if IsSpace(s[|s| - 1]) then Strip(s[..|s| - 1])
    else s
  }

  /** `int(s)` for a string in base 10: surrounding whitespace, an optional
      sign and at least one digit; anything else raises ValueError (None). */
  function ParseInt(s: string): (r: Option<int>)
  {
    var t := Strip(s);
    if |t| > 0 && (t[0] == '+' || t[0] == '-') then
      var d := t[1..];
      var n: int := if |d| > 0 && AllDigits(d) then DigitsValue(d) else 0;
      if |d| > 0 && AllDigits(d) then Some(if t[0] == '-' then -n else n)
      else None
    else if |t| > 0 && AllDigits(t) then Some(DigitsValue(t))
    else None
  }

  lemma {:induction false} DigitsOfNat(n: nat)
    ensures DigitsValue(NatToString(n)) == n
  {
    if n >= 10 {
      DigitsOfNat(n / 10);
      var s := NatToString(n);
      assert s[..|s| - 1] == NatToString(n / 10);
    }
  }

  /** `int(str(n)) == n`. */
  lemma IntRoundTrip(n: int)
    ensures ParseInt(IntToString(n)) == Some(n)
  {
    var s := IntToString(n);
    assert Strip(s) == s;
    if n < 0 {
      assert s[1..] == NatToString(-n);
      DigitsOfNat(-n);
    } else {
      DigitsOfNat(n);
    }
  }

  /** A parse succeeds only on text whose stripped form is an optionally
      signed run of digits. */
  lemma ParseIntShape(s: string)
    ensures ParseInt(s).Some? <==>
      var t := Strip(s);
      (|t| > 0 && AllDigits(t)) ||
      (|t| > 1 && (t[0] == '+' || t[0] == '-') && AllDigits(t[1..]))
  {
  }

  /** `int(x)` for a float: truncation toward zero. */
  function Trunc(x: real): (r: int)
    ensures x >= 0.0 ==> r == x.Floor
    ensures x < 0.0 ==> r == -((-x).Floor)
  {
    if x >= 0.0 then x.Floor else -((-x).Floor)
  }

  /** Truncation toward zero never reverses the order of two floats. */
  lemma TruncMonotonic(x: real, y: real)
    requires x <= y
    ensures Trunc(x) <= Trunc(y)
  {
    if x < 0.0 && y < 0.0 {
      assert (-y).Floor <= (-x).Floor;
    }
  }
}
