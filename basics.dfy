// Shared vocabulary of the raw2meta model: optional values, the Python
// exceptions the ingestion code raises or catches, and the string helpers
// (substring search, `str.split` on one character) the other modules use.

module Basics {

  datatype Option<T> = None | Some(value: T)

  /** The exceptions of the ingestion code, by kind. */
  datatype Fault =
    | IndexError             // a list index past the end: too few name tokens, no path parts
    | ValueError             // int() of a non-number, min() of nothing, rejected trailer labels
    | DecodeError            // a staged unit that does not rebuild its record (KeyError, TypeError)
    | AttributeError         // no device name is a key of the device dictionary
    | NoFittingProjectFound  // a staged unit whose family has no project yet
    | HandlingCorruptFileError
    | HandlingEmptyFileError
    | SafedAsJsonTempFile    // legacy signal: the sample was staged, not written
    | IntegrityError         // duplicate primary key, seen only where it is not swallowed
    | DatabaseError          // any other sqlite3.Error: the database cannot be opened, a bad binding count
    | FileNotFound           // a staged unit that is not in the staging folder, a vanished file
    | OverflowError          // a date before the year 1
    | WriteError             // a file of the staging folder cannot be written

  datatype Result<T> = Ok(value: T) | Err(fault: Fault)

  predicate IsDigit(c: char) { '0' <= c <= '9' }

  /** `t` occurs in `s` at index `i`. */
  predicate OccursAt(s: string, t: string, i: int)
  {
    0 <= i && i + |t| <= |s| && s[i..i + |t|] == t
  }

  /** Python's `t in s` and `re.search(t, s)` for a pattern without metacharacters. */
  predicate Contains(s: string, t: string)
  {
    exists i :: 0 <= i <= |s| && OccursAt(s, t, i)
  }

  /** Python's `s.split(c)`: the pieces between occurrences of `c`, empty ones included. */
  function Split(s: string, c: char): (r: seq<string>)
    ensures |r| >= 1
    ensures forall i :: 0 <= i < |r| ==> c !in r[i]
  {
    if |s| == 0 then [""]
    else
      var rest := Split(s[1..], c);
      if s[0] == c then [""] + rest
      else [[s[0]] + rest[0]] + rest[1..]
  }

  /** Python's `c.join(ts)`. */
  function Join(ts: seq<string>, c: char): string
    requires |ts| >= 1
  {
    if |ts| == 1 then ts[0] else ts[0] + [c] + Join(ts[1..], c)
  }

  /** Joining the pieces back gives the original string. */
  lemma {:induction false} JoinSplit(s: string, c: char)
    ensures Join(Split(s, c), c) == s
    decreases |s|
  {
    if |s| > 0 {
      JoinSplit(s[1..], c);
      var rest := Split(s[1..], c);
      if s[0] != c && |rest| > 1 {
        assert Join(rest, c) == rest[0] + [c] + Join(rest[1..], c);
        assert Join([[s[0]] + rest[0]] + rest[1..], c)
            == [s[0]] + rest[0] + [c] + Join(rest[1..], c);
      }
    }
  }

  /** A piece without the separator splits to itself. */
  lemma {:induction false} SplitNoSep(a: string, c: char)
    requires c !in a
    ensures Split(a, c) == [a]
    decreases |a|
  {
    if |a| > 0 {
      SplitNoSep(a[1..], c);
      assert [a[0]] + a[1..] == a;
    }
  }

  /** Splitting `a c b`, with `c` not in `a`, gives `a` followed by the pieces of `b`. */
  lemma {:induction false} SplitAppend(a: string, c: char, b: string)
    requires c !in a
    ensures Split(a + [c] + b, c) == [a] + Split(b, c)
    decreases |a|
  {
    if |a| == 0 {
      assert a + [c] + b == [c] + b;
      assert ([c] + b)[1..] == b;
    } else {
      SplitAppend(a[1..], c, b);
      assert (a + [c] + b)[1..] == a[1..] + [c] + b;
      assert [a[0]] + a[1..] == a;
    }
  }

  /** Pieces without the separator are recovered by splitting their join. */
  lemma {:induction false} SplitJoin(ts: seq<string>, c: char)
    requires |ts| >= 1
    requires forall i :: 0 <= i < |ts| ==> c !in ts[i]
    ensures Split(Join(ts, c), c) == ts
    decreases |ts|
  {
    if |ts| == 1 {
      SplitNoSep(ts[0], c);
    } else {
      SplitJoin(ts[1..], c);
      SplitAppend(ts[0], c, Join(ts[1..], c));
      assert [ts[0]] + ts[1..] == ts;
    }
  }

  /** Python's `a < b` on strings: lexicographic by code point. */
  predicate StrLess(a: string, b: string)
  {
    if |a| == 0 then |b| > 0
    else if |b| == 0 then false
    else if a[0] != b[0] then a[0] < b[0]
    else StrLess(a[1..], b[1..])
  }

  lemma {:induction false} StrLessIrreflexive(a: string)
    ensures !StrLess(a, a)
    decreases |a|
  {
    if |a| > 0 {
      StrLessIrreflexive(a[1..]);
    }
  }

  lemma {:induction false} StrLessTransitive(a: string, b: string, c: string)
    requires StrLess(a, b) && StrLess(b, c)
    ensures StrLess(a, c)
    decreases |a|
  {
    if |a| > 0 && a[0] == b[0] && b[0] == c[0] {
      StrLessTransitive(a[1..], b[1..], c[1..]);
    }
  }

  /** Two different strings are ordered one way or the other. */
  lemma {:induction false} StrLessTotal(a: string, b: string)
    requires a != b
    ensures StrLess(a, b) || StrLess(b, a)
    decreases |a|
  {
    if |a| > 0 && |b| > 0 && a[0] == b[0] {
      assert a == [a[0]] + a[1..] && b == [b[0]] + b[1..];
      StrLessTotal(a[1..], b[1..]);
    }
  }

  predicate AllDigits(s: string)
  {
    forall i :: 0 <= i < |s| ==> IsDigit(s[i])
  }

  function Pow10(n: nat): (p: nat)
    ensures p >= 1
  {
    if n == 0 then 1 else 10 * Pow10(n - 1)
  }

  /** The number an ASCII digit string denotes, read from its first digit. */
  function DigitsValue(s: string): int
    requires AllDigits(s)
  {
    if |s| == 0 then 0
    else (s[0] as int - '0' as int) * Pow10(|s| - 1) + DigitsValue(s[1..])
  }

  lemma DigitStep(d: int, p: int, r: int)
    requires 0 <= d <= 9 && 0 <= r < p
    ensures 0 <= d * p + r < (d + 1) * p <= 10 * p
  {
    assert (d + 1) * p == d * p + p;
    assert (9 - d) * p >= 0;
    assert d * p >= 0;
  }

  lemma ScaleLess(x: int, y: int, p: int)
    requires x < y && p > 0
    ensures (x + 1) * p <= y * p
  {
    assert y * p - (x + 1) * p == (y - x - 1) * p;
  }

  /** A string of n digits denotes less than 10^n. */
  lemma {:induction false} DigitsValueBound(s: string)
    requires AllDigits(s)
    ensures 0 <= DigitsValue(s) < Pow10(|s|)
    decreases |s|
  {
    if |s| > 0 {
      DigitsValueBound(s[1..]);
      DigitStep(s[0] as int - '0' as int, Pow10(|s| - 1), DigitsValue(s[1..]));
    }
  }

  /** Appending a digit multiplies by ten and adds it. */
  lemma {:induction false} DigitsValueSnoc(s: string, c: char)
    requires AllDigits(s) && IsDigit(c)
    ensures AllDigits(s + [c])
    ensures DigitsValue(s + [c]) == DigitsValue(s) * 10 + (c as int - '0' as int)
    decreases |s|
  {
    assert forall i :: 0 <= i < |s + [c]| ==> IsDigit((s + [c])[i]);
    if |s| > 0 {
      DigitsValueSnoc(s[1..], c);
      assert (s + [c])[1..] == s[1..] + [c];
      var d := s[0] as int - '0' as int;
      var p := Pow10(|s| - 1);
      assert Pow10(|s|) == 10 * p;
      calc {
        DigitsValue(s + [c]);
        d * Pow10(|s|) + DigitsValue(s[1..] + [c]);
        d * (10 * p) + DigitsValue(s[1..]) * 10 + (c as int - '0' as int);
        { assert d * (10 * p) == (d * p) * 10; }
        (d * p + DigitsValue(s[1..])) * 10 + (c as int - '0' as int);
      }
    }
  }

  /** For digit strings of one length, string order is numeric order. */
  lemma {:induction false} DigitsOrder(a: string, b: string)
    requires AllDigits(a) && AllDigits(b) && |a| == |b|
    ensures StrLess(a, b) <==> DigitsValue(a) < DigitsValue(b)
    decreases |a|
  {
    if |a| > 0 {
      DigitsOrder(a[1..], b[1..]);
      var p := Pow10(|a| - 1);
      var da := a[0] as int - '0' as int;
      var db := b[0] as int - '0' as int;
      DigitsValueBound(a[1..]);
      DigitsValueBound(b[1..]);
      DigitStep(da, p, DigitsValue(a[1..]));
      DigitStep(db, p, DigitsValue(b[1..]));
      if da < db {
        ScaleLess(da, db, p);
      } else if db < da {
        ScaleLess(db, da, p);
      }
    }
  }
}
