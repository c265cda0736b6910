// SQLite's `LIKE` operator as the queries of the ingestion code use it:
// no ESCAPE clause, '%' matches any run of characters, '_' matches exactly
// one, and ASCII letters compare without regard to case.

module SqlLike {

  /** SQLite folds only the ASCII letters A-Z under LIKE. */
  function Lower(c: char): char
  {
    if 'A' <= c <= 'Z' then (c as int + 32) as char else c
  }

  predicate SameLetter(a: char, b: char)
  {
    Lower(a) == Lower(b)
  }

  /** `s LIKE p`. */
  predicate Like(s: string, p: string)
    decreases |s| + |p|
  {
    if |p| == 0 then |s| == 0
    else if p[0] == '%' then Like(s, p[1..]) || (|s| > 0 && Like(s[1..], p))
    else |s| > 0 && (p[0] == '_' || SameLetter(s[0], p[0])) && Like(s[1..], p[1..])
  }

  /** Every string is LIKE itself: a literal '%' or '_' is matched by the wildcard. */
  lemma {:induction false} LikeSelf(s: string)
    ensures Like(s, s)
    decreases |s|
  {
    if |s| > 0 {
      LikeSelf(s[1..]);
      if s[0] == '%' {
        assert Like(s[1..], s[1..]);
        assert Like(s[1..], s);
      }
    }
  }

  /** A trailing '%' accepts any string. */
  lemma {:induction false} LikeAnything(s: string)
    ensures Like(s, "%")
    decreases |s|
  {
    if |s| > 0 {
      LikeAnything(s[1..]);
    }
  }

  /** Matches compose: `a LIKE pa` and `b LIKE pb` give `a + b LIKE pa + pb`. */
  lemma {:induction false} LikeAppend(a: string, pa: string, b: string, pb: string)
    requires Like(a, pa) && Like(b, pb)
    ensures Like(a + b, pa + pb)
    decreases |a| + |pa|
  {
    if |pa| == 0 {
      assert a == [];
      assert a + b == b && pa + pb == pb;
    } else if pa[0] == '%' {
      assert (pa + pb)[0] == '%' && (pa + pb)[1..] == pa[1..] + pb;
      if Like(a, pa[1..]) {
        LikeAppend(a, pa[1..], b, pb);
      } else {
        LikeAppend(a[1..], pa, b, pb);
        assert (a + b)[1..] == a[1..] + b;
      }
    } else {
      LikeAppend(a[1..], pa[1..], b, pb);
      assert (a + b)[0] == a[0] && (a + b)[1..] == a[1..] + b;
      assert (pa + pb)[0] == pa[0] && (pa + pb)[1..] == pa[1..] + pb;
    }
  }

  /**
   * Without '%' a pattern is a template of fixed length: `s LIKE p` exactly
   * when both are equally long and every position is a '_' or the same letter.
   */
  lemma {:induction false} LikeWithoutPercent(s: string, p: string)
    requires '%' !in p
    ensures Like(s, p) <==> |s| == |p| && forall i :: 0 <= i < |p| ==> p[i] == '_' || SameLetter(s[i], p[i])
    decreases |p|
  {
    if |p| > 0 && |s| > 0 {
      LikeWithoutPercent(s[1..], p[1..]);
      if |s| == |p| && forall i :: 0 <= i < |p| ==> p[i] == '_' || SameLetter(s[i], p[i]) {
        assert forall i :: 0 <= i < |p[1..]| ==> p[1..][i] == '_' || SameLetter(s[1..][i], p[1..][i]) by {
          forall i | 0 <= i < |p[1..]|
            ensures p[1..][i] == '_' || SameLetter(s[1..][i], p[1..][i])
          {
            assert p[1..][i] == p[i + 1] && s[1..][i] == s[i + 1];
          }
        }
      }
      if Like(s, p) {
        forall i | 0 <= i < |p| ensures p[i] == '_' || SameLetter(s[i], p[i]) {
          if i > 0 {
            assert p[1..][i - 1] == p[i] && s[1..][i - 1] == s[i];
          }
        }
      }
    }
  }
}
