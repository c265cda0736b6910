// Name rules of the acquisition files and the helpers around them.
// A file is named Machine_Date_Initials_...; the first three tokens are the
// ProjectID, the second is the date token, and a "family" is every ProjectID
// that differs from it at most in the last two digits of the date token.

module Common {
  import opened Basics
  import opened Paths
  import opened SqlLike
  import opened Entities

  // ---------------------------------------------------------------------
  // The family of a date token

  /**
   * Where `re.sub("[0-9]{2}$", ...)` matches: the index of two digits that
   * end the token or stand just before a final newline; -1 when nothing matches.
   */
  function TwoDigitTail(t: string): (k: int)
    ensures k == -1 || (0 <= k && k + 2 <= |t| && IsDigit(t[k]) && IsDigit(t[k + 1]))
    ensures k >= 0 ==> t[k + 2..] == "" || t[k + 2..] == "\n"
  {
    if |t| >= 2 && IsDigit(t[|t| - 2]) && IsDigit(t[|t| - 1]) then |t| - 2
    else if |t| >= 3 && t[|t| - 1] == '\n' && IsDigit(t[|t| - 3]) && IsDigit(t[|t| - 2]) then
      assert t[|t| - 1..] == "\n";
      |t| - 3
    else -1
  }

  /** `re.sub("[0-9]{2}$", repl, t)`. */
  function SubTail(t: string, repl: string): string
  {
    var k := TwoDigitTail(t);
    if k < 0 then t else t[..k] + repl + t[k + 2..]
  }

  /** An item of a compiled family regex: a literal character or `[0-9]`. */
  datatype PatItem = Lit(c: char) | AnyDigit

  predicate ItemMatches(item: PatItem, c: char)
  {
    match item
    case Lit(d) => c == d
    case AnyDigit => IsDigit(c)
  }

  function Literal(s: string): (r: seq<PatItem>)
    ensures |r| == |s| && forall i :: 0 <= i < |s| ==> r[i] == Lit(s[i])
  {
    seq(|s|, i requires 0 <= i < |s| => Lit(s[i]))
  }

  predicate MatchesAt(pat: seq<PatItem>, s: string, i: int)
  {
    0 <= i && i + |pat| <= |s| && forall j :: 0 <= j < |pat| ==> ItemMatches(pat[j], s[i + j])
  }

  /** `re.search(pat, s)` for a pattern of literals and `[0-9]`. */
  predicate Search(pat: seq<PatItem>, s: string)
  {
    exists i :: 0 <= i <= |s| && MatchesAt(pat, s, i)
  }

  // ---------------------------------------------------------------------
  // SplitProjectName

  /** The four results of SplitProjectName. */
  datatype ProjectName = ProjectName(
    projectId: string,
    regex: seq<PatItem>,      // ProjectID_regex: the family as a Python regex
    sqlPattern: string,       // ProjectID_regex_sql: the family as a LIKE pattern
    date: string)             // ProjectID_Date

  /** The name with its extension and then its directory removed. */
  function Stem(name: string): string
  {
    Basename(SplitExt(name).0)
  }

  function FamilyRegex(t0: string, t1: string, t2: string): seq<PatItem>
  {
    var k := TwoDigitTail(t1);
    if k < 0 then Literal(t0 + "_" + t1 + "_" + t2)
    else Literal(t0 + "_" + t1[..k]) + [AnyDigit, AnyDigit] + Literal(t1[k + 2..] + "_" + t2)
  }

  function FamilyPattern(t0: string, t1: string, t2: string): string
  {
    t0 + "_" + SubTail(t1, "__") + "_" + t2 + "%"
  }

  /** SplitProjectName: IndexError when the stem has fewer than three '_'-tokens. */
  function SplitProjectName(name: string): (r: Result<ProjectName>)
    ensures r.Err? ==> r.fault == IndexError
  {
    var ts := Split(Stem(name), '_');
    if |ts| < 3 then Err(IndexError)
    else Ok(ProjectName(ts[0] + "_" + ts[1] + "_" + ts[2],
                        FamilyRegex(ts[0], ts[1], ts[2]),
                        FamilyPattern(ts[0], ts[1], ts[2]),
                        ts[1]))
  }

  /**
   * The split succeeds exactly for stems with at least three tokens; the
   * ProjectID consists of the first three tokens, and the date is the second.
   */
  lemma SplitProjectNameTokens(name: string)
    ensures var ts := Split(Stem(name), '_');
      && (SplitProjectName(name).Ok? <==> |ts| >= 3)
      && (|ts| >= 3 ==>
            && Split(SplitProjectName(name).value.projectId, '_') == ts[..3]
            && SplitProjectName(name).value.date == ts[1]
            && '/' !in SplitProjectName(name).value.projectId)
  {
    var ts := Split(Stem(name), '_');
    if |ts| >= 3 {
      var pid := ts[0] + "_" + ts[1] + "_" + ts[2];
      assert pid == ts[0] + ['_'] + (ts[1] + ['_'] + ts[2]);
      SplitAppend(ts[0], '_', ts[1] + ['_'] + ts[2]);
      SplitAppend(ts[1], '_', ts[2]);
      SplitNoSep(ts[2], '_');
      assert ts[..3] == [ts[0], ts[1], ts[2]];
      JoinSplit(Stem(name), '_');
      NoSlashInTokens(Stem(name), ts);
    }
  }

  /** Tokens of a string without '/' contain no '/'. */
  lemma {:induction false} NoSlashInTokens(s: string, ts: seq<string>)
    requires '/' !in s && ts == Split(s, '_')
    ensures forall i :: 0 <= i < |ts| ==> '/' !in ts[i]
    decreases |s|
  {
    if |s| > 0 {
      NoSlashInTokens(s[1..], Split(s[1..], '_'));
    }
  }

  /** The family pattern accepts the date token with any two digits in the matched place. */
  lemma SubTailLike(t: string, u: string)
    requires |u| == |t|
    requires var k := TwoDigitTail(t); k >= 0 ==> u[..k] == t[..k] && u[k + 2..] == t[k + 2..]
    requires TwoDigitTail(t) < 0 ==> u == t
    ensures Like(u, SubTail(t, "__"))
  {
    var k := TwoDigitTail(t);
    if k < 0 {
      LikeSelf(t);
    } else {
      LikeSelf(t[..k]);
      LikeSelf(t[k + 2..]);
      assert Like(u[k..k + 2], "__");
      LikeAppend(u[..k], t[..k], u[k..k + 2], "__");
      assert u[..k] + u[k..k + 2] == u[..k + 2];
      LikeAppend(u[..k + 2], t[..k] + "__", u[k + 2..], t[k + 2..]);
      assert u[..k + 2] + u[k + 2..] == u;
    }
  }

  /**
   * Every ProjectID is LIKE its own family pattern, and so is every ProjectID
   * whose date token differs from it only in the two digits the pattern opens.
   */
  lemma FamilyPatternAcceptsSiblings(name: string, t0: string, t1': string, t2: string)
    requires SplitProjectName(name).Ok?
    requires var ts := Split(Stem(name), '_'); t0 == ts[0] && t2 == ts[2]
    requires var t1 := Split(Stem(name), '_')[1];
      |t1'| == |t1| &&
      (var k := TwoDigitTail(t1); k >= 0 ==> t1'[..k] == t1[..k] && t1'[k + 2..] == t1[k + 2..]) &&
      (TwoDigitTail(t1) < 0 ==> t1' == t1)
    ensures Like(t0 + "_" + t1' + "_" + t2, SplitProjectName(name).value.sqlPattern)
  {
    var ts := Split(Stem(name), '_');
    assert SplitProjectName(name).value.sqlPattern == FamilyPattern(t0, ts[1], t2);
    TokenSiblingLike(t0, ts[1], t1', t2);
  }

  lemma TokenSiblingLike(t0: string, t1: string, t1': string, t2: string)
    requires |t1'| == |t1|
    requires var k := TwoDigitTail(t1); k >= 0 ==> t1'[..k] == t1[..k] && t1'[k + 2..] == t1[k + 2..]
    requires TwoDigitTail(t1) < 0 ==> t1' == t1
    ensures Like(t0 + "_" + t1' + "_" + t2, FamilyPattern(t0, t1, t2))
  {
    var head := t0 + "_";
    var tail := "_" + t2;
    var mid := SubTail(t1, "__");
    LikeSelf(head);
    SubTailLike(t1, t1');
    LikeAppend(head, head, t1', mid);
    LikeSelf(tail);
    LikeAppend(head + t1', head + mid, tail, tail);
    LikeAnything("");
    LikeAppend(head + t1' + tail, head + mid + tail, "", "%");
    assert head + t1' + tail + "" == t0 + "_" + t1' + "_" + t2;
    assert head + mid + tail + "%" == FamilyPattern(t0, t1, t2);
  }

  /** Its own ProjectID is in the family a name's pattern describes. */
  lemma ProjectIdInOwnFamily(name: string)
    requires SplitProjectName(name).Ok?
    ensures Like(SplitProjectName(name).value.projectId, SplitProjectName(name).value.sqlPattern)
  {
    var ts := Split(Stem(name), '_');
    FamilyPatternAcceptsSiblings(name, ts[0], ts[1], ts[2]);
  }

  /** A name that starts with three tokens and then ends or continues with '_' splits to them first. */
  lemma FirstThreeTokens(t0: string, t1: string, t2: string, rest: string)
    requires '_' !in t0 && '_' !in t1 && '_' !in t2
    requires rest == "" || rest[0] == '_'
    ensures var ts := Split(t0 + "_" + t1 + "_" + t2 + rest, '_');
      |ts| >= 3 && ts[..3] == [t0, t1, t2]
  {
    var s := t0 + "_" + t1 + "_" + t2 + rest;
    assert s == t0 + ['_'] + (t1 + ['_'] + (t2 + rest));
    SplitAppend(t0, '_', t1 + ['_'] + (t2 + rest));
    SplitAppend(t1, '_', t2 + rest);
    if rest == "" {
      assert t2 + rest == t2;
      SplitNoSep(t2, '_');
    } else {
      assert t2 + rest == t2 + ['_'] + rest[1..];
      SplitAppend(t2, '_', rest[1..]);
    }
  }

  /** The ProjectID built from three clean tokens has no '.' or '/' and a '_' after the first token. */
  lemma CleanProjectId(t0: string, t1: string, t2: string)
    requires '.' !in t0 && '.' !in t1 && '.' !in t2
    requires '/' !in t0 && '/' !in t1 && '/' !in t2
    ensures var pid := t0 + "_" + t1 + "_" + t2;
      '.' !in pid && '/' !in pid && |pid| > |t0| && pid[|t0|] == '_'
  {
    var pid := t0 + "_" + t1 + "_" + t2;
    forall i | 0 <= i < |pid| ensures pid[i] != '.' && pid[i] != '/' {
      if i < |t0| { assert pid[i] == t0[i]; }
      else if i == |t0| { }
      else if i < |t0| + 1 + |t1| { assert pid[i] == t1[i - |t0| - 1]; }
      else if i == |t0| + 1 + |t1| { }
      else { assert pid[i] == t2[i - |t0| - 2 - |t1|]; }
    }
  }

  /** Re-splitting `ProjectID` itself. */
  lemma ReSplitProjectId(t0: string, t1: string, t2: string)
    requires '_' !in t0 && '_' !in t1 && '_' !in t2
    requires '.' !in t0 && '.' !in t1 && '.' !in t2
    requires '/' !in t0 && '/' !in t1 && '/' !in t2
    ensures var pid := t0 + "_" + t1 + "_" + t2;
      SplitProjectName(pid).Ok? && SplitProjectName(pid).value.projectId == pid
      && SplitProjectName(pid).value.date == t1
  {
    var pid := t0 + "_" + t1 + "_" + t2;
    CleanProjectId(t0, t1, t2);
    NoDotNoExt(pid);
    FirstThreeTokens(t0, t1, t2, "");
    assert pid + "" == pid;
    SplitOfTokens(pid, t0, t1, t2);
  }

  /** Re-splitting the staging name `ProjectID.json`. */
  lemma ReSplitStagingName(t0: string, t1: string, t2: string)
    requires '_' !in t0 && '_' !in t1 && '_' !in t2
    requires '.' !in t0 && '.' !in t1 && '.' !in t2
    requires '/' !in t0 && '/' !in t1 && '/' !in t2
    ensures var pid := t0 + "_" + t1 + "_" + t2;
      SplitProjectName(pid + ".json").Ok? && SplitProjectName(pid + ".json").value.projectId == pid
      && SplitProjectName(pid + ".json").value.date == t1
  {
    var pid := t0 + "_" + t1 + "_" + t2;
    CleanProjectId(t0, t1, t2);
    assert pid[|t0|] != '.';
    AppendedExt(pid, "json");
    assert pid + "." + "json" == pid + ".json";
    assert Stem(pid + ".json") == pid;
    FirstThreeTokens(t0, t1, t2, "");
    assert pid + "" == pid;
    SplitOfTokens(pid + ".json", t0, t1, t2);
  }

  /** Re-splitting the collision name `ProjectID__Sample.json`. */
  lemma ReSplitCollisionName(t0: string, t1: string, t2: string, sample: string)
    requires '_' !in t0 && '_' !in t1 && '_' !in t2
    requires '.' !in t0 && '.' !in t1 && '.' !in t2
    requires '/' !in t0 && '/' !in t1 && '/' !in t2 && '/' !in sample
    ensures var n := t0 + "_" + t1 + "_" + t2 + "__" + sample + ".json";
      SplitProjectName(n).Ok? && SplitProjectName(n).value.projectId == t0 + "_" + t1 + "_" + t2
      && SplitProjectName(n).value.date == t1
  {
    var long := t0 + "_" + t1 + "_" + t2 + "__" + sample;
    CleanProjectId(t0, t1, t2);
    CollisionStem(t0 + "_" + t1 + "_" + t2, sample, |t0|);
    CollisionTokens(t0, t1, t2, sample);
    SplitOfTokens(long + ".json", t0, t1, t2);
  }

  /** The collision name starts with the three tokens. */
  lemma CollisionTokens(t0: string, t1: string, t2: string, sample: string)
    requires '_' !in t0 && '_' !in t1 && '_' !in t2
    ensures var ts := Split(t0 + "_" + t1 + "_" + t2 + "__" + sample, '_');
      |ts| >= 3 && ts[..3] == [t0, t1, t2]
  {
    assert t0 + "_" + t1 + "_" + t2 + "__" + sample == t0 + "_" + t1 + "_" + t2 + ("__" + sample);
    FirstThreeTokens(t0, t1, t2, "__" + sample);
  }

  /** A name whose stem starts with the tokens t0, t1, t2 splits to them. */
  lemma SplitOfTokens(name: string, t0: string, t1: string, t2: string)
    requires var ts := Split(Stem(name), '_'); |ts| >= 3 && ts[..3] == [t0, t1, t2]
    ensures SplitProjectName(name)
      == Ok(ProjectName(t0 + "_" + t1 + "_" + t2, FamilyRegex(t0, t1, t2), FamilyPattern(t0, t1, t2), t1))
  {
    var ts := Split(Stem(name), '_');
    assert ts[0] == ts[..3][0] && ts[1] == ts[..3][1] && ts[2] == ts[..3][2];
  }

  /** The stem of `pid__sample.json` is `pid__sample`. */
  lemma CollisionStem(pid: string, sample: string, k: nat)
    requires '/' !in pid && '/' !in sample && k < |pid| && pid[k] == '_'
    ensures Stem(pid + "__" + sample + ".json") == pid + "__" + sample
  {
    var long := pid + "__" + sample;
    assert long[k] == '_';
    assert '/' !in long by {
      forall i | 0 <= i < |long| ensures long[i] != '/' {
        if i < |pid| { assert long[i] == pid[i]; }
        else if i >= |pid| + 2 { assert long[i] == sample[i - |pid| - 2]; }
      }
    }
    AppendedExt(long, "json");
    assert long + "." + "json" == pid + "__" + sample + ".json";
  }

  /**
   * Re-splitting a derived ProjectID, its staging name `ProjectID.json`, or
   * the collision name `ProjectID__Sample.json` gives back the same ProjectID
   * and date, provided the three tokens contain no '.'.
   */
  lemma ReSplitKeepsProjectId(name: string, sample: string)
    requires SplitProjectName(name).Ok?
    requires var ts := Split(Stem(name), '_'); '.' !in ts[0] && '.' !in ts[1] && '.' !in ts[2]
    requires '/' !in sample
    ensures var pn := SplitProjectName(name).value;
      var collision := pn.projectId + "__" + sample + ".json";
      && SplitProjectName(pn.projectId).Ok?
      && SplitProjectName(pn.projectId).value.projectId == pn.projectId
      && SplitProjectName(pn.projectId).value.date == pn.date
      && SplitProjectName(pn.projectId + ".json").Ok?
      && SplitProjectName(pn.projectId + ".json").value.projectId == pn.projectId
      && SplitProjectName(pn.projectId + ".json").value.date == pn.date
      && SplitProjectName(collision).Ok?
      && SplitProjectName(collision).value.projectId == pn.projectId
      && SplitProjectName(collision).value.date == pn.date
  {
    var ts := Split(Stem(name), '_');
    NoSlashInTokens(Stem(name), ts);
    ReSplitProjectId(ts[0], ts[1], ts[2]);
    ReSplitStagingName(ts[0], ts[1], ts[2]);
    ReSplitCollisionName(ts[0], ts[1], ts[2], sample);
  }

  /**
   * The family regex finds every name that starts with a family member whose
   * date token carries digits in the two places the regex opens.
   */
  lemma FamilyRegexFindsSibling(t0: string, t1: string, t1': string, t2: string, rest: string)
    requires |t1'| == |t1|
    requires var k := TwoDigitTail(t1);
      k >= 0 ==> t1'[..k] == t1[..k] && t1'[k + 2..] == t1[k + 2..] && IsDigit(t1'[k]) && IsDigit(t1'[k + 1])
    requires TwoDigitTail(t1) < 0 ==> t1' == t1
    ensures MatchesAt(FamilyRegex(t0, t1, t2), t0 + "_" + t1' + "_" + t2 + rest, 0)
    ensures Search(FamilyRegex(t0, t1, t2), t0 + "_" + t1' + "_" + t2 + rest)
  {
    var k := TwoDigitTail(t1);
    var s := t0 + "_" + t1' + "_" + t2 + rest;
    var pat := FamilyRegex(t0, t1, t2);
    if k < 0 {
      assert t0 + "_" + t1 + "_" + t2 == s[..|pat|];
    } else {
      var a := t0 + "_" + t1[..k];
      var b := t1[k + 2..] + "_" + t2;
      assert s == a + [t1'[k], t1'[k + 1]] + b + rest by {
        assert t1' == t1[..k] + [t1'[k], t1'[k + 1]] + t1[k + 2..];
      }
      forall j | 0 <= j < |pat| ensures ItemMatches(pat[j], s[j]) {
        if j < |a| {
          assert pat[j] == Lit(a[j]) && s[j] == a[j];
        } else if j < |a| + 2 {
          assert pat[j] == AnyDigit;
        } else {
          assert pat[j] == Lit(b[j - |a| - 2]) && s[j] == b[j - |a| - 2];
        }
      }
    }
    assert MatchesAt(pat, s, 0);
  }

  // ---------------------------------------------------------------------
  // get_ProjectID_withClosestDate

  /** Python's `int(s)` for an optionally signed run of ASCII digits; None where it raises. */
  function ParseInt(s: string): Option<int>
  {
    if |s| > 1 && (s[0] == '+' || s[0] == '-') && AllDigits(s[1..]) then
      Some(if s[0] == '-' then -DigitsValue(s[1..]) else DigitsValue(s[1..]))
    else if |s| > 0 && AllDigits(s) then Some(DigitsValue(s))
    else None
  }

  /** `Dist.index(min(Dist))`: the first index holding the smallest value. */
  function FirstMinIndex(xs: seq<int>): (k: nat)
    requires |xs| > 0
    ensures k < |xs|
    ensures forall j :: 0 <= j < |xs| ==> xs[k] <= xs[j]
    ensures forall j :: 0 <= j < k ==> xs[j] > xs[k]
  {
    if |xs| == 1 then 0
    else
      var k := FirstMinIndex(xs[1..]);
      assert forall j :: 1 <= j < |xs| ==> xs[j] == xs[1..][j - 1];
      if xs[0] <= xs[k + 1] then 0 else k + 1
  }

  /** Only one index is both a minimum and preceded by larger values only. */
  lemma FirstMinUnique(xs: seq<int>, k: nat)
    requires k < |xs|
    requires forall j :: 0 <= j < |xs| ==> xs[k] <= xs[j]
    requires forall j :: 0 <= j < k ==> xs[j] > xs[k]
    ensures k == FirstMinIndex(xs)
  {
    var m := FirstMinIndex(xs);
    assert xs[k] <= xs[m] && xs[m] <= xs[k];
  }

  predicate DatesParse(rows: seq<ProjectEntry>)
  {
    forall i :: 0 <= i < |rows| ==> ParseInt(rows[i].projectDate).Some?
  }

  /** The date codes `int(ProjectID_Date)` of the family rows. */
  function DateCodes(rows: seq<ProjectEntry>): (cs: seq<int>)
    requires DatesParse(rows)
    ensures |cs| == |rows| && forall i :: 0 <= i < |rows| ==> cs[i] == ParseInt(rows[i].projectDate).value
  {
    seq(|rows|, i requires 0 <= i < |rows| => ParseInt(rows[i].projectDate).value)
  }

  /**
   * get_ProjectID_withClosestDate: the ProjectID of the first row minimising
   * `int(date) - int(query)`. ValueError for an empty family (min of
   * nothing) or a date that int() rejects.
   */
  function ClosestProject(rows: seq<ProjectEntry>, query: string): (r: Result<string>)
    ensures r.Err? ==> r.fault == ValueError
  {
    if |rows| == 0 || !DatesParse(rows) || ParseInt(query).None? then Err(ValueError)
    else
      var q := ParseInt(query).value;
      var dist := seq(|rows|, i requires 0 <= i < |rows| => ParseInt(rows[i].projectDate).value - q);
      Ok(rows[FirstMinIndex(dist)].projectId)
  }

  /**
   * The signed difference makes the query irrelevant: the winner is the first
   * row with the smallest date code, the earliest project of the family,
   * whatever date is asked about.
   */
  lemma ClosestIsEarliest(rows: seq<ProjectEntry>, query: string)
    ensures ClosestProject(rows, query).Ok? <==> |rows| > 0 && DatesParse(rows) && ParseInt(query).Some?
    ensures ClosestProject(rows, query).Ok? ==>
      ClosestProject(rows, query).value == rows[FirstMinIndex(DateCodes(rows))].projectId
  {
    if |rows| > 0 && DatesParse(rows) && ParseInt(query).Some? {
      var q := ParseInt(query).value;
      var cs := DateCodes(rows);
      var dist := seq(|rows|, i requires 0 <= i < |rows| => ParseInt(rows[i].projectDate).value - q);
      var k := FirstMinIndex(cs);
      assert forall j :: 0 <= j < |dist| ==> dist[j] == cs[j] - q;
      FirstMinUnique(dist, k);
    }
  }

  /** Two queries that int() accepts always pick the same project. */
  lemma ClosestIgnoresQuery(rows: seq<ProjectEntry>, q1: string, q2: string)
    requires ParseInt(q1).Some? && ParseInt(q2).Some?
    ensures ClosestProject(rows, q1) == ClosestProject(rows, q2)
  {
    ClosestIsEarliest(rows, q1);
    ClosestIsEarliest(rows, q2);
  }

  function Distance(a: int, b: int): nat
  {
    if a >= b then a - b else b - a
  }

  /**
   * The choice the closest-date rule describes: the first row whose date code
   * is nearest to the query's, in absolute distance. Same errors as above.
   */
  function NearestProject(rows: seq<ProjectEntry>, query: string): (r: Result<string>)
    ensures r.Err? ==> r.fault == ValueError
    ensures r.Ok? <==> |rows| > 0 && DatesParse(rows) && ParseInt(query).Some?
  {
    if |rows| == 0 || !DatesParse(rows) || ParseInt(query).None? then Err(ValueError)
    else
      var q := ParseInt(query).value;
      var dist := seq(|rows|, i requires 0 <= i < |rows| => Distance(ParseInt(rows[i].projectDate).value, q) as int);
      Ok(rows[FirstMinIndex(dist)].projectId)
  }

  /** The chosen project's date is at least as near to the query as every other row's, and strictly nearer than the rows before it. */
  lemma NearestIsClosest(rows: seq<ProjectEntry>, query: string)
    requires NearestProject(rows, query).Ok?
    ensures exists k :: (0 <= k < |rows| && NearestProject(rows, query).value == rows[k].projectId
      && (forall j :: 0 <= j < |rows| ==>
            Distance(DateCodes(rows)[k], ParseInt(query).value) <= Distance(DateCodes(rows)[j], ParseInt(query).value))
      && (forall j :: 0 <= j < k ==>
            Distance(DateCodes(rows)[k], ParseInt(query).value) < Distance(DateCodes(rows)[j], ParseInt(query).value)))
  {
    var q := ParseInt(query).value;
    var cs := DateCodes(rows);
    var dist := seq(|rows|, i requires 0 <= i < |rows| => Distance(ParseInt(rows[i].projectDate).value, q) as int);
    var k := FirstMinIndex(dist);
    assert forall j :: 0 <= j < |rows| ==> dist[j] == Distance(cs[j], q);
  }

  /**
   * With the signed difference the earliest of two projects wins even when
   * the later one is nearer to the query.
   */
  lemma SignedDifferencePicksEarliest(rows: seq<ProjectEntry>, query: string)
    requires |rows| == 2 && DatesParse(rows) && ParseInt(query).Some?
    requires DateCodes(rows)[0] < DateCodes(rows)[1]
    requires Distance(DateCodes(rows)[1], ParseInt(query).value) < Distance(DateCodes(rows)[0], ParseInt(query).value)
    ensures ClosestProject(rows, query) == Ok(rows[0].projectId)
    ensures NearestProject(rows, query) == Ok(rows[1].projectId)
  {
    var q := ParseInt(query).value;
    var cs := DateCodes(rows);
    var signed := seq(|rows|, i requires 0 <= i < |rows| => ParseInt(rows[i].projectDate).value - q);
    assert signed == [cs[0] - q, cs[1] - q];
    FirstMinUnique(signed, 0);
    var near := seq(|rows|, i requires 0 <= i < |rows| => Distance(ParseInt(rows[i].projectDate).value, q) as int);
    assert near == [Distance(cs[0], q), Distance(cs[1], q)];
    FirstMinUnique(near, 1);
  }

  /** An instance: dates "1" and "9", asked about "8". */
  lemma SignedDifferenceExample()
    ensures ClosestProject([ProjectEntry("A", "1", "", "", "", "", "", ""), ProjectEntry("B", "9", "", "", "", "", "", "")], "8") == Ok("A")
    ensures NearestProject([ProjectEntry("A", "1", "", "", "", "", "", ""), ProjectEntry("B", "9", "", "", "", "", "", "")], "8") == Ok("B")
  {
    var rows := [ProjectEntry("A", "1", "", "", "", "", "", ""), ProjectEntry("B", "9", "", "", "", "", "", "")];
    assert ParseInt("1") == Some(1) && ParseInt("9") == Some(9) && ParseInt("8") == Some(8);
    assert DatesParse(rows);
    assert DateCodes(rows) == [1, 9];
    SignedDifferencePicksEarliest(rows, "8");
  }

  // ---------------------------------------------------------------------
  // GetDirectoriesToObserve

  predicate IsLeapYear(y: int)
  {
    y % 4 == 0 && (y % 100 != 0 || y % 400 == 0)
  }

  function DaysInMonth(y: int, m: int): (n: int)
    requires 1 <= m <= 12
    ensures 28 <= n <= 31
  {
    if m == 2 then (if IsLeapYear(y) then 29 else 28)
    else if m == 4 || m == 6 || m == 9 || m == 11 then 30
    else 31
  }

  /** A calendar date, the value `date.today()` returns. */
  datatype Day = Day(year: int, month: int, day: int)

  predicate ValidDay(d: Day)
  {
    1 <= d.year <= 9999 && 1 <= d.month <= 12 && 1 <= d.day <= DaysInMonth(d.year, d.month)
  }

  /** Months counted from January of year 0. */
  function MonthIndex(y: int, m: int): int
  {
    y * 12 + (m - 1)
  }

  /** The year and month of `date + relativedelta(months=k)`. */
  function ShiftMonth(y: int, m: int, k: int): (r: (int, int))
    ensures 1 <= r.1 <= 12 && MonthIndex(r.0, r.1) == MonthIndex(y, m) + k
  {
    var i := MonthIndex(y, m) + k;
    (i / 12, i % 12 + 1)
  }

  function DigitChar(d: int): char
    requires 0 <= d <= 9
  {
    ('0' as int + d) as char
  }

  /** The decimal digits of n. */
  function Decimal(n: nat): (s: string)
    ensures |s| >= 1 && AllDigits(s)
  {
    if n < 10 then [DigitChar(n)] else Decimal(n / 10) + [DigitChar(n % 10)]
  }

  /** n in decimal, left-padded with '0' to `width` characters (strftime's %Y, %m). */
  function Padded(n: nat, width: nat): (s: string)
    ensures AllDigits(s)
  {
    var ds := Decimal(n);
    if |ds| >= width then ds else seq(width - |ds|, _ => '0') + ds
  }

  /** `strftime("%Y%m")`. */
  function MonthName(ym: (int, int)): string
    requires ym.0 >= 0 && ym.1 >= 0
  {
    Padded(ym.0, 4) + Padded(ym.1, 2)
  }

  /** The month offsets of the window: two back, the current one, one ahead. */
  const WindowOffsets: seq<int> := [-2, -1, 0, 1]

  /** Seconds in a day, the factor `total_seconds()` applies to a day count. */
  const SecondsPerDay: int := 86400

  /**
   * GetDirectoriesToObserve for the date `today`: the directories
   * `root/YYYYMM` of the window months, and the seconds until the first of
   * next month. ValueError when a window month leaves the years 1..9999.
   */
  function DirectoriesToObserve(root: string, today: Day): (r: Result<(seq<string>, int)>)
    requires ValidDay(today)
    ensures r.Err? ==> r.fault == ValueError
  {
    if exists k :: k in WindowOffsets && !(1 <= ShiftMonth(today.year, today.month, k).0 <= 9999) then
      Err(ValueError)
    else
      var dirs := seq(4, i requires 0 <= i < 4 =>
                        PathJoin(root, MonthName(ShiftMonth(today.year, today.month, WindowOffsets[i]))));
      Ok((dirs, (DaysInMonth(today.year, today.month) - today.day + 1) * SecondsPerDay))
  }

  /** The decimal digits read back as n. */
  lemma {:induction false} DecimalValue(n: nat)
    ensures DigitsValue(Decimal(n)) == n
    decreases n
  {
    if n >= 10 {
      DecimalValue(n / 10);
      DigitsValueSnoc(Decimal(n / 10), DigitChar(n % 10));
    }
  }

  /** A number below 10^w has at most w digits. */
  lemma {:induction false} DecimalLength(n: nat, w: nat)
    requires 1 <= w && n < Pow10(w)
    ensures |Decimal(n)| <= w
    decreases w
  {
    if n >= 10 {
      DecimalLength(n / 10, w - 1);
    }
  }

  /** Leading zeros do not change the value. */
  lemma {:induction false} LeadingZeros(z: nat, s: string)
    requires AllDigits(s)
    ensures AllDigits(seq(z, _ => '0') + s)
    ensures DigitsValue(seq(z, _ => '0') + s) == DigitsValue(s)
    decreases z
  {
    var t := seq(z, _ => '0') + s;
    assert forall i :: 0 <= i < |t| ==> IsDigit(t[i]);
    if z > 0 {
      LeadingZeros(z - 1, s);
      assert t[1..] == seq(z - 1, _ => '0') + s;
    } else {
      assert t == s;
    }
  }

  /** A number below 10^w is written with exactly w digits and reads back as itself. */
  lemma PaddedReadsBack(n: nat, w: nat)
    requires 1 <= w && n < Pow10(w)
    ensures |Padded(n, w)| == w && DigitsValue(Padded(n, w)) == n
  {
    DecimalValue(n);
    DecimalLength(n, w);
    if |Decimal(n)| < w {
      LeadingZeros(w - |Decimal(n)|, Decimal(n));
    }
  }

  /** A directory name of six digits that reads back as its year and month. */
  predicate ReadsBack(ym: (int, int))
    requires ym.0 >= 0 && ym.1 >= 0
  {
    var name := MonthName(ym);
    |name| == 6 && DigitsValue(name[..4]) == ym.0 && DigitsValue(name[4..]) == ym.1
  }

  lemma MonthNameReadsBack(ym: (int, int))
    requires 1 <= ym.0 <= 9999 && 1 <= ym.1 <= 12
    ensures ReadsBack(ym)
  {
    assert Pow10(4) == 10000 && Pow10(2) == 100;
    PaddedReadsBack(ym.0, 4);
    PaddedReadsBack(ym.1, 2);
    var name := MonthName(ym);
    assert name[..4] == Padded(ym.0, 4) && name[4..] == Padded(ym.1, 2);
  }

  /** The window fails only at the two ends of the calendar. */
  lemma WindowFailsOnlyAtCalendarEnds(root: string, today: Day)
    requires ValidDay(today)
    ensures DirectoriesToObserve(root, today).Err? <==>
      (today.year == 1 && today.month <= 2) || (today.year == 9999 && today.month == 12)
  {
    var y0, m0 := today.year, today.month;
    if exists k :: k in WindowOffsets && !(1 <= ShiftMonth(y0, m0, k).0 <= 9999) {
      var k :| k in WindowOffsets && !(1 <= ShiftMonth(y0, m0, k).0 <= 9999);
      ShiftYear(y0, m0, k);
    } else {
      assert WindowOffsets[0] == -2 && WindowOffsets[3] == 1;
      ShiftYear(y0, m0, -2);
      ShiftYear(y0, m0, 1);
    }
  }

  /** A shift by at most two months changes the year by at most one. */
  lemma ShiftYear(y: int, m: int, k: int)
    requires 1 <= m <= 12 && -2 <= k <= 1
    ensures ShiftMonth(y, m, k).0 == y + (if m + k < 1 then -1 else if m + k > 12 then 1 else 0)
  {
  }

  /**
   * Otherwise the window holds four directories `root/YYYYMM`, for the months
   * two back to one ahead in order (the month index, and with it the year,
   * rolls over past December and January), each named by six digits that
   * read back as its year and month.
   */
  lemma WindowMonths(root: string, today: Day)
    requires ValidDay(today)
    requires DirectoriesToObserve(root, today).Ok?
    ensures var dirs := DirectoriesToObserve(root, today).value.0;
      |dirs| == 4 &&
      forall i :: 0 <= i < 4 ==>
        var ym := ShiftMonth(today.year, today.month, i - 2);
        && 1 <= ym.0 <= 9999
        && MonthIndex(ym.0, ym.1) == MonthIndex(today.year, today.month) + i - 2
        && dirs[i] == PathJoin(root, MonthName(ym))
        && ReadsBack(ym)
  {
    var dirs := DirectoriesToObserve(root, today).value.0;
    forall i | 0 <= i < 4
      ensures var ym := ShiftMonth(today.year, today.month, i - 2);
        && 1 <= ym.0 <= 9999
        && dirs[i] == PathJoin(root, MonthName(ym))
        && ReadsBack(ym)
    {
      assert WindowOffsets[i] == i - 2 && WindowOffsets[i] in WindowOffsets;
      MonthNameReadsBack(ShiftMonth(today.year, today.month, i - 2));
    }
  }

  /** The day after d. */
  function NextDay(d: Day): (e: Day)
    requires 1 <= d.month <= 12
    ensures 1 <= e.month <= 12
  {
    if d.day < DaysInMonth(d.year, d.month) then Day(d.year, d.month, d.day + 1)
    else
      var ym := ShiftMonth(d.year, d.month, 1);
      Day(ym.0, ym.1, 1)
  }

  /** n days after d, one day at a time. */
  function AddDays(d: Day, n: nat): (e: Day)
    requires 1 <= d.month <= 12
    ensures 1 <= e.month <= 12
    decreases n
  {
    if n == 0 then d else AddDays(NextDay(d), n - 1)
  }

  /**
   * The wait GetDirectoriesToObserve returns: between one and 31 whole days,
   * and that many days after today is the first of next month.
   */
  lemma {:induction false} WaitReachesNextMonth(root: string, today: Day)
    requires ValidDay(today)
    requires DirectoriesToObserve(root, today).Ok?
    ensures var wait := DirectoriesToObserve(root, today).value.1;
      && SecondsPerDay <= wait <= 31 * SecondsPerDay
      && wait % SecondsPerDay == 0
      && var next := ShiftMonth(today.year, today.month, 1);
         AddDays(today, wait / SecondsPerDay) == Day(next.0, next.1, 1)
  {
    var n := DaysInMonth(today.year, today.month) - today.day + 1;
    CountDaysToMonthEnd(today);
    assert DirectoriesToObserve(root, today).value.1 == n * SecondsPerDay;
    assert n * SecondsPerDay / SecondsPerDay == n;
  }

  lemma {:induction false} CountDaysToMonthEnd(d: Day)
    requires 1 <= d.month <= 12 && 1 <= d.day <= DaysInMonth(d.year, d.month)
    ensures var next := ShiftMonth(d.year, d.month, 1);
      AddDays(d, DaysInMonth(d.year, d.month) - d.day + 1) == Day(next.0, next.1, 1)
    decreases DaysInMonth(d.year, d.month) - d.day
  {
    if d.day < DaysInMonth(d.year, d.month) {
      CountDaysToMonthEnd(NextDay(d));
    }
  }

  // ---------------------------------------------------------------------
  // MakePathNice and GetFilePath

  /** `s.replace(c, "")`. */
  function RemoveChar(s: string, c: char): (r: string)
    ensures c !in r
    ensures forall x :: x != c ==> (x in r <==> x in s)
    ensures c !in s ==> r == s
  {
    if |s| == 0 then ""
    else
      var rest := RemoveChar(s[1..], c);
      assert s == [s[0]] + s[1..];
      if s[0] == c then rest else [s[0]] + rest
  }

  /** MakePathNice: both kinds of quote removed; the `as_posix` normalisation is not modelled. */
  function MakePathNice(p: string): string
  {
    RemoveChar(RemoveChar(p, '"'), '\'')
  }

  /** The result has no quotes, keeps every other character, and is left alone by a second pass. */
  lemma MakePathNiceStripsQuotes(p: string)
    ensures var r := MakePathNice(p);
      && '"' !in r && '\'' !in r
      && (forall x :: x != '"' && x != '\'' ==> (x in r <==> x in p))
      && MakePathNice(r) == r
  {
  }

  /** Eight non-digits in a row, the run `[^0-9]{6}[^0-9]{2}` matches. */
  predicate NonDigitRunAt(t: string, i: int)
  {
    0 <= i && i + 8 <= |t| && forall j :: i <= j < i + 8 ==> !IsDigit(t[j])
  }

  /** `re.sub(r"[^0-9]{6}[^0-9]{2}", r"[^0-9]{6}", t)`: each such run, left to right, becomes that text. */
  function MaskNonDigitRuns(t: string): string
    decreases |t|
  {
    if NonDigitRunAt(t, 0) then "[^0-9]{6}" + MaskNonDigitRuns(t[8..])
    else if |t| == 0 then ""
    else [t[0]] + MaskNonDigitRuns(t[1..])
  }

  lemma RunShift(t: string, i: int)
    requires |t| > 0
    ensures NonDigitRunAt(t[1..], i) ==> NonDigitRunAt(t, i + 1)
  {
    if NonDigitRunAt(t[1..], i) {
      assert forall j :: i + 1 <= j < i + 9 ==> t[j] == t[1..][j - 1];
    }
  }

  /** A token without a run of eight non-digits, such as a date, is left unchanged. */
  lemma {:induction false} MaskKeepsDateTokens(t: string)
    requires forall i :: 0 <= i <= |t| ==> !NonDigitRunAt(t, i)
    ensures MaskNonDigitRuns(t) == t
    decreases |t|
  {
    if |t| > 0 {
      assert !NonDigitRunAt(t, 0);
      forall i | 0 <= i <= |t[1..]| ensures !NonDigitRunAt(t[1..], i) {
        RunShift(t, i);
      }
      MaskKeepsDateTokens(t[1..]);
      assert [t[0]] + t[1..] == t;
    }
  }

  /**
   * GetFilePath with `isFile` standing for os.path.isfile. The candidates are
   * the name as given, the name joined to the directory, and
   * `parts[0]/datetoken/basename`; the first that exists is returned, and the
   * last is returned even when it is missing too. Only reaching the last
   * one can raise: IndexError for a basename without '_' or a directory
   * without parts.
   */
  function GetFilePath(fileName: string, dir: string, isFile: string -> bool): (r: Result<(string, string)>)
    ensures r.Ok? ==> r.value.1 == Basename(fileName)
  {
    var base := Basename(fileName);
    if isFile(fileName) then Ok((fileName, base))
    else
      var joined := PathJoin(dir, fileName);
      if isFile(joined) then Ok((joined, base))
      else
        var ts := Split(base, '_');
        var root := FirstPart(dir);
        if |ts| < 2 || root.None? then Err(IndexError)
        else Ok((PathJoin(PathJoin(root.value, MaskNonDigitRuns(ts[1])), base), base))
  }

  /**
   * A missing file never raises; only a name or directory without the needed
   * parts does. The first existing candidate is returned, in the order name
   * as given, name joined to the directory, `parts[0]/datetoken/basename`;
   * the last is returned when none exists.
   */
  lemma GetFilePathNeverFailsOnMissingFile(fileName: string, dir: string, isFile: string -> bool)
    ensures GetFilePath(fileName, dir, isFile).Err? <==>
      && !isFile(fileName)
      && !isFile(PathJoin(dir, fileName))
      && (|Split(Basename(fileName), '_')| < 2 || FirstPart(dir).None?)
    ensures isFile(fileName) ==> GetFilePath(fileName, dir, isFile) == Ok((fileName, Basename(fileName)))
    ensures !isFile(fileName) && isFile(PathJoin(dir, fileName)) ==>
      GetFilePath(fileName, dir, isFile) == Ok((PathJoin(dir, fileName), Basename(fileName)))
    ensures var ts := Split(Basename(fileName), '_');
      !isFile(fileName) && !isFile(PathJoin(dir, fileName)) && |ts| >= 2 && FirstPart(dir).Some? ==>
        GetFilePath(fileName, dir, isFile) ==
          Ok((PathJoin(PathJoin(FirstPart(dir).value, MaskNonDigitRuns(ts[1])), Basename(fileName)), Basename(fileName)))
  {
  }
}
