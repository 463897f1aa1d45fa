/** The string operations the services apply to what people type. */
module Text {
  import opened Foundations

  /** The ASCII part of the characters `String.prototype.trim` removes. */
  const WHITESPACE: set<char> := {' ', '\t', '\n', '\r', (11 as char), (12 as char)}

  lemma WhitespaceIs(c: char)
    ensures c in WHITESPACE <==> 9 <= c as int <= 13 || c as int == 32
  {
  }

  function TrimStart(s: string, cs: set<char>): (r: string)
    ensures |r| <= |s|
    ensures r != [] ==> r[0] !in cs
  {
    if s != [] && s[0] in cs then TrimStart(s[1..], cs) else s
  }

  function TrimEnd(s: string, cs: set<char>): (r: string)
    ensures |r| <= |s|
    ensures r <= s
    ensures r != [] ==> r[|r| - 1] !in cs
  {
    if s != [] && s[|s| - 1] in cs then TrimEnd(s[..|s| - 1], cs) else s
  }

  function TrimBy(s: string, cs: set<char>): (r: string)
    ensures r != [] ==> r[0] !in cs && r[|r| - 1] !in cs
  {
    TrimEnd(TrimStart(s, cs), cs)
  }

  function Trim(s: string): string {
    TrimBy(s, WHITESPACE)
  }

  /** A string that neither starts nor ends with a trimmed character is left as it is. */
  lemma TrimByFixes(s: string, cs: set<char>)
    requires s != [] ==> s[0] !in cs && s[|s| - 1] !in cs
    ensures TrimBy(s, cs) == s
  {
  }

  lemma {:induction false} TrimStartIs(s: string, cs: set<char>)
    ensures var r := TrimStart(s, cs); |r| <= |s| && r == s[|s| - |r|..] && forall k :: 0 <= k < |s| - |r| ==> s[k] in cs
  {
    if s != [] && s[0] in cs {
      TrimStartIs(s[1..], cs);
      var r := TrimStart(s[1..], cs);
      assert forall k :: 1 <= k < |s| - |r| ==> s[k] == s[1..][k - 1];
    }
  }

  lemma {:induction false} TrimEndIs(s: string, cs: set<char>)
    ensures var r := TrimEnd(s, cs); |r| <= |s| && r == s[..|r|] && forall k :: |r| <= k < |s| ==> s[k] in cs
  {
    if s != [] && s[|s| - 1] in cs {
      TrimEndIs(s[..|s| - 1], cs);
    }
  }

  /** `t` is a stretch of `s`; around it there is nothing but trimmed characters, and neither of its ends is one. */
  ghost predicate Trimmed(s: string, t: string, cs: set<char>) {
    && (t != "" ==> t[0] !in cs && t[|t| - 1] !in cs)
    && exists i, j :: 0 <= i <= j <= |s| && t == s[i..j]
         && (forall k :: 0 <= k < i ==> s[k] in cs) && (forall k :: j <= k < |s| ==> s[k] in cs)
  }

  /** What trimming leaves; it is empty exactly when there was nothing else. */
  lemma TrimByIs(s: string, cs: set<char>)
    ensures Trimmed(s, TrimBy(s, cs), cs)
    ensures TrimBy(s, cs) == "" <==> forall c <- s :: c in cs
  {
    TrimStartIs(s, cs);
    var start := TrimStart(s, cs);
    TrimEndIs(start, cs);
    var t := TrimBy(s, cs);
    var i := |s| - |start|;
    var j := i + |t|;
    assert t == s[i..j];
    assert forall k :: j <= k < |s| ==> s[k] == start[k - i];
    if t != "" { assert t[0] in s; }
  }

  /** Empty and whitespace-only both mean "not written"; anything else loses the blanks around it and no more. */
  function BlankToNull(value: Option<string>): (r: Option<string>)
    ensures r.None? <==> value.None? || forall c <- value.value :: c in WHITESPACE
    ensures r.Some? ==> r.value != "" && Trimmed(value.value, r.value, WHITESPACE)
    ensures r.Some? ==> Trim(r.value) == r.value
  {
    match value
    case None => None
    case Some(v) =>
      TrimByIs(v, WHITESPACE);
      TrimByFixes(Trim(v), WHITESPACE);
      if Trim(v) == "" then None else Some(Trim(v))
  }

  function LowerChar(c: char): char {
    if 'A' <= c <= 'Z' then c - 'A' + 'a' else c
  }

  /** ASCII lower case. */
  function Lower(s: string): (r: string)
    ensures |r| == |s|
    ensures forall i :: 0 <= i < |s| ==> r[i] == LowerChar(s[i])
    ensures forall i :: 0 <= i < |s| ==> r[i] == if 'A' <= s[i] <= 'Z' then s[i] + (32 as char) else s[i]
  {
    seq(|s|, i requires 0 <= i < |s| => LowerChar(s[i]))
  }

  /** Lower case neither makes nor removes white space. */
  lemma TrimLowered(s: string)
    requires Trim(s) == s
    ensures Trim(Lower(s)) == Lower(s)
  {
    if s != "" {
      assert s[0] !in WHITESPACE && s[|s| - 1] !in WHITESPACE;
    }
    TrimByFixes(Lower(s), WHITESPACE);
  }

  /** What trimming keeps is fixed by the string: there is one such stretch. */
  lemma TrimmedIsTrim(s: string, t: string)
    ensures Trimmed(s, t, WHITESPACE) <==> t == Trim(s)
  {
    TrimByIs(s, WHITESPACE);
    if Trimmed(s, t, WHITESPACE) { TrimmedAlike(s, t, Trim(s), WHITESPACE); }
  }

  lemma TrimmedBlank(s: string, t: string, cs: set<char>)
    requires Trimmed(s, t, cs)
    ensures t == "" <==> forall c <- s :: c in cs
  {
    var i, j :| 0 <= i <= j <= |s| && t == s[i..j]
      && (forall k :: 0 <= k < i ==> s[k] in cs) && (forall k :: j <= k < |s| ==> s[k] in cs);
    if t != "" { assert s[i] == t[0]; }
  }

  lemma TrimmedAlike(s: string, t: string, u: string, cs: set<char>)
    requires Trimmed(s, t, cs) && Trimmed(s, u, cs)
    ensures t == u
  {
    TrimmedBlank(s, t, cs);
    TrimmedBlank(s, u, cs);
    if t != "" {
      hide Trimmed;
      var i, j := StretchOf(s, t, cs);
      var m, n := StretchOf(s, u, cs);
      SameStretch(s, i, j, m, n, cs);
    }
  }

  lemma StretchOf(s: string, t: string, cs: set<char>) returns (i: nat, j: nat)
    requires Trimmed(s, t, cs) && t != ""
    ensures i < j <= |s| && t == s[i..j] && s[i] !in cs && s[j - 1] !in cs
    ensures forall k :: 0 <= k < i || j <= k < |s| ==> s[k] in cs
  {
    i, j :| 0 <= i <= j <= |s| && t == s[i..j]
      && (forall k :: 0 <= k < i ==> s[k] in cs) && (forall k :: j <= k < |s| ==> s[k] in cs);
    assert s[i] == t[0] && s[j - 1] == t[|t| - 1];
  }

  /** Two stretches with nothing but trimmed characters outside, and none at their ends, are one. */
  lemma SameStretch(s: string, i: nat, j: nat, m: nat, n: nat, cs: set<char>)
    requires i < j <= |s| && m < n <= |s| && s[i] !in cs && s[j - 1] !in cs && s[m] !in cs && s[n - 1] !in cs
    requires forall k :: 0 <= k < i || j <= k < |s| ==> s[k] in cs
    requires forall k :: 0 <= k < m || n <= k < |s| ==> s[k] in cs
    ensures i == m && j == n
  {
  }

  lemma TrimTwice(s: string)
    ensures Trim(Trim(s)) == Trim(s)
  {
    TrimByFixes(Trim(s), WHITESPACE);
  }

  lemma LowerTwice(s: string)
    ensures Lower(Lower(s)) == Lower(s)
  {
  }
}
