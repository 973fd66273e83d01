/** The string semantics of the JavaScript runtime the app relies on: the
    whitespace class shared by `String.prototype.trim` and the regular
    expression class `\s`, trimming, and the global replacement of `/\s+/g`
    by an underscore. */
module JsString {

  /** ECMAScript WhiteSpace and LineTerminator code points: the set that both
      `trim()` removes and `\s` matches. */
  predicate IsWs(c: char) {
    c == '\t' || c == '\n' || c == '\U{B}' || c == '\U{C}' || c == '\r' || c == ' '
    || c == '\U{A0}' || c == '\U{1680}' || ('\U{2000}' <= c <= '\U{200A}')
    || c == '\U{2028}' || c == '\U{2029}' || c == '\U{202F}' || c == '\U{205F}'
    || c == '\U{3000}' || c == '\U{FEFF}'
  }

  /** No character of `s` is whitespace. */
  predicate NoWs(s: string) {
    forall i :: 0 <= i < |s| ==> !IsWs(s[i])
  }

  /** Every character of `s` is whitespace (the empty string included). */
  predicate IsBlank(s: string) {
    forall i :: 0 <= i < |s| ==> IsWs(s[i])
  }

  /** Drops the leading whitespace: the result is a suffix of `s` that is
      empty or starts with a non-whitespace character (TrimStartSplits). */
  function TrimStart(s: string): (r: string)
    ensures |r| <= |s|
    ensures r == [] || !IsWs(r[0])
    ensures s != [] && IsWs(s[0]) ==> |r| < |s|
  {
    if s != [] && IsWs(s[0]) then TrimStart(s[1..]) else s
  }

  /** What TrimStart drops is a whitespace prefix, and what it keeps is the rest. */
  lemma {:induction false} TrimStartSplits(s: string)
    ensures s == s[..|s| - |TrimStart(s)|] + TrimStart(s)
    ensures IsBlank(s[..|s| - |TrimStart(s)|])
  {
    if s != [] && IsWs(s[0]) {
      TrimStartSplits(s[1..]);
      var k := |s| - |TrimStart(s)|;
      assert s[..k] == [s[0]] + s[1..][..k - 1];
    }
  }

  /** Drops the trailing whitespace: the result is a prefix of `s` that is
      empty or ends with a non-whitespace character (TrimEndSplits). */
  function TrimEnd(s: string): (r: string)
    ensures |r| <= |s|
    ensures r == [] || !IsWs(r[|r| - 1])
  {
    if s != [] && IsWs(s[|s| - 1]) then TrimEnd(s[..|s| - 1]) else s
  }

  /** What TrimEnd drops is a whitespace suffix, and what it keeps is the rest. */
  lemma {:induction false} TrimEndSplits(s: string)
    ensures s == TrimEnd(s) + s[|TrimEnd(s)|..]
    ensures IsBlank(s[|TrimEnd(s)|..])
  {
    if s != [] && IsWs(s[|s| - 1]) {
      var s' := s[..|s| - 1];
      TrimEndSplits(s');
      var k := |TrimEnd(s)|;
      assert s[k..] == s'[k..] + [s[|s| - 1]];
      assert s == s' + [s[|s| - 1]];
    }
  }

  /** A string is trimmed to nothing exactly when it is blank. */
  lemma {:induction false} TrimStartEmptyIffBlank(s: string)
    ensures TrimStart(s) == [] <==> IsBlank(s)
  {
    TrimStartSplits(s);
    if TrimStart(s) != [] {
      var k := |s| - |TrimStart(s)|;
      assert s[k] == TrimStart(s)[0];
    }
  }

  /** `String.prototype.trim`: whitespace removed at both ends. */
  function Trim(s: string): (r: string)
    ensures r == [] || (!IsWs(r[0]) && !IsWs(r[|r| - 1]))
  {
    var t := TrimStart(s);
    TrimEndSplits(t);
    assert t != [] ==> t[0] == (TrimEnd(t) + t[|TrimEnd(t)|..])[0];
    TrimEnd(t)
  }

  /** `!s.trim()` holds, that is the trimmed string is empty, exactly when
      every character of `s` is whitespace. */
  lemma TrimEmptyIffBlank(s: string)
    ensures Trim(s) == [] <==> IsBlank(s)
  {
    var t := TrimStart(s);
    TrimStartEmptyIffBlank(s);
    TrimEndSplits(t);
    if Trim(s) != [] {
      assert t[0] == Trim(s)[0];
    }
  }

  /** `s.replace(/\s+/g, '_')`: every maximal run of whitespace becomes one
      underscore; all other characters are copied. */
  function ReplaceWsRuns(s: string): (r: string)
    ensures NoWs(r)
    decreases |s|
  {
    if s == [] then []
    else if IsWs(s[0]) then
      "_" + ReplaceWsRuns(TrimStart(s))
    else [s[0]] + ReplaceWsRuns(s[1..])
  }

  /** The characters of `s` that are neither whitespace nor an underscore, in order. */
  function Visible(s: string): (r: string)
    ensures |r| <= |s|
  {
    if s == [] then []
    else (if IsWs(s[0]) || s[0] == '_' then [] else [s[0]]) + Visible(s[1..])
  }

  lemma {:induction false} VisibleConcat(a: string, b: string)
    ensures Visible(a + b) == Visible(a) + Visible(b)
  {
    if a != [] {
      assert (a + b)[1..] == a[1..] + b;
      VisibleConcat(a[1..], b);
    } else {
      assert a + b == b;
    }
  }

  lemma {:induction false} VisibleOfBlank(w: string)
    requires IsBlank(w)
    ensures Visible(w) == []
  {
    if w != [] { VisibleOfBlank(w[1..]); }
  }

  /** Apart from underscores, the replacement keeps exactly the
      non-whitespace characters of `s`, in their order. */
  lemma {:induction false} ReplaceWsRunsKeepsVisible(s: string)
    ensures Visible(ReplaceWsRuns(s)) == Visible(s)
    decreases |s|
  {
    if s == [] {
    } else if IsWs(s[0]) {
      var t := TrimStart(s);
      TrimStartSplits(s);
      ReplaceWsRunsKeepsVisible(t);
      VisibleConcat("_", ReplaceWsRuns(t));
      assert s == s[..|s| - |t|] + t;
      VisibleConcat(s[..|s| - |t|], t);
      VisibleOfBlank(s[..|s| - |t|]);
    } else {
      ReplaceWsRunsKeepsVisible(s[1..]);
      VisibleConcat([s[0]], ReplaceWsRuns(s[1..]));
      VisibleConcat([s[0]], s[1..]);
      assert s == [s[0]] + s[1..];
    }
  }

  /** A string without whitespace is left as it is. */
  lemma {:induction false} ReplaceWsRunsOfWord(s: string)
    requires NoWs(s)
    ensures ReplaceWsRuns(s) == s
  {
    if s != [] {
      ReplaceWsRunsOfWord(s[1..]);
    }
  }

  /** A non-empty run of whitespace becomes a single underscore. */
  lemma ReplaceWsRunsOfRun(w: string)
    requires w != [] && IsBlank(w)
    ensures ReplaceWsRuns(w) == "_"
  {
    TrimStartEmptyIffBlank(w);
  }

  lemma {:induction false} TrimStartConcat(a: string, b: string)
    ensures IsBlank(a) ==> TrimStart(a + b) == TrimStart(b)
    ensures !IsBlank(a) ==> TrimStart(a + b) == TrimStart(a) + b
  {
    if a == [] {
      assert a + b == b;
    } else if !IsWs(a[0]) {
      assert (a + b)[0] == a[0];
    } else {
      assert (a + b)[0] == a[0];
      assert (a + b)[1..] == a[1..] + b;
      TrimStartConcat(a[1..], b);
      BlankTail(a);
    }
  }

  lemma BlankTail(a: string)
    requires a != [] && IsWs(a[0])
    ensures IsBlank(a) <==> IsBlank(a[1..])
  {
  }

  /** The replacement distributes over a concatenation whose seam does not
      fall inside a whitespace run. Together with ReplaceWsRunsOfWord and
      ReplaceWsRunsOfRun this determines the replacement on every string. */
  lemma {:induction false} ReplaceWsRunsConcat(a: string, b: string)
    requires a == [] || b == [] || !IsWs(a[|a| - 1]) || !IsWs(b[0])
    ensures ReplaceWsRuns(a + b) == ReplaceWsRuns(a) + ReplaceWsRuns(b)
    decreases |a|
  {
    if a == [] {
      assert a + b == b;
    } else if b == [] {
      assert a + b == a;
    } else if !IsWs(a[0]) {
      assert (a + b)[0] == a[0];
      assert (a + b)[1..] == a[1..] + b;
      ReplaceWsRunsConcat(a[1..], b);
    } else {
      ConcatAfterRun(a, b);
    }
  }

  /** The case of ReplaceWsRunsConcat where `a` starts with whitespace. */
  lemma {:induction false} ConcatAfterRun(a: string, b: string)
    requires a != [] && b != [] && IsWs(a[0])
    requires !IsWs(a[|a| - 1]) || !IsWs(b[0])
    ensures ReplaceWsRuns(a + b) == ReplaceWsRuns(a) + ReplaceWsRuns(b)
    decreases |a|, 0
  {
    assert (a + b)[0] == a[0];
    TrimStartConcat(a, b);
    var t := TrimStart(a);
    TrimStartEmptyIffBlank(a);
    if IsBlank(a) {
      assert TrimStart(b) == b;
    } else {
      TrimStartSplits(a);
      assert t[|t| - 1] == a[|a| - 1];
      ReplaceWsRunsConcat(t, b);
      assert "_" + (ReplaceWsRuns(t) + ReplaceWsRuns(b)) == ("_" + ReplaceWsRuns(t)) + ReplaceWsRuns(b);
    }
  }

  /** Replacing twice gives the same as replacing once. */
  lemma ReplaceWsRunsIdempotent(s: string)
    ensures ReplaceWsRuns(ReplaceWsRuns(s)) == ReplaceWsRuns(s)
  {
    ReplaceWsRunsOfWord(ReplaceWsRuns(s));
  }
}
