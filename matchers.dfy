/** String matchers: immutable values pairing a description with a pure
    test over one live string, as built by Contains, NotContains,
    MatchesRegexp and Equals. */
module Matchers {

  /** What a matcher test or an assertion probe reports: a pass flag and
      a diagnostic meant for the failure sink. */
  datatype Verdict = Verdict(passed: bool, message: string)

  /** `t` occurs in `s` starting at offset `i`. */
  ghost predicate OccursAt(t: string, s: string, i: nat) {
    i + |t| <= |s| && s[i..i + |t|] == t
  }

  /** Reference definition of "`t` is a substring of `s`". */
  ghost predicate IsSubstring(t: string, s: string) {
    exists i: nat :: OccursAt(t, s, i)
  }

  /** When `t` does not start `s`, its occurrences are those in `s[1..]`. */
  lemma SubstringShift(s: string, t: string)
    requires |t| <= |s| && s[..|t|] != t
    ensures IsSubstring(t, s) <==> IsSubstring(t, s[1..])
  {
    if IsSubstring(t, s) {
      var i: nat :| OccursAt(t, s, i);
      assert i != 0 by { assert s[0..|t|] == s[..|t|]; }
      assert s[1..][i - 1..i - 1 + |t|] == s[i..i + |t|];
      assert OccursAt(t, s[1..], i - 1);
    }
    if IsSubstring(t, s[1..]) {
      var i: nat :| OccursAt(t, s[1..], i);
      assert s[1..][i..i + |t|] == s[i + 1..i + 1 + |t|];
      assert OccursAt(t, s, i + 1);
    }
  }

  /** Substring search with the meaning of Go's `strings.Contains(s, t)`:
      true exactly when `t` occurs somewhere in `s` (the empty `t` always does). */
  function StringContains(s: string, t: string): (b: bool)
    ensures b <==> IsSubstring(t, s)
    decreases |s|
  {
    if |t| > |s| then
      false
    else if s[..|t|] == t then
      assert OccursAt(t, s, 0);
      true
    else
      SubstringShift(s, t);
      StringContains(s[1..], t)
  }

  /** A diagnostic built from a template with two holes, `a` and `b`. */
  function Fill(pre: string, a: string, mid: string, b: string, post: string): string {
    pre + a + mid + b + post
  }

  /** A filled-in diagnostic names both values put into its holes. */
  lemma FillNamesBoth(pre: string, a: string, mid: string, b: string, post: string)
    ensures IsSubstring(a, Fill(pre, a, mid, b, post))
    ensures IsSubstring(b, Fill(pre, a, mid, b, post))
  {
    var s := Fill(pre, a, mid, b, post);
    assert s[|pre|..|pre| + |a|] == a;
    assert OccursAt(a, s, |pre|);
    var j := |pre| + |a| + |mid|;
    assert s[j..j + |b|] == b;
    assert OccursAt(b, s, j);
  }

  /** A matcher: its description (as the constructors word it) and its test.
      The type, its constructor and its `context`/`test` operations live in
      a file that is not part of this model; `Test` and `Context` below are
      the assumed behaviour. */
  datatype Matcher = Matcher(description: string, testFn: string -> Verdict) {

    /** Applies the matcher to one value. */
    function Test(value: string): Verdict {
      testFn(value)
    }

    /** A new matcher whose diagnostics are prefixed with `heading`, the place
        the mismatch was observed. ASSUMPTION: only the diagnostic changes;
        the pass flag is that of the receiver on every value, and the
        receiver itself is left as it was (it is a value). */
    function Context(heading: string): (r: Matcher)
      ensures r.description == description
      ensures forall v :: r.Test(v).passed == Test(v).passed
      ensures forall v :: heading <= r.Test(v).message
      ensures forall v :: IsSubstring(Test(v).message, r.Test(v).message)
    {
      forall v ensures IsSubstring(testFn(v).message, heading + " " + testFn(v).message) {
        FillNamesBoth(heading, " ", "", testFn(v).message, "");
        assert Fill(heading, " ", "", testFn(v).message, "") == heading + " " + testFn(v).message;
      }
      Matcher(description, v => var inner := testFn(v); Verdict(inner.passed, heading + " " + inner.message))
    }
  }

  /** Passes on `v` iff `target` is a substring of `v`. */
  function Contains(target: string): (m: Matcher)
    ensures m.description == "contains '" + target + "'"
    ensures forall v :: m.Test(v).passed <==> IsSubstring(target, v)
    ensures forall v :: IsSubstring(target, m.Test(v).message) && IsSubstring(v, m.Test(v).message)
  {
    forall v ensures IsSubstring(target, Fill("Expected '", target, "' to be found in '", v, "'"))
      && IsSubstring(v, Fill("Expected '", target, "' to be found in '", v, "'"))
    {
      FillNamesBoth("Expected '", target, "' to be found in '", v, "'");
    }
    Matcher("contains '" + target + "'",
      v => Verdict(StringContains(v, target), Fill("Expected '", target, "' to be found in '", v, "'")))
  }

  /** The negation of `Contains(target)`, with a diagnostic of its own. */
  function NotContains(target: string): (m: Matcher)
    ensures m.description == "does not contain '" + target + "'"
    ensures forall v :: m.Test(v).passed == !Contains(target).Test(v).passed
    ensures forall v :: m.Test(v).passed <==> !IsSubstring(target, v)
    ensures forall v :: IsSubstring(target, m.Test(v).message) && IsSubstring(v, m.Test(v).message)
  {
    forall v ensures IsSubstring(target, Fill("Expected '", target, "' to NOT be found in '", v, "'"))
      && IsSubstring(v, Fill("Expected '", target, "' to NOT be found in '", v, "'"))
    {
      FillNamesBoth("Expected '", target, "' to NOT be found in '", v, "'");
    }
    Matcher("does not contain '" + target + "'",
      v => Verdict(!StringContains(v, target), Fill("Expected '", target, "' to NOT be found in '", v, "'")))
  }

  /** What Go's `regexp.MatchString(pattern, value)` gives back: a match
      flag, or the error from compiling the pattern. */
  datatype RegexResult = Matched(matched: bool) | ParseError(error: string)

  /** The regular-expression library, which is not part of this model:
      pattern and value to result. */
  type RegexEngine = (string, string) -> RegexResult

  /** Passes on `v` iff the engine reports a match of `target` against `v`;
      a pattern that does not compile is a failed test (recompiled on every
      call), whose diagnostic names the pattern and the error. */
  function MatchesRegexp(target: string, matchString: RegexEngine): (m: Matcher)
    ensures m.description == "matches regular expression '" + target + "'"
    ensures forall v :: m.Test(v).passed <==> matchString(target, v) == Matched(true)
    ensures forall v :: matchString(target, v).ParseError? ==>
      IsSubstring(target, m.Test(v).message) && IsSubstring(matchString(target, v).error, m.Test(v).message)
    ensures forall v :: matchString(target, v).Matched? ==>
      IsSubstring(target, m.Test(v).message) && IsSubstring(v, m.Test(v).message)
  {
    forall v ensures
      var res := matchString(target, v);
      && (res.ParseError? ==>
        var msg := Fill("Unexpected error parsing regular expression '", target, "': ", res.error, "");
        IsSubstring(target, msg) && IsSubstring(res.error, msg))
      && (var msg := Fill("Expected '", v, "' to match regular expression '", target, "'");
        IsSubstring(target, msg) && IsSubstring(v, msg))
    {
      var res := matchString(target, v);
      if res.ParseError? {
        FillNamesBoth("Unexpected error parsing regular expression '", target, "': ", res.error, "");
      }
      FillNamesBoth("Expected '", v, "' to match regular expression '", target, "'");
    }
    Matcher("matches regular expression '" + target + "'",
      v => match matchString(target, v)
        case ParseError(err) =>
          Verdict(false, Fill("Unexpected error parsing regular expression '", target, "': ", err, ""))
        case Matched(matched) =>
          Verdict(matched, Fill("Expected '", v, "' to match regular expression '", target, "'")))
  }

  /** Passes on `v` iff `v` is exactly `target`. */
  function Equals(target: string): (m: Matcher)
    ensures m.description == "equals '" + target + "'"
    ensures forall v :: m.Test(v).passed <==> v == target
    ensures forall v :: IsSubstring(target, m.Test(v).message) && IsSubstring(v, m.Test(v).message)
  {
    forall v ensures IsSubstring(v, Fill("Expected '", v, "' to equal '", target, "'"))
      && IsSubstring(target, Fill("Expected '", v, "' to equal '", target, "'"))
    {
      FillNamesBoth("Expected '", v, "' to equal '", target, "'");
    }
    Matcher("equals '" + target + "'",
      v => Verdict(target == v, Fill("Expected '", v, "' to equal '", target, "'")))
  }

  /** Contexts nest: any stack of headings keeps the receiver's pass flag,
      and the outermost heading starts the diagnostic. */
  lemma {:induction false} NestedContexts(m: Matcher, headings: seq<string>, v: string)
    requires |headings| > 0
    ensures WithContexts(m, headings).Test(v).passed == m.Test(v).passed
    ensures headings[|headings| - 1] <= WithContexts(m, headings).Test(v).message
    decreases |headings|
  {
    if |headings| > 1 {
      NestedContexts(m, headings[..|headings| - 1], v);
    }
  }

  /** `m` with the headings applied one after the other, innermost first. */
  function WithContexts(m: Matcher, headings: seq<string>): Matcher
    decreases |headings|
  {
    if headings == [] then m else WithContexts(m, headings[..|headings| - 1]).Context(headings[|headings| - 1])
  }
}
