/** The assertions a scenario script calls. Each wraps one live read of the
    driver and one comparison into a probe and hands it to the retry loop;
    the multi-line ones first check the number of lines and then run one
    independent loop per line. Every assertion takes the clock reading at
    which it starts and reports the one at which it returns. */
module Assertions {
  import opened Matchers
  import opened Retry
  import opened Driver

  /** Decimal digits of a natural number, as `%d` prints it. */
  function Digits(n: nat): (s: string)
    ensures |s| >= 1
    decreases n
  {
    if n < 10 then ["0123456789"[n]] else Digits(n / 10) + ["0123456789"[n % 10]]
  }

  /** A Go int as `%d` prints it. */
  function Decimal(i: int): string {
    if i < 0 then "-" + Digits(-i) else Digits(i)
  }

  // ---------------------------------------------------------------------
  // Probes over counts and single values

  /** Compares a live count with the expected one; the diagnostic reports
      the expected and the observed count. */
  function CountProbe(count: nat -> int, expected: int, noun: string): (p: Probe)
    ensures forall t :: p(t).passed <==> count(t) == expected
    ensures forall t :: IsSubstring(Decimal(expected), p(t).message) && IsSubstring(Decimal(count(t)), p(t).message)
  {
    forall t ensures IsSubstring(Decimal(expected), Fill("Expected ", Decimal(expected), " " + noun + ", but got ", Decimal(count(t)), ""))
      && IsSubstring(Decimal(count(t)), Fill("Expected ", Decimal(expected), " " + noun + ", but got ", Decimal(count(t)), ""))
    {
      FillNamesBoth("Expected ", Decimal(expected), " " + noun + ", but got ", Decimal(count(t)), "");
    }
    (t: nat) => Verdict(count(t) == expected, Fill("Expected ", Decimal(expected), " " + noun + ", but got ", Decimal(count(t)), ""))
  }

  function FilesLen(world: World): nat -> int {
    (t: nat) => |world(t).gui.model.files|
  }

  function CommitsLen(world: World): nat -> int {
    (t: nat) => |world(t).gui.model.commits|
  }

  function StashLen(world: World): nat -> int {
    (t: nat) => |world(t).gui.model.stashEntries|
  }

  /** Passes when at least one commit is present. */
  function AnyCommitProbe(world: World, message: string): (p: Probe)
    ensures forall t :: p(t).passed <==> |world(t).gui.model.commits| > 0
    ensures forall t :: p(t).message == message
  {
    (t: nat) => Verdict(|world(t).gui.model.commits| > 0, message)
  }

  /** Compares a live name with the expected one; the diagnostic names both. */
  function NameProbe(actual: nat -> string, expected: string, what: string): (p: Probe)
    ensures forall t :: p(t).passed <==> actual(t) == expected
    ensures forall t :: IsSubstring(expected, p(t).message) && IsSubstring(actual(t), p(t).message)
  {
    forall t ensures IsSubstring(expected, Fill("Expected " + what + " to be '", expected, "', but got '", actual(t), "'"))
      && IsSubstring(actual(t), Fill("Expected " + what + " to be '", expected, "', but got '", actual(t), "'"))
    {
      FillNamesBoth("Expected " + what + " to be '", expected, "', but got '", actual(t), "'");
    }
    (t: nat) => Verdict(actual(t) == expected, Fill("Expected " + what + " to be '", expected, "', but got '", actual(t), "'"))
  }

  function CurrentViewNameOf(world: World): nat -> string {
    (t: nat) => world(t).gui.currentContext.view.name
  }

  function CheckedOutRefOf(world: World): nat -> string {
    (t: nat) => world(t).gui.checkedOutRef
  }

  function SelectedLineOf(world: World): nat -> string {
    (t: nat) => world(t).gui.currentContext.view.selectedLine
  }

  function CurrentViewTitleOf(world: World): nat -> string {
    (t: nat) => world(t).gui.currentContext.view.title
  }

  function ViewBufferOf(world: World, viewName: string): nat -> string {
    (t: nat) => world(t).gui.viewNamed(viewName).buffer
  }

  function CurrentViewBufferOf(world: World): nat -> string {
    (t: nat) => world(t).gui.currentContext.view.buffer
  }

  function MainViewBufferOf(world: World): nat -> string {
    (t: nat) => world(t).gui.mainView.buffer
  }

  function SecondaryViewBufferOf(world: World): nat -> string {
    (t: nat) => world(t).gui.secondaryView.buffer
  }

  /** Passes when the focused context is a list context; the diagnostic
      names the focused context's key. */
  function ListContextProbe(world: World): (p: Probe)
    ensures forall t :: p(t).passed <==> world(t).gui.currentContext.isListContext
    ensures forall t :: IsSubstring(world(t).gui.currentContext.key, p(t).message)
  {
    forall t ensures IsSubstring(world(t).gui.currentContext.key,
      Fill("Expected current context to be a list context, but got ", world(t).gui.currentContext.key, "", "", ""))
    {
      FillNamesBoth("Expected current context to be a list context, but got ", world(t).gui.currentContext.key, "", "", "");
    }
    (t: nat) => Verdict(world(t).gui.currentContext.isListContext,
      Fill("Expected current context to be a list context, but got ", world(t).gui.currentContext.key, "", "", ""))
  }

  /** Compares the focused view's selected line index with the expected one. */
  function SelectedIndexProbe(world: World, expected: int): (p: Probe)
    ensures forall t :: p(t).passed <==> world(t).gui.currentContext.view.selectedLineIdx == expected
    ensures forall t :: (IsSubstring(Decimal(expected), p(t).message)
      && IsSubstring(Decimal(world(t).gui.currentContext.view.selectedLineIdx), p(t).message))
  {
    forall t ensures
      var msg := Fill("Expected selected line index to be ", Decimal(expected), ", got ",
        Decimal(world(t).gui.currentContext.view.selectedLineIdx), "");
      IsSubstring(Decimal(expected), msg) && IsSubstring(Decimal(world(t).gui.currentContext.view.selectedLineIdx), msg)
    {
      FillNamesBoth("Expected selected line index to be ", Decimal(expected), ", got ",
        Decimal(world(t).gui.currentContext.view.selectedLineIdx), "");
    }
    (t: nat) => Verdict(expected == world(t).gui.currentContext.view.selectedLineIdx,
      Fill("Expected selected line index to be ", Decimal(expected), ", got ",
        Decimal(world(t).gui.currentContext.view.selectedLineIdx), ""))
  }

  // ---------------------------------------------------------------------
  // Popup classification of the focused view

  /** The confirmation view, editable: a prompt. */
  function IsPromptView(v: View): (b: bool)
    ensures b <==> v.name == ConfirmationView && !IsConfirmView(v)
  {
    v.name == ConfirmationView && v.editable
  }

  /** The confirmation view, not editable: a confirmation. */
  function IsConfirmView(v: View): (b: bool)
    ensures b ==> v.name == ConfirmationView
    ensures v.name == ConfirmationView ==> (b <==> !v.editable)
  {
    v.name == ConfirmationView && !v.editable
  }

  /** An alert is indistinguishable from a confirmation. */
  function IsAlertView(v: View): (b: bool)
    ensures b == IsConfirmView(v)
  {
    v.name == ConfirmationView && !v.editable
  }

  function IsCommitMessagePanelView(v: View): (b: bool)
    ensures b ==> !IsPromptView(v) && !IsConfirmView(v) && !IsMenuView(v)
  {
    v.name == CommitMessageView
  }

  function IsMenuView(v: View): (b: bool)
    ensures b ==> !IsPromptView(v) && !IsConfirmView(v)
  {
    v.name == MenuView
  }

  /** No popup is focused: none of the popup kinds above applies. */
  function IsOutsidePopup(v: View): (b: bool)
    ensures b <==> !(IsPromptView(v) || IsConfirmView(v) || IsMenuView(v) || IsCommitMessagePanelView(v))
  {
    v.name != MenuView && v.name != ConfirmationView && v.name != CommitMessageView
  }

  /** Passes when the focused view has the given kind. */
  function FocusProbe(world: World, kind: View -> bool, message: string): (p: Probe)
    ensures forall t :: p(t).passed == kind(world(t).gui.currentContext.view)
    ensures forall t :: p(t).message == message
  {
    (t: nat) => Verdict(kind(world(t).gui.currentContext.view), message)
  }

  // ---------------------------------------------------------------------
  // The engine entry points over matchers

  /** Rereads the value at every attempt and applies the matcher, labelled
      with `heading`, to it. */
  function MatchProbe(m: Matcher, heading: string, getValue: nat -> string): (p: Probe)
    ensures forall t :: p(t).passed == m.Test(getValue(t)).passed
    ensures forall t :: heading <= p(t).message
  {
    (t: nat) => m.Context(heading).Test(getValue(t))
  }

  /** matchString: one retry loop over the live value. It passes iff the
      value read at some attempt satisfies the matcher, however many
      attempts before it failed; a failure's diagnostic starts with the
      heading. */
  method MatchString(m: Matcher, heading: string, getValue: nat -> string, start: nat) returns (r: Report)
    ensures r == RetrySpec(MatchProbe(m, heading, getValue), start)
    ensures r.status.Passed? <==> exists k :: 0 <= k < |WaitTimes| && m.Test(getValue(AttemptTime(start, k))).passed
    ensures r.status.Failed? ==> heading <= r.status.message
  {
    var p := MatchProbe(m, heading, getValue);
    r := AssertWithRetries(p, start);
    forall k | 0 <= k < |WaitTimes| ensures PassesAt(p, start, k) <==> m.Test(getValue(AttemptTime(start, k))).passed
    ensures r.status.Failed? ==> heading <= r.status.message {
    }
  }

  /** A value that satisfies the matcher at attempt `k` makes matchString
      pass within k+1 evaluations, whatever it was before. */
  lemma LateMatchPasses(m: Matcher, heading: string, getValue: nat -> string, start: nat, k: nat)
    requires k < |WaitTimes| && m.Test(getValue(AttemptTime(start, k))).passed
    ensures RetrySpec(MatchProbe(m, heading, getValue), start).status.Passed?
    ensures RetrySpec(MatchProbe(m, heading, getValue), start).evaluations <= k + 1
  {
    var p := MatchProbe(m, heading, getValue);
    assert PassesAt(p, start, k);
    RetryMeaning(p, start);
  }

  /** A pattern that never compiles exhausts the schedule and fails. */
  lemma MalformedRegexpFails(pattern: string, engine: RegexEngine, heading: string, getValue: nat -> string, start: nat)
    requires forall v :: engine(pattern, v).ParseError?
    ensures RetrySpec(MatchProbe(MatchesRegexp(pattern, engine), heading, getValue), start).status.Failed?
    ensures RetrySpec(MatchProbe(MatchesRegexp(pattern, engine), heading, getValue), start).evaluations == |WaitTimes|
  {
    var p := MatchProbe(MatchesRegexp(pattern, engine), heading, getValue);
    forall k | 0 <= k < |WaitTimes| ensures !PassesAt(p, start, k) {
      assert engine(pattern, getValue(AttemptTime(start, k))).ParseError?;
    }
    RetryNeverPasses(p, start);
  }

  // ---------------------------------------------------------------------
  // Count assertions

  method WorkingTreeFileCount(world: World, expectedCount: int, start: nat) returns (r: Report)
    ensures r == RetrySpec(CountProbe(FilesLen(world), expectedCount, "changed working tree files"), start)
    ensures r.status.Passed? <==>
      exists k :: 0 <= k < |WaitTimes| && |world(AttemptTime(start, k)).gui.model.files| == expectedCount
  {
    var p := CountProbe(FilesLen(world), expectedCount, "changed working tree files");
    r := AssertWithRetries(p, start);
    forall k | 0 <= k < |WaitTimes| ensures PassesAt(p, start, k) <==> |world(AttemptTime(start, k)).gui.model.files| == expectedCount {
    }
  }

  method CommitCount(world: World, expectedCount: int, start: nat) returns (r: Report)
    ensures r == RetrySpec(CountProbe(CommitsLen(world), expectedCount, "commits present"), start)
    ensures r.status.Passed? <==>
      exists k :: 0 <= k < |WaitTimes| && |world(AttemptTime(start, k)).gui.model.commits| == expectedCount
  {
    var p := CountProbe(CommitsLen(world), expectedCount, "commits present");
    r := AssertWithRetries(p, start);
    forall k | 0 <= k < |WaitTimes| ensures PassesAt(p, start, k) <==> |world(AttemptTime(start, k)).gui.model.commits| == expectedCount {
    }
  }

  method StashCount(world: World, expectedCount: int, start: nat) returns (r: Report)
    ensures r == RetrySpec(CountProbe(StashLen(world), expectedCount, "stash entries"), start)
    ensures r.status.Passed? <==>
      exists k :: 0 <= k < |WaitTimes| && |world(AttemptTime(start, k)).gui.model.stashEntries| == expectedCount
  {
    var p := CountProbe(StashLen(world), expectedCount, "stash entries");
    r := AssertWithRetries(p, start);
    forall k | 0 <= k < |WaitTimes| ensures PassesAt(p, start, k) <==> |world(AttemptTime(start, k)).gui.model.stashEntries| == expectedCount {
    }
  }

  method AtLeastOneCommit(world: World, start: nat) returns (r: Report)
    ensures r == RetrySpec(AnyCommitProbe(world, "Expected at least one commit present"), start)
    ensures r.status.Passed? <==>
      exists k :: 0 <= k < |WaitTimes| && |world(AttemptTime(start, k)).gui.model.commits| > 0
    ensures r.status.Failed? ==> r.status == Failed("Expected at least one commit present")
  {
    var p := AnyCommitProbe(world, "Expected at least one commit present");
    r := AssertWithRetries(p, start);
    forall k | 0 <= k < |WaitTimes| ensures PassesAt(p, start, k) <==> |world(AttemptTime(start, k)).gui.model.commits| > 0
    ensures r.status.Failed? ==> r.status == Failed("Expected at least one commit present") {
    }
  }

  // ---------------------------------------------------------------------
  // The head commit's message

  const HeadCommitHeading: string := "Unexpected commit message."

  /** As written: the read `Commits[0].Name`, which is a Go runtime panic
      (None) when the commit list is empty at that moment. */
  function HeadCommitNameAsWritten(world: World): (read: nat -> Option<string>)
    ensures forall t :: read(t).None? <==> |world(t).gui.model.commits| == 0
  {
    (t: nat) => var commits := world(t).gui.model.commits;
      if |commits| > 0 then Some(commits[0].name) else None
  }

  /** Corrected head-commit probe: an empty commit list is a failed attempt
      (retried like any other), not an abort; otherwise it is matchString's
      probe on the head commit's name. */
  function HeadCommitProbe(world: World, m: Matcher): (p: Probe)
    ensures forall t :: p(t).passed <==>
      |world(t).gui.model.commits| > 0 && m.Test(world(t).gui.model.commits[0].name).passed
    ensures forall t :: |world(t).gui.model.commits| > 0 ==>
      p(t) == MatchProbe(m, HeadCommitHeading, HeadNameOr(world, ""))(t)
    ensures forall t :: HeadCommitHeading <= p(t).message
  {
    (t: nat) => var commits := world(t).gui.model.commits;
      if |commits| > 0 then m.Context(HeadCommitHeading).Test(commits[0].name)
      else Verdict(false, HeadCommitHeading + " No commit is present")
  }

  /** The head commit's name, or `fallback` when there is none. */
  function HeadNameOr(world: World, fallback: string): nat -> string {
    (t: nat) => var commits := world(t).gui.model.commits;
      if |commits| > 0 then commits[0].name else fallback
  }

  /** Where the head read as written succeeds, the corrected probe is the
      evaluation matchString makes on the name read; and the corrected probe
      passes only there. */
  lemma HeadReadAgrees(world: World, m: Matcher, t: nat)
    ensures var read := HeadCommitNameAsWritten(world)(t);
      read.Some? ==> HeadCommitProbe(world, m)(t) == m.Context(HeadCommitHeading).Test(read.value)
    ensures HeadCommitProbe(world, m)(t).passed ==> HeadCommitNameAsWritten(world)(t).Some?
  {
  }

  /** First waits for a commit to be present, then matches the head
      commit's name in a loop of its own, started when the first passed. */
  method HeadCommitMessage(world: World, m: Matcher, start: nat) returns (r: Report)
    ensures var present := RetrySpec(AnyCommitProbe(world, "Expected at least one commit to be present"), start);
      r == Then(present, RetrySpec(HeadCommitProbe(world, m), present.clock))
    ensures var present := RetrySpec(AnyCommitProbe(world, "Expected at least one commit to be present"), start);
      r.status.Passed? <==>
        && (exists k :: 0 <= k < |WaitTimes| && |world(AttemptTime(start, k)).gui.model.commits| > 0)
        && (exists k :: 0 <= k < |WaitTimes| &&
              var commits := world(AttemptTime(present.clock, k)).gui.model.commits;
              |commits| > 0 && m.Test(commits[0].name).passed)
  {
    var present := AnyCommitProbe(world, "Expected at least one commit to be present");
    r := AssertWithRetries(present, start);
    forall k | 0 <= k < |WaitTimes|
      ensures PassesAt(present, start, k) <==> |world(AttemptTime(start, k)).gui.model.commits| > 0
    {
    }
    var head := HeadCommitProbe(world, m);
    var clock := r.clock;
    forall k | 0 <= k < |WaitTimes|
      ensures PassesAt(head, clock, k) <==>
        var commits := world(AttemptTime(clock, k)).gui.model.commits; |commits| > 0 && m.Test(commits[0].name).passed
    {
    }
    RetryPassesIff(head, clock);
    if r.status.Passed? {
      var name := AssertWithRetries(head, clock);
      r := Then(r, name);
    }
  }

  // ---------------------------------------------------------------------
  // Single-value assertions

  method CurrentViewName(world: World, expectedViewName: string, start: nat) returns (r: Report)
    ensures r == RetrySpec(NameProbe(CurrentViewNameOf(world), expectedViewName, "current view name"), start)
    ensures r.status.Passed? <==>
      exists k :: 0 <= k < |WaitTimes| && world(AttemptTime(start, k)).gui.currentContext.view.name == expectedViewName
  {
    var p := NameProbe(CurrentViewNameOf(world), expectedViewName, "current view name");
    r := AssertWithRetries(p, start);
    forall k | 0 <= k < |WaitTimes| ensures PassesAt(p, start, k) <==> world(AttemptTime(start, k)).gui.currentContext.view.name == expectedViewName {
    }
  }

  /** As written, this compares the focused VIEW's name; only the wording
      of the diagnostic differs from CurrentViewName. */
  method CurrentWindowName(world: World, expectedWindowName: string, start: nat) returns (r: Report)
    ensures r == RetrySpec(NameProbe(CurrentViewNameOf(world), expectedWindowName, "current window name"), start)
    ensures r.status.Passed? <==>
      exists k :: 0 <= k < |WaitTimes| && world(AttemptTime(start, k)).gui.currentContext.view.name == expectedWindowName
  {
    var p := NameProbe(CurrentViewNameOf(world), expectedWindowName, "current window name");
    r := AssertWithRetries(p, start);
    forall k | 0 <= k < |WaitTimes| ensures PassesAt(p, start, k) <==> world(AttemptTime(start, k)).gui.currentContext.view.name == expectedWindowName {
    }
  }

  method CurrentBranchName(world: World, expectedViewName: string, start: nat) returns (r: Report)
    ensures r == RetrySpec(NameProbe(CheckedOutRefOf(world), expectedViewName, "current branch name"), start)
    ensures r.status.Passed? <==>
      exists k :: 0 <= k < |WaitTimes| && world(AttemptTime(start, k)).gui.checkedOutRef == expectedViewName
  {
    var p := NameProbe(CheckedOutRefOf(world), expectedViewName, "current branch name");
    r := AssertWithRetries(p, start);
    forall k | 0 <= k < |WaitTimes| ensures PassesAt(p, start, k) <==> world(AttemptTime(start, k)).gui.checkedOutRef == expectedViewName {
    }
  }

  method InListContext(world: World, start: nat) returns (r: Report)
    ensures r == RetrySpec(ListContextProbe(world), start)
    ensures r.status.Passed? <==>
      exists k :: 0 <= k < |WaitTimes| && world(AttemptTime(start, k)).gui.currentContext.isListContext
  {
    var p := ListContextProbe(world);
    r := AssertWithRetries(p, start);
    forall k | 0 <= k < |WaitTimes| ensures PassesAt(p, start, k) <==> world(AttemptTime(start, k)).gui.currentContext.isListContext {
    }
  }

  method SelectedLine(world: World, m: Matcher, start: nat) returns (r: Report)
    ensures r == RetrySpec(MatchProbe(m, "Unexpected selected line.", SelectedLineOf(world)), start)
    ensures r.status.Passed? <==>
      exists k :: 0 <= k < |WaitTimes| && m.Test(world(AttemptTime(start, k)).gui.currentContext.view.selectedLine).passed
  {
    var getValue := SelectedLineOf(world);
    r := MatchString(m, "Unexpected selected line.", getValue, start);
    forall k | 0 <= k < |WaitTimes| ensures getValue(AttemptTime(start, k)) == world(AttemptTime(start, k)).gui.currentContext.view.selectedLine {
    }
  }

  method SelectedLineIdx(world: World, expected: int, start: nat) returns (r: Report)
    ensures r == RetrySpec(SelectedIndexProbe(world, expected), start)
    ensures r.status.Passed? <==>
      exists k :: 0 <= k < |WaitTimes| && world(AttemptTime(start, k)).gui.currentContext.view.selectedLineIdx == expected
  {
    var p := SelectedIndexProbe(world, expected);
    r := AssertWithRetries(p, start);
    forall k | 0 <= k < |WaitTimes| ensures PassesAt(p, start, k) <==> world(AttemptTime(start, k)).gui.currentContext.view.selectedLineIdx == expected {
    }
  }

  method CurrentViewTitle(world: World, m: Matcher, start: nat) returns (r: Report)
    ensures r == RetrySpec(MatchProbe(m, "Unexpected current view title.", CurrentViewTitleOf(world)), start)
    ensures r.status.Passed? <==>
      exists k :: 0 <= k < |WaitTimes| && m.Test(world(AttemptTime(start, k)).gui.currentContext.view.title).passed
  {
    var getValue := CurrentViewTitleOf(world);
    r := MatchString(m, "Unexpected current view title.", getValue, start);
    forall k | 0 <= k < |WaitTimes| ensures getValue(AttemptTime(start, k)) == world(AttemptTime(start, k)).gui.currentContext.view.title {
    }
  }

  function ViewHeading(viewName: string): string {
    "Unexpected content in view '" + viewName + "'."
  }

  method ViewContent(world: World, viewName: string, m: Matcher, start: nat) returns (r: Report)
    ensures r == RetrySpec(MatchProbe(m, ViewHeading(viewName), ViewBufferOf(world, viewName)), start)
    ensures r.status.Passed? <==>
      exists k :: 0 <= k < |WaitTimes| && m.Test(world(AttemptTime(start, k)).gui.viewNamed(viewName).buffer).passed
  {
    var getValue := ViewBufferOf(world, viewName);
    r := MatchString(m, ViewHeading(viewName), getValue, start);
    forall k | 0 <= k < |WaitTimes| ensures getValue(AttemptTime(start, k)) == world(AttemptTime(start, k)).gui.viewNamed(viewName).buffer {
    }
  }

  method CurrentViewContent(world: World, m: Matcher, start: nat) returns (r: Report)
    ensures r == RetrySpec(MatchProbe(m, "Unexpected content in current view.", CurrentViewBufferOf(world)), start)
    ensures r.status.Passed? <==>
      exists k :: 0 <= k < |WaitTimes| && m.Test(world(AttemptTime(start, k)).gui.currentContext.view.buffer).passed
  {
    var getValue := CurrentViewBufferOf(world);
    r := MatchString(m, "Unexpected content in current view.", getValue, start);
    forall k | 0 <= k < |WaitTimes| ensures getValue(AttemptTime(start, k)) == world(AttemptTime(start, k)).gui.currentContext.view.buffer {
    }
  }

  method MainViewContent(world: World, m: Matcher, start: nat) returns (r: Report)
    ensures r == RetrySpec(MatchProbe(m, "Unexpected main view content.", MainViewBufferOf(world)), start)
    ensures r.status.Passed? <==>
      exists k :: 0 <= k < |WaitTimes| && m.Test(world(AttemptTime(start, k)).gui.mainView.buffer).passed
  {
    var getValue := MainViewBufferOf(world);
    r := MatchString(m, "Unexpected main view content.", getValue, start);
    forall k | 0 <= k < |WaitTimes| ensures getValue(AttemptTime(start, k)) == world(AttemptTime(start, k)).gui.mainView.buffer {
    }
  }

  /** The heading reads "title" although the buffer is what is matched. */
  method SecondaryViewContent(world: World, m: Matcher, start: nat) returns (r: Report)
    ensures r == RetrySpec(MatchProbe(m, "Unexpected secondary view title.", SecondaryViewBufferOf(world)), start)
    ensures r.status.Passed? <==>
      exists k :: 0 <= k < |WaitTimes| && m.Test(world(AttemptTime(start, k)).gui.secondaryView.buffer).passed
  {
    var getValue := SecondaryViewBufferOf(world);
    r := MatchString(m, "Unexpected secondary view title.", getValue, start);
    forall k | 0 <= k < |WaitTimes| ensures getValue(AttemptTime(start, k)) == world(AttemptTime(start, k)).gui.secondaryView.buffer {
    }
  }

  // ---------------------------------------------------------------------
  // Popup assertions

  method InPrompt(world: World, start: nat) returns (r: Report)
    ensures r == RetrySpec(FocusProbe(world, IsPromptView, "Expected prompt popup to be focused"), start)
    ensures r.status.Passed? <==> exists k :: (0 <= k < |WaitTimes| &&
      var v := world(AttemptTime(start, k)).gui.currentContext.view; v.name == ConfirmationView && v.editable)
  {
    var p := FocusProbe(world, IsPromptView, "Expected prompt popup to be focused");
    r := AssertWithRetries(p, start);
    forall k | 0 <= k < |WaitTimes| ensures PassesAt(p, start, k) <==> var v := world(AttemptTime(start, k)).gui.currentContext.view; v.name == ConfirmationView && v.editable {
    }
  }

  method InConfirm(world: World, start: nat) returns (r: Report)
    ensures r == RetrySpec(FocusProbe(world, IsConfirmView, "Expected confirmation popup to be focused"), start)
    ensures r.status.Passed? <==> exists k :: (0 <= k < |WaitTimes| &&
      var v := world(AttemptTime(start, k)).gui.currentContext.view; v.name == ConfirmationView && !v.editable)
  {
    var p := FocusProbe(world, IsConfirmView, "Expected confirmation popup to be focused");
    r := AssertWithRetries(p, start);
    forall k | 0 <= k < |WaitTimes| ensures PassesAt(p, start, k) <==> var v := world(AttemptTime(start, k)).gui.currentContext.view; v.name == ConfirmationView && !v.editable {
    }
  }

  method InAlert(world: World, start: nat) returns (r: Report)
    ensures r == RetrySpec(FocusProbe(world, IsAlertView, "Expected alert popup to be focused"), start)
    ensures r.status.Passed? <==> exists k :: (0 <= k < |WaitTimes| &&
      var v := world(AttemptTime(start, k)).gui.currentContext.view; v.name == ConfirmationView && !v.editable)
  {
    var p := FocusProbe(world, IsAlertView, "Expected alert popup to be focused");
    r := AssertWithRetries(p, start);
    forall k | 0 <= k < |WaitTimes| ensures PassesAt(p, start, k) <==> var v := world(AttemptTime(start, k)).gui.currentContext.view; v.name == ConfirmationView && !v.editable {
    }
  }

  method InCommitMessagePanel(world: World, start: nat) returns (r: Report)
    ensures r == RetrySpec(FocusProbe(world, IsCommitMessagePanelView, "Expected commit message panel to be focused"), start)
    ensures r.status.Passed? <==> exists k :: (0 <= k < |WaitTimes| &&
      world(AttemptTime(start, k)).gui.currentContext.view.name == CommitMessageView)
  {
    var p := FocusProbe(world, IsCommitMessagePanelView, "Expected commit message panel to be focused");
    r := AssertWithRetries(p, start);
    forall k | 0 <= k < |WaitTimes| ensures PassesAt(p, start, k) <==> world(AttemptTime(start, k)).gui.currentContext.view.name == CommitMessageView {
    }
  }

  method InMenu(world: World, start: nat) returns (r: Report)
    ensures r == RetrySpec(FocusProbe(world, IsMenuView, "Expected popup menu to be focused"), start)
    ensures r.status.Passed? <==> exists k :: (0 <= k < |WaitTimes| &&
      world(AttemptTime(start, k)).gui.currentContext.view.name == MenuView)
  {
    var p := FocusProbe(world, IsMenuView, "Expected popup menu to be focused");
    r := AssertWithRetries(p, start);
    forall k | 0 <= k < |WaitTimes| ensures PassesAt(p, start, k) <==> world(AttemptTime(start, k)).gui.currentContext.view.name == MenuView {
    }
  }

  method NotInPopup(world: World, start: nat) returns (r: Report)
    ensures r == RetrySpec(FocusProbe(world, IsOutsidePopup, "Expected popup not to be focused"), start)
    ensures r.status.Passed? <==> exists k :: (0 <= k < |WaitTimes| &&
      var name := world(AttemptTime(start, k)).gui.currentContext.view.name;
      name != MenuView && name != ConfirmationView && name != CommitMessageView)
  {
    var p := FocusProbe(world, IsOutsidePopup, "Expected popup not to be focused");
    r := AssertWithRetries(p, start);
    forall k | 0 <= k < |WaitTimes| ensures PassesAt(p, start, k) <==> var name := world(AttemptTime(start, k)).gui.currentContext.view.name;
      name != MenuView && name != ConfirmationView && name != CommitMessageView {
    }
  }

  /** InAlert and InConfirm behave identically: same outcome kind, same
      number of evaluations, same time taken; only the failure wording differs. */
  lemma AlertIsConfirm(world: World, start: nat)
    ensures var alert := RetrySpec(FocusProbe(world, IsAlertView, "Expected alert popup to be focused"), start);
      var confirm := RetrySpec(FocusProbe(world, IsConfirmView, "Expected confirmation popup to be focused"), start);
      && alert.status.Passed? == confirm.status.Passed?
      && alert.evaluations == confirm.evaluations
      && alert.clock == confirm.clock
  {
    RetryAgrees(FocusProbe(world, IsAlertView, "Expected alert popup to be focused"),
      FocusProbe(world, IsConfirmView, "Expected confirmation popup to be focused"), start);
  }

  // ---------------------------------------------------------------------
  // Multi-line view assertions

  /** The number of lines of the named view is the expected one (or, for
      the "top lines" variant, at least that); the diagnostic reports the
      expected and the observed number. */
  function LineCountProbe(world: World, viewName: string, expected: nat, atLeast: bool): (p: Probe)
    ensures forall t :: p(t).passed <==>
      var n := |world(t).gui.viewNamed(viewName).lines|;
      if atLeast then n >= expected else n == expected
    ensures forall t :: (IsSubstring(Decimal(expected), p(t).message)
      && IsSubstring(Decimal(|world(t).gui.viewNamed(viewName).lines|), p(t).message))
  {
    forall t ensures
      var msg := Fill(LineCountLead(atLeast), Decimal(expected), ", got ", Decimal(|world(t).gui.viewNamed(viewName).lines|), "");
      IsSubstring(Decimal(expected), msg) && IsSubstring(Decimal(|world(t).gui.viewNamed(viewName).lines|), msg)
    {
      FillNamesBoth(LineCountLead(atLeast), Decimal(expected), ", got ", Decimal(|world(t).gui.viewNamed(viewName).lines|), "");
    }
    (t: nat) => var n := |world(t).gui.viewNamed(viewName).lines|;
      Verdict(if atLeast then n >= expected else n == expected,
        Fill(LineCountLead(atLeast), Decimal(expected), ", got ", Decimal(n), ""))
  }

  /** The text of the count diagnostic before the expected number. */
  function LineCountLead(atLeast: bool): string {
    if atLeast then "unexpected number of lines in view. Expected at least "
    else "unexpected number of lines in view. Expected "
  }

  /** As written: the read `BufferLines()[i]`, which is a Go runtime panic
      (None) when the view has no line `i` at that moment. */
  function LineReadAsWritten(world: World, viewName: string, i: nat): (read: nat -> Option<string>)
    ensures forall t :: read(t).None? <==> |world(t).gui.viewNamed(viewName).lines| <= i
    ensures forall t :: read(t).Some? ==> read(t).value == world(t).gui.viewNamed(viewName).lines[i]
  {
    (t: nat) => var lines := world(t).gui.viewNamed(viewName).lines;
      if i < |lines| then Some(lines[i]) else None
  }

  /** Corrected per-line probe: a missing line is a failed attempt (retried
      like any other), not an abort; otherwise it is matchString's probe on
      line `i`. */
  function LineProbe(world: World, viewName: string, i: nat, m: Matcher): (p: Probe)
    ensures forall t :: p(t).passed <==>
      var lines := world(t).gui.viewNamed(viewName).lines; i < |lines| && m.Test(lines[i]).passed
    ensures forall t :: ViewHeading(viewName) <= p(t).message
  {
    (t: nat) => var lines := world(t).gui.viewNamed(viewName).lines;
      if i < |lines| then m.Context(ViewHeading(viewName)).Test(lines[i])
      else Verdict(false, ViewHeading(viewName) + " The view has no line " + Decimal(i))
  }

  /** Where the read as written succeeds, the corrected probe is exactly the
      evaluation matchString makes on the line read; and the corrected probe
      passes only there. The two differ only at the readings where the code
      as written aborts. */
  lemma LineReadAgrees(world: World, viewName: string, i: nat, m: Matcher, t: nat)
    ensures var read := LineReadAsWritten(world, viewName, i)(t);
      read.Some? ==> LineProbe(world, viewName, i, m)(t) == m.Context(ViewHeading(viewName)).Test(read.value)
    ensures LineProbe(world, viewName, i, m)(t).passed ==> LineReadAsWritten(world, viewName, i)(t).Some?
  {
  }

  /** The view has at least `n` lines at every reading from `from` on. */
  ghost predicate NeverShorter(world: World, viewName: string, n: nat, from: nat) {
    forall t :: from <= t ==> n <= |world(t).gui.viewNamed(viewName).lines|
  }

  /** A per-line loop started at `clock` or later, on a view that keeps at
      least as many lines as there are matchers from `from` on, never
      reaches the aborting read as written: at every attempt the read
      succeeds and the corrected probe is what the code as written
      evaluates. */
  lemma AsWrittenLineLoopSafe(world: World, viewName: string, matchers: seq<Matcher>, i: nat, from: nat, clock: nat)
    requires i < |matchers| && from <= clock
    requires NeverShorter(world, viewName, |matchers|, from)
    ensures forall k :: 0 <= k < |WaitTimes| ==>
      var read := LineReadAsWritten(world, viewName, i)(AttemptTime(clock, k));
      && read.Some?
      && LineProbe(world, viewName, i, matchers[i])(AttemptTime(clock, k)) == matchers[i].Context(ViewHeading(viewName)).Test(read.value)
  {
    forall k | 0 <= k < |WaitTimes|
      ensures var read := LineReadAsWritten(world, viewName, i)(AttemptTime(clock, k));
        && read.Some?
        && LineProbe(world, viewName, i, matchers[i])(AttemptTime(clock, k)) == matchers[i].Context(ViewHeading(viewName)).Test(read.value)
    {
      AttemptTimeBounds(clock, 0, k);
      LineReadAgrees(world, viewName, i, matchers[i], AttemptTime(clock, k));
    }
  }

  /** Reference definition of the per-line loops from line `i` on, the
      first started at `clock` and each later one when the one before it
      passed; the first failure ends everything. */
  function LinesFrom(world: World, viewName: string, matchers: seq<Matcher>, i: nat, clock: nat): Report
    requires i <= |matchers|
    decreases |matchers| - i
  {
    if i == |matchers| then Report(Passed, 0, clock)
    else
      var line := RetrySpec(LineProbe(world, viewName, i, matchers[i]), clock);
      Then(line, LinesFrom(world, viewName, matchers, i + 1, line.clock))
  }

  /** Reference definition of ViewLines (`atLeast` false) and ViewTopLines
      (`atLeast` true): the count loop, then the per-line loops. */
  function LinesSpec(world: World, viewName: string, matchers: seq<Matcher>, atLeast: bool, start: nat): Report {
    var count := RetrySpec(LineCountProbe(world, viewName, |matchers|, atLeast), start);
    Then(count, LinesFrom(world, viewName, matchers, 0, count.clock))
  }

  /** The loop shared by ViewLines and ViewTopLines. */
  method AssertLines(world: World, viewName: string, matchers: seq<Matcher>, atLeast: bool, start: nat) returns (r: Report)
    ensures r == LinesSpec(world, viewName, matchers, atLeast, start)
  {
    r := AssertWithRetries(LineCountProbe(world, viewName, |matchers|, atLeast), start);
    var i := 0;
    while i < |matchers| && r.status.Passed?
      invariant 0 <= i <= |matchers|
      invariant r.status.Passed? ==>
        Then(r, LinesFrom(world, viewName, matchers, i, r.clock)) == LinesSpec(world, viewName, matchers, atLeast, start)
      invariant r.status.Failed? ==> r == LinesSpec(world, viewName, matchers, atLeast, start)
      decreases |matchers| - i
    {
      var line := AssertWithRetries(LineProbe(world, viewName, i, matchers[i]), r.clock);
      r := Then(r, line);
      i := i + 1;
    }
  }

  method ViewLines(world: World, viewName: string, matchers: seq<Matcher>, start: nat) returns (r: Report)
    ensures r == LinesSpec(world, viewName, matchers, false, start)
    ensures r.status.Passed? ==> LinesObserved(world, viewName, matchers, start, r.clock)
  {
    r := AssertLines(world, viewName, matchers, false, start);
    LinesSound(world, viewName, matchers, false, start);
  }

  method ViewTopLines(world: World, viewName: string, matchers: seq<Matcher>, start: nat) returns (r: Report)
    ensures r == LinesSpec(world, viewName, matchers, true, start)
    ensures r.status.Passed? ==> LinesObserved(world, viewName, matchers, start, r.clock)
  {
    r := AssertLines(world, viewName, matchers, true, start);
    LinesSound(world, viewName, matchers, true, start);
  }

  /** The focused view's name is read once, when the call starts. */
  method CurrentViewLines(world: World, matchers: seq<Matcher>, start: nat) returns (r: Report)
    ensures r == LinesSpec(world, world(start).gui.currentContext.view.name, matchers, false, start)
  {
    r := ViewLines(world, world(start).gui.currentContext.view.name, matchers, start);
  }

  method CurrentViewTopLines(world: World, matchers: seq<Matcher>, start: nat) returns (r: Report)
    ensures r == LinesSpec(world, world(start).gui.currentContext.view.name, matchers, true, start)
  {
    r := ViewTopLines(world, world(start).gui.currentContext.view.name, matchers, start);
  }

  /** Line `j` of the view exists at reading `t` and satisfies its matcher. */
  ghost predicate SeenMatching(world: World, viewName: string, matchers: seq<Matcher>, j: nat, t: nat)
    requires j < |matchers|
  {
    var lines := world(t).gui.viewNamed(viewName).lines;
    j < |lines| && matchers[j].Test(lines[j]).passed
  }

  /** Every line `j` from `from` on was seen satisfying its matcher at some
      moment between `start` and `end`. */
  ghost predicate LinesObservedFrom(world: World, viewName: string, matchers: seq<Matcher>, from: nat, start: nat, end: nat) {
    forall j :: from <= j < |matchers| ==> LineSeen(world, viewName, matchers, j, start, end)
  }

  /** Line `j` was seen satisfying its matcher at some moment between
      `start` and `end`. */
  ghost predicate LineSeen(world: World, viewName: string, matchers: seq<Matcher>, j: nat, start: nat, end: nat)
    requires j < |matchers|
  {
    exists t :: start <= t <= end && SeenMatching(world, viewName, matchers, j, t)
  }

  ghost predicate LinesObserved(world: World, viewName: string, matchers: seq<Matcher>, start: nat, end: nat) {
    LinesObservedFrom(world, viewName, matchers, 0, start, end)
  }

  /** The per-line loops never move the clock backwards. */
  lemma {:induction false} LinesFromClock(world: World, viewName: string, matchers: seq<Matcher>, i: nat, clock: nat)
    requires i <= |matchers|
    ensures clock <= LinesFrom(world, viewName, matchers, i, clock).clock
    decreases |matchers| - i
  {
    if i < |matchers| {
      var p := LineProbe(world, viewName, i, matchers[i]);
      RetryBounds(p, clock);
      LinesFromClock(world, viewName, matchers, i + 1, RetrySpec(p, clock).clock);
    }
  }

  /** Per-line loops that pass from line `i` on saw each of those lines
      match at a moment within their run. */
  lemma {:induction false} LinesFromSound(world: World, viewName: string, matchers: seq<Matcher>, i: nat, clock: nat)
    requires i <= |matchers|
    ensures LinesFrom(world, viewName, matchers, i, clock).status.Passed? ==>
      LinesObservedFrom(world, viewName, matchers, i, clock, LinesFrom(world, viewName, matchers, i, clock).clock)
    decreases |matchers| - i
  {
    if i < |matchers| {
      var p := LineProbe(world, viewName, i, matchers[i]);
      var line := RetrySpec(p, clock);
      var rest := LinesFrom(world, viewName, matchers, i + 1, line.clock);
      var whole := LinesFrom(world, viewName, matchers, i, clock);
      if whole.status.Passed? {
        RetryBounds(p, clock);
        RetryPassedAtClock(p, clock);
        LinesFromClock(world, viewName, matchers, i + 1, line.clock);
        LinesFromSound(world, viewName, matchers, i + 1, line.clock);
        assert line.status.Passed? && rest.status.Passed? && whole.clock == rest.clock;
        assert SeenMatching(world, viewName, matchers, i, line.clock);
        forall j | i <= j < |matchers|
          ensures LineSeen(world, viewName, matchers, j, clock, whole.clock)
        {
          if j == i {
            assert clock <= line.clock <= whole.clock;
          } else {
            assert LineSeen(world, viewName, matchers, j, line.clock, rest.clock);
            var t :| line.clock <= t <= rest.clock && SeenMatching(world, viewName, matchers, j, t);
            assert clock <= t <= whole.clock;
          }
        }
      }
    }
  }

  /** A passing ViewLines or ViewTopLines saw every line match at some
      moment within its run. */
  lemma LinesSound(world: World, viewName: string, matchers: seq<Matcher>, atLeast: bool, start: nat)
    ensures var r := LinesSpec(world, viewName, matchers, atLeast, start);
      r.status.Passed? ==> LinesObserved(world, viewName, matchers, start, r.clock)
  {
    var count := RetrySpec(LineCountProbe(world, viewName, |matchers|, atLeast), start);
    var lines := LinesFrom(world, viewName, matchers, 0, count.clock);
    var r := Then(count, lines);
    if r.status.Passed? {
      RetryBounds(LineCountProbe(world, viewName, |matchers|, atLeast), start);
      LinesFromSound(world, viewName, matchers, 0, count.clock);
      forall j | 0 <= j < |matchers| ensures LineSeen(world, viewName, matchers, j, start, r.clock) {
        assert LineSeen(world, viewName, matchers, j, count.clock, lines.clock);
      }
    }
  }

  /** The per-line loops for lines `i` to `j - 1` only, the first started
      at `clock` and each later one when the one before it passed. */
  function LinesUpTo(world: World, viewName: string, matchers: seq<Matcher>, i: nat, j: nat, clock: nat): Report
    requires i <= j <= |matchers|
    decreases j - i
  {
    if i == j then Report(Passed, 0, clock)
    else
      var line := RetrySpec(LineProbe(world, viewName, i, matchers[i]), clock);
      Then(line, LinesUpTo(world, viewName, matchers, i + 1, j, line.clock))
  }

  /** `r` is what the chain from line `i` reports when line `j` is the
      first to fail: the loops for lines `i` to `j - 1` all passed, the loop
      for line `j` started when they ended and failed after its whole
      schedule, and the report is theirs followed by that loop's and
      nothing else. */
  ghost predicate FirstLineFailure(world: World, viewName: string, matchers: seq<Matcher>, i: nat, j: nat, clock: nat, r: Report)
    requires i <= j < |matchers|
  {
    var before := LinesUpTo(world, viewName, matchers, i, j, clock);
    var failing := RetrySpec(LineProbe(world, viewName, j, matchers[j]), before.clock);
    && before.status.Passed?
    && failing.status.Failed?
    && failing.clock == before.clock + 7880
    && r == Then(before, failing)
  }

  /** Some line from `i` on is the first failing line of the chain `r`. */
  ghost predicate FailsAtSomeLine(world: World, viewName: string, matchers: seq<Matcher>, i: nat, clock: nat, r: Report) {
    exists j :: i <= j < |matchers| && FirstLineFailure(world, viewName, matchers, i, j, clock, r)
  }

  /** The first failing per-line loop ends the chain: its diagnostic, which
      starts with the view heading, is the one reported, and no loop after
      it runs. */
  lemma {:induction false} LinesFromFailure(world: World, viewName: string, matchers: seq<Matcher>, i: nat, clock: nat)
    requires i <= |matchers|
    ensures var r := LinesFrom(world, viewName, matchers, i, clock);
      r.status.Failed? ==> FailsAtSomeLine(world, viewName, matchers, i, clock, r) && ViewHeading(viewName) <= r.status.message
    decreases |matchers| - i
  {
    if i < |matchers| {
      var line := RetrySpec(LineProbe(world, viewName, i, matchers[i]), clock);
      if line.status.Failed? {
        FailingLineIsFirst(world, viewName, matchers, i, clock);
      } else {
        LinesFromFailure(world, viewName, matchers, i + 1, line.clock);
        PassingLineCase(world, viewName, matchers, i, clock);
      }
      FailureHeading(world, viewName, matchers, i, clock, LinesFrom(world, viewName, matchers, i, clock));
    }
  }

  /** The step of LinesFromFailure for a passing loop on line `i`. */
  lemma PassingLineCase(world: World, viewName: string, matchers: seq<Matcher>, i: nat, clock: nat)
    requires i < |matchers|
    requires var line := RetrySpec(LineProbe(world, viewName, i, matchers[i]), clock);
      var rest := LinesFrom(world, viewName, matchers, i + 1, line.clock);
      && line.status.Passed?
      && (rest.status.Failed? ==> FailsAtSomeLine(world, viewName, matchers, i + 1, line.clock, rest))
    ensures var r := LinesFrom(world, viewName, matchers, i, clock);
      r.status.Failed? ==> FailsAtSomeLine(world, viewName, matchers, i, clock, r)
  {
    var line := RetrySpec(LineProbe(world, viewName, i, matchers[i]), clock);
    var rest := LinesFrom(world, viewName, matchers, i + 1, line.clock);
    var r := LinesFrom(world, viewName, matchers, i, clock);
    assert r == Then(line, rest);
    if r.status.Failed? {
      var j :| i + 1 <= j < |matchers| && FirstLineFailure(world, viewName, matchers, i + 1, j, line.clock, rest);
      PassingLineExtends(world, viewName, matchers, i, j, clock);
    }
  }

  /** A chain that fails at some line reports a diagnostic headed with the
      view heading. */
  lemma FailureHeading(world: World, viewName: string, matchers: seq<Matcher>, i: nat, clock: nat, r: Report)
    ensures r.status.Failed? && FailsAtSomeLine(world, viewName, matchers, i, clock, r) ==> ViewHeading(viewName) <= r.status.message
  {
    if r.status.Failed? && FailsAtSomeLine(world, viewName, matchers, i, clock, r) {
      var j :| i <= j < |matchers| && FirstLineFailure(world, viewName, matchers, i, j, clock, r);
      FirstFailureHeading(world, viewName, matchers, i, j, clock, r);
    }
  }

  /** A failing loop for line `i` is the first failure of the chain from `i`. */
  lemma FailingLineIsFirst(world: World, viewName: string, matchers: seq<Matcher>, i: nat, clock: nat)
    requires i < |matchers|
    requires RetrySpec(LineProbe(world, viewName, i, matchers[i]), clock).status.Failed?
    ensures FirstLineFailure(world, viewName, matchers, i, i, clock, LinesFrom(world, viewName, matchers, i, clock))
  {
    RetryMeaning(LineProbe(world, viewName, i, matchers[i]), clock);
    assert LinesUpTo(world, viewName, matchers, i, i, clock) == Report(Passed, 0, clock);
  }

  /** A passing loop for line `i` in front of a chain whose first failure is
      line `j` leaves line `j` the first failure. */
  lemma PassingLineExtends(world: World, viewName: string, matchers: seq<Matcher>, i: nat, j: nat, clock: nat)
    requires i < j < |matchers|
    requires var line := RetrySpec(LineProbe(world, viewName, i, matchers[i]), clock);
      && line.status.Passed?
      && FirstLineFailure(world, viewName, matchers, i + 1, j, line.clock, LinesFrom(world, viewName, matchers, i + 1, line.clock))
    ensures FirstLineFailure(world, viewName, matchers, i, j, clock, LinesFrom(world, viewName, matchers, i, clock))
  {
    var line := RetrySpec(LineProbe(world, viewName, i, matchers[i]), clock);
    var before := LinesUpTo(world, viewName, matchers, i + 1, j, line.clock);
    var failing := RetrySpec(LineProbe(world, viewName, j, matchers[j]), before.clock);
    var rest := LinesFrom(world, viewName, matchers, i + 1, line.clock);
    var whole := LinesUpTo(world, viewName, matchers, i, j, clock);
    assert rest == Then(before, failing);
    assert LinesFrom(world, viewName, matchers, i, clock) == Then(line, rest);
    assert whole == Then(line, before);
    ThenAssociates(line, before, failing);
  }

  /** Chaining is associative once the first report passed. */
  lemma ThenAssociates(a: Report, b: Report, c: Report)
    requires a.status.Passed?
    ensures Then(a, Then(b, c)) == Then(Then(a, b), c)
    ensures Then(a, b).clock == b.clock && Then(a, b).status == b.status
  {
  }

  /** The failure reported at a first failure satisfies the failing line's
      probe's promise: it starts with the view heading. */
  lemma FirstFailureHeading(world: World, viewName: string, matchers: seq<Matcher>, i: nat, j: nat, clock: nat, r: Report)
    requires i <= j < |matchers| && FirstLineFailure(world, viewName, matchers, i, j, clock, r)
    ensures r.status.Failed? && ViewHeading(viewName) <= r.status.message
  {
    var before := LinesUpTo(world, viewName, matchers, i, j, clock);
    RetryMeaning(LineProbe(world, viewName, j, matchers[j]), before.clock);
  }

  /** What a failing ViewLines or ViewTopLines reports: the count loop's
      failure itself when the count never matched; otherwise the failure of
      the first per-line loop that failed, after the count loop and the
      loops before it passed, with nothing run after it. */
  lemma LinesFailureMessage(world: World, viewName: string, matchers: seq<Matcher>, atLeast: bool, start: nat)
    ensures var r := LinesSpec(world, viewName, matchers, atLeast, start);
      var count := RetrySpec(LineCountProbe(world, viewName, |matchers|, atLeast), start);
      && (count.status.Failed? ==> r == count)
      && (count.status.Passed? && r.status.Failed? ==>
        var lines := LinesFrom(world, viewName, matchers, 0, count.clock);
        && r == Then(count, lines)
        && FailsAtSomeLine(world, viewName, matchers, 0, count.clock, lines)
        && ViewHeading(viewName) <= r.status.message)
  {
    var count := RetrySpec(LineCountProbe(world, viewName, |matchers|, atLeast), start);
    LinesFromFailure(world, viewName, matchers, 0, count.clock);
  }

  /** When the count never matches, the assertion fails on the count loop
      alone: 16 evaluations, its diagnostic, and the matchers themselves are
      never consulted. */
  lemma CountCheckFirst(world: World, viewName: string, matchers: seq<Matcher>, others: seq<Matcher>, atLeast: bool, start: nat)
    requires |others| == |matchers|
    requires forall k :: 0 <= k < |WaitTimes| ==> !PassesAt(LineCountProbe(world, viewName, |matchers|, atLeast), start, k)
    ensures LinesSpec(world, viewName, matchers, atLeast, start) == RetrySpec(LineCountProbe(world, viewName, |matchers|, atLeast), start)
    ensures LinesSpec(world, viewName, matchers, atLeast, start) == LinesSpec(world, viewName, others, atLeast, start)
    ensures LinesSpec(world, viewName, matchers, atLeast, start).status.Failed?
    ensures LinesSpec(world, viewName, matchers, atLeast, start).evaluations == |WaitTimes|
  {
    RetryNeverPasses(LineCountProbe(world, viewName, |matchers|, atLeast), start);
  }

  /** Each per-line loop has its own full budget: the loops from line `i`
      on take at most 16 evaluations and the whole schedule each, a failing
      one always takes all of its budget, and passing ones at least one
      evaluation per line. */
  lemma {:induction false} LinesFromBudget(world: World, viewName: string, matchers: seq<Matcher>, i: nat, clock: nat)
    requires i <= |matchers|
    ensures var r := LinesFrom(world, viewName, matchers, i, clock);
      && r.evaluations <= (|matchers| - i) * 16
      && r.clock <= clock + (|matchers| - i) * 7880
      && (r.status.Passed? ==> r.evaluations >= |matchers| - i)
      && (r.status.Failed? ==> r.evaluations >= 16 && r.clock >= clock + 7880)
    decreases |matchers| - i
  {
    if i < |matchers| {
      var p := LineProbe(world, viewName, i, matchers[i]);
      var line := RetrySpec(p, clock);
      RetryBounds(p, clock);
      RetryMeaning(p, clock);
      LinesFromBudget(world, viewName, matchers, i + 1, line.clock);
    }
  }

  /** The worst case of an N-line assertion is N+1 whole schedules. */
  lemma LinesBudget(world: World, viewName: string, matchers: seq<Matcher>, atLeast: bool, start: nat)
    ensures var r := LinesSpec(world, viewName, matchers, atLeast, start);
      && r.evaluations <= (|matchers| + 1) * 16
      && start <= r.clock <= start + (|matchers| + 1) * 7880
  {
    var p := LineCountProbe(world, viewName, |matchers|, atLeast);
    var count := RetrySpec(p, start);
    RetryBounds(p, start);
    LinesFromBudget(world, viewName, matchers, 0, count.clock);
    LinesFromClock(world, viewName, matchers, 0, count.clock);
  }

  /** The view's lines match their matchers at every moment from `settle`
      on (and number exactly or at least as many as the matchers). */
  ghost predicate SettledBy(world: World, viewName: string, matchers: seq<Matcher>, atLeast: bool, settle: nat) {
    forall t :: settle <= t ==>
      var lines := world(t).gui.viewNamed(viewName).lines;
      && (if atLeast then |lines| >= |matchers| else |lines| == |matchers|)
      && forall i :: 0 <= i < |matchers| ==> i < |lines| && matchers[i].Test(lines[i]).passed
  }

  lemma {:induction false} LinesFromSettled(world: World, viewName: string, matchers: seq<Matcher>, atLeast: bool,
                                            settle: nat, i: nat, clock: nat)
    requires i <= |matchers|
    requires SettledBy(world, viewName, matchers, atLeast, settle) && settle <= clock + TotalWait()
    ensures LinesFrom(world, viewName, matchers, i, clock).status.Passed?
    decreases |matchers| - i
  {
    if i < |matchers| {
      var p := LineProbe(world, viewName, i, matchers[i]);
      forall t | settle <= t ensures p(t).passed {
        var lines := world(t).gui.viewNamed(viewName).lines;
        assert i < |lines| && matchers[i].Test(lines[i]).passed;
      }
      RetryPassesOnceSettled(p, clock, settle);
      RetryBounds(p, clock);
      LinesFromSettled(world, viewName, matchers, atLeast, settle, i + 1, RetrySpec(p, clock).clock);
    }
  }

  /** Eventual consistency: a view that settles into the expected lines
      within one schedule of the start passes, whatever it showed before,
      since every per-line loop starts no earlier than the count loop and
      runs at least until `settle`. */
  lemma SettledViewPasses(world: World, viewName: string, matchers: seq<Matcher>, atLeast: bool, start: nat, settle: nat)
    requires SettledBy(world, viewName, matchers, atLeast, settle) && settle <= start + TotalWait()
    ensures LinesSpec(world, viewName, matchers, atLeast, start).status.Passed?
  {
    var p := LineCountProbe(world, viewName, |matchers|, atLeast);
    forall t | settle <= t ensures p(t).passed {
    }
    RetryPassesOnceSettled(p, start, settle);
    RetryBounds(p, start);
    LinesFromSettled(world, viewName, matchers, atLeast, settle, 0, RetrySpec(p, start).clock);
  }

  // ---------------------------------------------------------------------
  // Filesystem assertions

  /** `os.Stat` succeeded; the diagnostic names the path. */
  function PathPresentProbe(world: World, path: string): (p: Probe)
    ensures forall t :: p(t).passed <==> world(t).stat(path) == Found
    ensures forall t :: IsSubstring(path, p(t).message)
  {
    FillNamesBoth("Expected path '", path, "' to exist, but it does not", "", "");
    (t: nat) => Verdict(world(t).stat(path) == Found, Fill("Expected path '", path, "' to exist, but it does not", "", ""))
  }

  /** `os.Stat` failed with a does-not-exist error; the diagnostic names
      the path. */
  function PathAbsentProbe(world: World, path: string): (p: Probe)
    ensures forall t :: p(t).passed <==> world(t).stat(path) == NotExist
    ensures forall t :: IsSubstring(path, p(t).message)
  {
    FillNamesBoth("Expected path '", path, "' to not exist, but it does", "", "");
    (t: nat) => Verdict(world(t).stat(path) == NotExist, Fill("Expected path '", path, "' to not exist, but it does", "", ""))
  }

  method FileSystemPathPresent(world: World, path: string, start: nat) returns (r: Report)
    ensures r == RetrySpec(PathPresentProbe(world, path), start)
    ensures r.status.Passed? <==> exists k :: 0 <= k < |WaitTimes| && world(AttemptTime(start, k)).stat(path) == Found
    ensures world(start).stat(path) == Found ==> r == Report(Passed, 1, start)
  {
    var p := PathPresentProbe(world, path);
    r := AssertWithRetries(p, start);
    forall k | 0 <= k < |WaitTimes| ensures PassesAt(p, start, k) <==> world(AttemptTime(start, k)).stat(path) == Found {
    }
    RetryPassesIff(p, start);
  }

  method FileSystemPathNotPresent(world: World, path: string, start: nat) returns (r: Report)
    ensures r == RetrySpec(PathAbsentProbe(world, path), start)
    ensures r.status.Passed? <==> exists k :: 0 <= k < |WaitTimes| && world(AttemptTime(start, k)).stat(path) == NotExist
    ensures world(start).stat(path) == NotExist ==> r == Report(Passed, 1, start)
  {
    var p := PathAbsentProbe(world, path);
    r := AssertWithRetries(p, start);
    forall k | 0 <= k < |WaitTimes| ensures PassesAt(p, start, k) <==> world(AttemptTime(start, k)).stat(path) == NotExist {
    }
    RetryPassesIff(p, start);
  }

  /** The two filesystem probes never pass together, and exactly one of
      them passes unless `os.Stat` fails for a reason other than absence. */
  lemma PathProbesComplementary(world: World, path: string, t: nat)
    ensures !(PathPresentProbe(world, path)(t).passed && PathAbsentProbe(world, path)(t).passed)
    ensures PathPresentProbe(world, path)(t).passed || PathAbsentProbe(world, path)(t).passed <==> !world(t).stat(path).StatError?
  {
  }
}
