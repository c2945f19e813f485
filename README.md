# lazygit integration-test assertion engine, modelled in Dafny

lazygit's integration tests drive the real application and then check what
it shows through the `Assert` object of `pkg/integration/components/assert.go`.
Every check there has the same shape. It builds a probe: one fresh read of the
application's state (the commit list, the focused view, a view's lines, a
path on disk), compared against an expectation. It then hands the probe to
`assertWithRetries`. That loop walks a fixed back-off schedule of 16 waits:
it sleeps, evaluates the probe, and returns at the first pass. When the
schedule runs out it hands the last diagnostic to the failure sink, which
ends the scenario.

The model has five modules, one file each:

- `matchers.dfy` (`Matchers`): the string matchers `Contains`, `NotContains`,
  `MatchesRegexp` and `Equals`. A matcher is a value pairing a description
  with a test that returns a pass flag and a diagnostic. Substring search is
  proved against a reference definition of "is a substring".
- `retry.dfy` (`Retry`): the schedule, the retry loop `AssertWithRetries` as
  an imperative method, and its reference function `RetrySpec`. Sleeping is
  an explicit millisecond clock. A call takes the reading at which it starts
  and reports the reading at which it returns, with the number of
  evaluations and the outcome. A probe is a function from clock reading to
  verdict, so "the value changes while we poll" is a probe whose verdict
  depends on the reading.
- `driver.dfy` (`Driver`): what the assertions read. The application's state
  is a deterministic function of the clock (`World`), one snapshot per
  reading.
- `assertions.dfy` (`Assertions`): every assertion of `Assert` as a method
  returning a `Report`, with its probe as a function. Each method is tied to
  `RetrySpec` of its probe and states when it passes in terms of the world.
  `ViewLines`/`ViewTopLines` run a count loop and then one loop per line;
  `Then` combines the reports of loops so that only the first failure is
  reported; the guards of `AssertLines` and `HeadCommitMessage` keep later
  loops from running once one failed.
- `scenarios.dfy` (`Scenarios`): concrete worlds. They show a count that
  never matches, a view that settles in time or too late, a value seen
  at the tenth attempt, a path whose `stat` errors, and the two reads that
  abort on a shrinking state (see Findings).

Some behaviours of the code that the model keeps exactly:

- The schedule `[0,1,1,1,1,1,5,10,20,40,100,200,500,1000,2000,4000]` sums to
  7880 ms.
- There are 16 sleeps, each before one of the 16 evaluations. The first
  sleep is 0 ms, so the first evaluation happens at the start.
- `FileSystemPathNotPresent` passes only on a does-not-exist error
  (`os.IsNotExist`). It is not the exact complement of
  `FileSystemPathPresent`: when `stat` fails for another reason, both fail
  (`Scenarios.StatErrorFailsBoth`).
- `CurrentWindowName` compares the focused view's name, exactly as
  `CurrentViewName` does; only its diagnostic differs.
- `SecondaryViewContent` matches the secondary view's buffer under the
  heading "Unexpected secondary view title.".
- `CurrentViewLines`/`CurrentViewTopLines` read the focused view's name once,
  when the call starts. Later focus changes do not redirect the line loops.

## Model

| member | source | states |
|---|---|---|
| Matchers.StringContains | pkg/integration/components/assert.go:28 | `strings.Contains(s, t)` is true exactly when `t` occurs somewhere in `s` |
| Matchers.Matcher.Context | pkg/integration/components/assert.go:287 | assumed behaviour of adding a heading: same description and pass flag on every value, diagnostic starts with the heading and still contains the original diagnostic |
| Matchers.NestedContexts | pkg/integration/components/assert.go:287 | any stack of headings keeps the receiver's pass flag and the outermost heading starts the diagnostic |
| Matchers.Contains | pkg/integration/components/assert.go:24-31 | passes on `v` iff the target is a substring of `v`; the diagnostic names both the target and `v` |
| Matchers.NotContains | pkg/integration/components/assert.go:33-40 | its pass flag is the negation of Contains' on every value, i.e. passes iff the target does not occur; the diagnostic names both |
| Matchers.MatchesRegexp | pkg/integration/components/assert.go:42-53 | passes iff the regular-expression engine reports a match; a compile error is a failed test whose diagnostic names the pattern and the error; otherwise the diagnostic names value and pattern |
| Matchers.Equals | pkg/integration/components/assert.go:55-62 | passes on `v` iff `v` equals the target; the diagnostic names both |
| Retry.ScheduleShape | pkg/integration/components/assert.go:292 | the schedule has 16 entries, starts with a 0 ms wait and each wait is at least the one before |
| Retry.ScheduleNonDecreasing | pkg/integration/components/assert.go:292 | any later wait is at least any earlier one |
| Retry.ScheduleTotal | pkg/integration/components/assert.go:292 | the waits sum to 7880 ms |
| Retry.TotalWait | pkg/integration/components/assert.go:292 | the whole schedule lasts 7880 ms |
| Retry.PrefixSumGrows | pkg/integration/components/assert.go:295-296 | a longer prefix of the schedule never sleeps less |
| Retry.AttemptTimes | pkg/integration/components/assert.go:295-299 | attempt k evaluates at start + 0, 1, 2, 3, 4, 5, 10, 20, 40, 80, 180, 380, 880, 1880, 3880, 7880 ms |
| Retry.AttemptTimeBounds | pkg/integration/components/assert.go:295-299 | attempts happen in order, the first at the start, the last one whole schedule after it |
| Retry.FirstPass | pkg/integration/components/assert.go:295-302 | the first passing attempt from index k on, with none passing before it; none iff no later attempt passes |
| Retry.Fail | pkg/integration/components/assert.go:309-311 | fails at once with the given message, evaluating nothing and not moving the clock |
| Retry.AssertWithRetries | pkg/integration/components/assert.go:291-306 | the loop's report equals the reference outcome: pass at the first passing attempt after k+1 evaluations and the first k+1 waits, else fail after 16 evaluations and 7880 ms with the last evaluation's message |
| Retry.RetryMeaning | pkg/integration/components/assert.go:291-306 | the reference outcome passes iff some attempt passes, with the pass and failure details above |
| Retry.RetryPassedAtClock | pkg/integration/components/assert.go:298-301 | a passing loop reports the reading of its passing evaluation |
| Retry.RetryPassesIff | pkg/integration/components/assert.go:295-302 | the loop passes iff some attempt passes, even after earlier failures; a probe passing at once gives one evaluation and no elapsed time |
| Retry.RetryFirstPassAt | pkg/integration/components/assert.go:295-302 | first pass at attempt k means exactly k+1 evaluations, the sum of the first k+1 waits slept, and no failure |
| Retry.RetryNeverPasses | pkg/integration/components/assert.go:294-305 | a probe that never passes gives exactly 16 evaluations, 7880 ms and one failure carrying the message of the evaluation at the last attempt |
| Retry.RetryBounds | pkg/integration/components/assert.go:291-306 | every loop takes 1 to 16 evaluations and at most 7880 ms |
| Retry.RetryPassesOnceSettled | pkg/integration/components/assert.go:295-302 | a probe that holds from some moment within one schedule of the start on makes the loop pass |
| Retry.FirstPassAgrees | pkg/integration/components/assert.go:295-302 | probes that pass at the same readings find the same first pass |
| Retry.RetryAgrees | pkg/integration/components/assert.go:291-306 | probes that pass at the same readings give the same outcome kind, evaluation count and clock |
| Assertions.CountProbe | pkg/integration/components/assert.go:64-95 | passes iff the live count equals the expected one; the diagnostic names both counts |
| Assertions.NameProbe | pkg/integration/components/assert.go:117-136 | passes iff the live name equals the expected one; the diagnostic names both |
| Assertions.ListContextProbe | pkg/integration/components/assert.go:138-144 | passes iff the focused context is a list context; the diagnostic names its key |
| Assertions.SelectedIndexProbe | pkg/integration/components/assert.go:154-159 | passes iff the selected index equals the expected one; the diagnostic names both numbers |
| Assertions.IsPromptView | pkg/integration/components/assert.go:161-166 | a prompt is the confirmation view that does not count as a confirmation, i.e. the editable one |
| Assertions.IsAlertView | pkg/integration/components/assert.go:175-181 | an alert is exactly a confirmation |
| Assertions.IsCommitMessagePanelView | pkg/integration/components/assert.go:183-188 | the commit message panel is neither a prompt, a confirmation nor a menu |
| Assertions.IsMenuView | pkg/integration/components/assert.go:190-194 | a menu is neither a prompt nor a confirmation |
| Assertions.IsOutsidePopup | pkg/integration/components/assert.go:196-201 | no popup is focused iff none of prompt, confirmation, menu or commit message panel applies |
| Assertions.MatchProbe | pkg/integration/components/assert.go:284-289 | each evaluation rereads the value and passes iff the matcher accepts it; the diagnostic starts with the heading |
| Assertions.MatchString | pkg/integration/components/assert.go:284-289 | passes iff the value read at some attempt satisfies the matcher; a failure's diagnostic starts with the heading |
| Assertions.LateMatchPasses | pkg/integration/components/assert.go:284-289 | a value satisfying the matcher at attempt k makes the assertion pass within k+1 evaluations, whatever earlier attempts saw |
| Assertions.MalformedRegexpFails | pkg/integration/components/assert.go:46-49 | a pattern that never compiles exhausts the schedule and fails after 16 evaluations |
| Assertions.WorkingTreeFileCount | pkg/integration/components/assert.go:64-73 | passes iff the changed-file count equals the expected one at some attempt |
| Assertions.CommitCount | pkg/integration/components/assert.go:75-84 | passes iff the commit count equals the expected one at some attempt |
| Assertions.StashCount | pkg/integration/components/assert.go:86-95 | passes iff the stash count equals the expected one at some attempt |
| Assertions.AtLeastOneCommit | pkg/integration/components/assert.go:97-103 | passes iff some attempt sees a commit; a failure carries the fixed message |
| Assertions.HeadCommitProbe | pkg/integration/components/assert.go:105-115 | corrected head-commit probe: passes iff a commit is present and the matcher accepts the head's name; where a commit exists it is matchString's probe |
| Assertions.HeadReadAgrees | pkg/integration/components/assert.go:110-114 | wherever the head read as written (`Commits[0].Name`) succeeds, the corrected probe is exactly matchString's evaluation on the name read, and it passes only there; the two differ only where the code as written aborts |
| Assertions.HeadCommitMessage | pkg/integration/components/assert.go:105-115 | a presence loop, then a name loop started when the first passed; passes iff some presence attempt sees a commit and some later name attempt sees a matching head |
| Assertions.CurrentViewName | pkg/integration/components/assert.go:117-122 | passes iff the focused view's name equals the expected one at some attempt |
| Assertions.CurrentWindowName | pkg/integration/components/assert.go:124-129 | passes iff the focused view's name (as written, not the window's) equals the expected one at some attempt |
| Assertions.CurrentBranchName | pkg/integration/components/assert.go:131-136 | passes iff the checked-out ref's name equals the expected one at some attempt |
| Assertions.InListContext | pkg/integration/components/assert.go:138-144 | passes iff the focused context is a list context at some attempt |
| Assertions.SelectedLine | pkg/integration/components/assert.go:146-152 | passes iff the selected line satisfies the matcher at some attempt |
| Assertions.SelectedLineIdx | pkg/integration/components/assert.go:154-159 | passes iff the selected index equals the expected one at some attempt |
| Assertions.InPrompt | pkg/integration/components/assert.go:161-166 | passes iff some attempt sees the confirmation view focused and editable |
| Assertions.InConfirm | pkg/integration/components/assert.go:168-173 | passes iff some attempt sees the confirmation view focused and not editable |
| Assertions.InAlert | pkg/integration/components/assert.go:175-181 | passes iff some attempt sees the confirmation view focused and not editable |
| Assertions.AlertIsConfirm | pkg/integration/components/assert.go:168-181 | InAlert and InConfirm agree on outcome kind, evaluation count and time taken |
| Assertions.InCommitMessagePanel | pkg/integration/components/assert.go:183-188 | passes iff some attempt sees the commit message view focused |
| Assertions.InMenu | pkg/integration/components/assert.go:190-194 | passes iff some attempt sees the menu view focused |
| Assertions.NotInPopup | pkg/integration/components/assert.go:196-201 | passes iff some attempt sees a focused view named neither menu, confirmation nor commitMessage |
| Assertions.CurrentViewTitle | pkg/integration/components/assert.go:203-209 | passes iff the focused view's title satisfies the matcher at some attempt |
| Assertions.ViewContent | pkg/integration/components/assert.go:211-217 | passes iff the named view's buffer satisfies the matcher at some attempt |
| Assertions.CurrentViewContent | pkg/integration/components/assert.go:260-266 | passes iff the focused view's buffer satisfies the matcher at some attempt |
| Assertions.MainViewContent | pkg/integration/components/assert.go:268-274 | passes iff the main view's buffer satisfies the matcher at some attempt |
| Assertions.SecondaryViewContent | pkg/integration/components/assert.go:276-282 | passes iff the secondary view's buffer satisfies the matcher at some attempt |
| Assertions.LineCountProbe | pkg/integration/components/assert.go:221-224 | passes iff the view has exactly as many lines as matchers (at least as many for the top-lines variant); the diagnostic names both the expected and the observed number |
| Assertions.LineProbe | pkg/integration/components/assert.go:226-232 | corrected per-line probe: passes iff line i exists and satisfies its matcher; the diagnostic starts with the view heading |
| Assertions.LineReadAgrees | pkg/integration/components/assert.go:226-230 | wherever the line read as written (`BufferLines()[i]`) succeeds, the corrected probe is exactly matchString's evaluation on the line read, and it passes only there; the two differ only where the code as written aborts |
| Assertions.AsWrittenLineLoopSafe | pkg/integration/components/assert.go:226-230 | on a view that never has fewer lines than matchers from some moment on, a per-line loop started then or later never reaches the aborting read: every attempt's read succeeds and the corrected probe is what the code as written evaluates |
| Assertions.AssertLines | pkg/integration/components/assert.go:220-254 | the count loop, then one loop per matcher started when the previous one passed, stopping at the first failure, equals the reference definition |
| Assertions.ViewLines | pkg/integration/components/assert.go:220-233 | equals the reference with an exact count; a pass means every line was seen matching within the call |
| Assertions.ViewTopLines | pkg/integration/components/assert.go:241-254 | equals the reference with an at-least count; a pass means every line was seen matching within the call |
| Assertions.CurrentViewLines | pkg/integration/components/assert.go:235-237 | ViewLines on the view focused when the call starts |
| Assertions.CurrentViewTopLines | pkg/integration/components/assert.go:256-258 | ViewTopLines on the view focused when the call starts |
| Assertions.LinesFromClock | pkg/integration/components/assert.go:226-232 | the per-line loops never move the clock backwards |
| Assertions.LinesFromSound | pkg/integration/components/assert.go:226-232 | passing per-line loops saw each of their lines match at some moment within their run |
| Assertions.LinesSound | pkg/integration/components/assert.go:220-254 | a passing multi-line assertion saw every line match at some moment between its start and its end |
| Assertions.LinesFromFailure | pkg/integration/components/assert.go:226-232 | when the per-line loops fail, some line j is the first to fail: the loops before it all passed, line j's loop started when they ended and failed after its whole schedule, the report is theirs followed by its own and nothing after it, and its diagnostic starts with the view heading |
| Assertions.LinesFailureMessage | pkg/integration/components/assert.go:220-254 | a failing multi-line assertion reports the count loop's failure itself when the count never matched; otherwise the count loop passed and the report is its own followed by the per-line loops up to and including the first failing one, nothing after it, with a diagnostic headed with the view heading |
| Assertions.CountCheckFirst | pkg/integration/components/assert.go:221-224 | when the count never matches, the outcome is the count loop's failure after 16 evaluations, and it is the same whatever the matchers are |
| Assertions.LinesFromBudget | pkg/integration/components/assert.go:226-232 | each per-line loop has its own full budget; failing always takes a whole schedule, passing at least one evaluation per line |
| Assertions.LinesBudget | pkg/integration/components/assert.go:220-254 | an N-line assertion takes at most (N+1)·16 evaluations and (N+1)·7880 ms |
| Assertions.LinesFromSettled | pkg/integration/components/assert.go:226-232 | with the corrected per-line probe: per-line loops starting within one schedule of a settled view all pass |
| Assertions.SettledViewPasses | pkg/integration/components/assert.go:220-254 | with the corrected per-line probe: a view that settles into the expected lines within one schedule of the start passes, whatever it showed before |
| Assertions.PathPresentProbe | pkg/integration/components/assert.go:314-319 | passes iff `stat` succeeds; the diagnostic names the path |
| Assertions.PathAbsentProbe | pkg/integration/components/assert.go:322-327 | passes iff `stat` reports does-not-exist; the diagnostic names the path |
| Assertions.FileSystemPathPresent | pkg/integration/components/assert.go:314-319 | passes iff some attempt finds the path; an existing path passes at once with one evaluation |
| Assertions.FileSystemPathNotPresent | pkg/integration/components/assert.go:322-327 | passes iff some attempt gets does-not-exist; a missing path passes at once with one evaluation |
| Assertions.PathProbesComplementary | pkg/integration/components/assert.go:314-327 | the two path probes never both pass, and one of them passes iff `stat` does not fail otherwise |
| Scenarios.CountMismatchFailsOnCount | pkg/integration/components/assert.go:220-224 | two lines against any three matchers fail after 16 evaluations and 7880 ms with "unexpected number of lines in view. Expected 3, got 2" |
| Scenarios.LateViewPasses | pkg/integration/components/assert.go:220-233 | a view showing stale lines until some moment within one schedule of the start passes ViewLines |
| Scenarios.TooLateViewFails | pkg/integration/components/assert.go:220-232 | the same view settling after the schedule fails on line 0's loop: the report is that loop's last diagnostic after 1 + 16 evaluations, one schedule after the start, and line 1 is never examined |
| Scenarios.ValueSeenAtTenthAttempt | pkg/integration/components/assert.go:284-299 | a value that turns to the expected one at 50 ms is first seen at 80 ms, on the tenth evaluation |
| Scenarios.StatErrorFailsBoth | pkg/integration/components/assert.go:314-327 | when `stat` keeps failing otherwise than with does-not-exist, both path assertions fail |
| Scenarios.ShrinkingViewPanicsAsWritten | pkg/integration/components/assert.go:226-230 | a view shrinking after its count check makes the as-written line read abort at the second attempt, while the corrected loop passes after five evaluations at 3 ms |
| Scenarios.ShrinkingCommitsPanicAsWritten | pkg/integration/components/assert.go:105-114 | a commit list emptied after the presence check makes the as-written head read abort at the second attempt, while the corrected loop passes at 3 ms |

## Left out

- Sleeping (`time.Sleep`) is modelled by the clock value that each call
  takes and reports; real elapsed time and the cost of evaluating a probe are
  not modelled, so attempts happen exactly at the schedule's running totals.
- The application runs concurrently with the polling thread. Here its state
  is a deterministic function of the clock reading, and one evaluation reads
  one consistent snapshot.
- `regexp.MatchString` is a parameter (`RegexEngine`), a pure function from
  pattern and value to a match flag or a compile error; regular-expression
  semantics are not modelled.
- `os.Stat` is a field of the snapshot giving found, does-not-exist or
  another error; the filesystem itself is not modelled.
- The driver's readers (`Model()`, `CurrentContext()`, `View()`,
  `CheckedOutRef()`, `MainView()`, `SecondaryView()`) are the snapshot's
  fields. `gui.Fail` is not a field: it is the `Failed` status of a `Report`.
  The
  `types.IListContext` type assertion is a boolean of the focused context.
  `Buffer()` and `BufferLines()` are independent fields, not derived from
  each other.
- The `matcher` type, `NewMatcher`, `.context()` and `.test()` are defined in
  `pkg/integration/components/matcher.go`, which is not part of this model.
  `Matcher.Context` is its assumed behaviour: it prefixes the heading and a
  space to the diagnostic and keeps the pass flag.
- Diagnostics are concatenations of the same pieces as the `fmt.Sprintf`
  formats. `%d` is `Decimal`; their exact texts are only stated where a
  scenario needs one.
- `NewAssert` and the `Assert` struct hold only the immutable driver
  reference. They are not a class: the world is passed to every call.
- The failure sink ends the scenario (lazygit's driver panics there). In the
  model the `Passed?` guards of `AssertLines` and `HeadCommitMessage` stop
  the later loops, and `Then` keeps the first failure as the report; the
  driver's shutdown is not modelled.
- `pkg/integration/tests/cherry_pick/cherry_pick.go` is a scenario script
  with no logic of its own; it is not part of this model.
- Go's `int` is unbounded here; counts and indices cannot overflow.
- Matchers.StringContains: Go strings are byte sequences, and the model's
  strings are sequences of Unicode characters. The two agree on valid
  UTF-8 text only; invalid byte sequences are not modelled.
- Assertions.AssertLines: uses the corrected per-line probe, so a missing
  line is a retried attempt rather than the runtime panic of the code as
  written (see Findings).
- Assertions.ViewLines: inherits the corrected per-line probe from
  AssertLines; the code as written panics at line 229 on a missing line.
- Assertions.ViewTopLines: inherits the corrected per-line probe from
  AssertLines; the code as written panics at line 250 on a missing line.
- Assertions.CurrentViewLines: runs ViewLines, so it uses the corrected
  per-line probe too.
- Assertions.CurrentViewTopLines: runs ViewTopLines, so it uses the
  corrected per-line probe too.
- Assertions.LinesFromSettled: holds of the corrected per-line probe only.
  A view with fewer lines before it settles makes the code as written panic.
  AsWrittenLineLoopSafe gives the case where both agree: the view never has
  fewer lines than matchers from the loop's start on.
- Assertions.SettledViewPasses: holds of the corrected per-line probe only,
  for the same reason. When the view never has fewer lines than matchers
  from the call's start on, every per-line loop starts at or after that
  moment (LinesFromClock, RetryBounds), so AsWrittenLineLoopSafe applies to
  each one and the code as written behaves the same.
- Assertions.HeadCommitMessage: uses the corrected head-commit probe, so an
  empty commit list during the name loop is a retried attempt rather than
  the runtime panic of the code as written (see Findings).

## Findings

| source | as written | input that shows it | evidently intended | confidence | as-written member | corrected member |
|---|---|---|---|---|---|---|
| pkg/integration/components/assert.go:229 | each per-line loop of `ViewLines` (and of `ViewTopLines`, line 250) reads `BufferLines()[i]` with no bound check, though the count was checked by an earlier loop and the view may shrink since | view "files" shows ["x"] at 0 ms, no lines at 1 and 2 ms, ["a"] from 3 ms; `ViewLines("files", Contains("a"))` started at 0: the count passes at 0 ms, line 0 fails at 0 ms, the read at 1 ms indexes an empty slice and panics | a missing line is a failed attempt that is retried like any other; here the assertion passes at 3 ms | medium; not executed | Scenarios.ShrinkingViewPanicsAsWritten | Assertions.LineProbe |
| pkg/integration/components/assert.go:112 | `HeadCommitMessage` reads `Commits[0].Name` in its own loop, after a separate loop checked that a commit exists; the list may be emptied in between | commits ["wip"] at 0 ms, none at 1 and 2 ms, ["fix"] from 3 ms; `HeadCommitMessage(Equals("fix"))` started at 0: presence passes at 0 ms, the name fails at 0 ms, the read at 1 ms indexes an empty slice and panics | an empty commit list is a failed attempt that is retried; here the assertion passes at 3 ms | medium; not executed | Scenarios.ShrinkingCommitsPanicAsWritten | Assertions.HeadCommitProbe |
