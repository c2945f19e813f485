/** Concrete situations of the kind scenario scripts run into: a line count
    that never matches, a view that settles late (or too late), a value that
    changes while it is polled, a path whose `stat` errors, and the two
    reads that abort when the state shrinks between one loop and the next. */
module Scenarios {
  import opened Matchers
  import opened Retry
  import opened Driver
  import opened Assertions

  /** A view with the given name and lines and nothing else of interest. */
  function PlainView(name: string, lines: seq<string>): View {
    View(name, "", false, "", lines, "", 0)
  }

  /** A world whose view `viewName` is focused and shows `linesAt(t)` at
      moment `t`; every other view is empty and no path exists. */
  function LinesWorld(viewName: string, linesAt: nat -> seq<string>): World {
    (t: nat) => Snapshot(
      Gui(GitModel([], [], []),
        GuiContext("files", true, PlainView(viewName, linesAt(t))),
        "master",
        (n: string) => PlainView(n, if n == viewName then linesAt(t) else []),
        PlainView("main", []),
        PlainView("secondary", [])),
      (path: string) => NotExist)
  }

  /** The named view of a `LinesWorld` shows the given lines. */
  lemma LinesWorldShows(viewName: string, linesAt: nat -> seq<string>, t: nat)
    ensures LinesWorld(viewName, linesAt)(t).gui.viewNamed(viewName).lines == linesAt(t)
  {
  }

  /** A world whose commit list at moment `t` is `commitsAt(t)`. */
  function CommitsWorld(commitsAt: nat -> seq<Commit>): World {
    (t: nat) => Snapshot(
      Gui(GitModel([], commitsAt(t), []),
        GuiContext("commits", true, PlainView("commits", [])),
        "master",
        (n: string) => PlainView(n, []),
        PlainView("main", []),
        PlainView("secondary", [])),
      (path: string) => NotExist)
  }

  /** A target occurring in the value makes Contains pass. */
  lemma ContainsAt(target: string, v: string, i: nat)
    requires OccursAt(target, v, i)
    ensures Contains(target).Test(v).passed
  {
  }

  /** "a" does not occur in "x". */
  lemma NoAInX()
    ensures !Contains("a").Test("x").passed
  {
    assert "x"[..1] != "a" by { assert "x"[..1][0] == 'x'; }
    assert "x"[1..] == "";
    assert !StringContains("", "a");
    assert !StringContains("x", "a");
  }

  /** The commit list of a `CommitsWorld` is the given one. */
  lemma CommitsWorldHas(commitsAt: nat -> seq<Commit>, t: nat)
    ensures CommitsWorld(commitsAt)(t).gui.model.commits == commitsAt(t)
  {
  }

  // ---------------------------------------------------------------------
  // The count check decides alone

  function TwoLines(t: nat): seq<string> {
    ["a", "b"]
  }

  /** Two lines against any three matchers: the count loop fails after the
      whole schedule with its own diagnostic, whatever the matchers are. */
  lemma CountMismatchFailsOnCount(matchers: seq<Matcher>, start: nat)
    requires |matchers| == 3
    ensures LinesSpec(LinesWorld("commits", TwoLines), "commits", matchers, false, start)
      == Report(Failed("unexpected number of lines in view. Expected 3, got 2"), 16, start + 7880)
  {
    var world := LinesWorld("commits", TwoLines);
    var p := LineCountProbe(world, "commits", 3, false);
    forall k | 0 <= k < |WaitTimes| ensures !PassesAt(p, start, k) {
      LinesWorldShows("commits", TwoLines, AttemptTime(start, k));
    }
    CountCheckFirst(world, "commits", matchers, matchers, false, start);
    RetryNeverPasses(p, start);
    LinesWorldShows("commits", TwoLines, start + 7880);
    assert p(start + 7880).message == Fill(LineCountLead(false), Decimal(3), ", got ", Decimal(2), "");
    CountMessageText();
  }

  lemma CountMessageText()
    ensures Fill(LineCountLead(false), Decimal(3), ", got ", Decimal(2), "")
      == "unexpected number of lines in view. Expected 3, got 2"
  {
    assert Decimal(2) == "2" && Decimal(3) == "3";
  }

  // ---------------------------------------------------------------------
  // Eventual consistency of a view

  /** Shows stale lines before moment `d` and the expected ones from `d` on. */
  function Settling(d: nat): nat -> seq<string> {
    (t: nat) => if t < d then ["x", "y"] else ["a-line", "b-line"]
  }

  /** A view that settles at `d`, no later than one schedule after the
      start, passes ViewLines although it showed other lines before. */
  lemma LateViewPasses(d: nat, start: nat)
    requires d <= start + 7880
    ensures LinesSpec(LinesWorld("files", Settling(d)), "files", [Contains("a"), Contains("b")], false, start).status.Passed?
  {
    var world := LinesWorld("files", Settling(d));
    var matchers := [Contains("a"), Contains("b")];
    ContainsAt("a", "a-line", 0);
    ContainsAt("b", "b-line", 0);
    assert SettledBy(world, "files", matchers, false, d) by {
      forall t | d <= t
        ensures var lines := world(t).gui.viewNamed("files").lines;
          |lines| == 2 && forall i :: 0 <= i < 2 ==> matchers[i].Test(lines[i]).passed
      {
        LinesWorldShows("files", Settling(d), t);
      }
    }
    SettledViewPasses(world, "files", matchers, false, start, d);
  }

  /** A view that settles only after every attempt of the first per-line
      loop fails on that loop: the count passes at once, line 0 never
      matches, and the report is line 0's failure after 1 + 16 evaluations,
      one schedule after the start; line 1 is never examined. */
  lemma TooLateViewFails(d: nat, start: nat)
    requires d > start + 7880
    ensures LinesSpec(LinesWorld("files", Settling(d)), "files", [Contains("a"), Contains("b")], false, start)
      == Report(Failed(LineProbe(LinesWorld("files", Settling(d)), "files", 0, Contains("a"))(start + 7880).message), 17, start + 7880)
  {
    var world := LinesWorld("files", Settling(d));
    var matchers := [Contains("a"), Contains("b")];
    var count := LineCountProbe(world, "files", 2, false);
    assert RetrySpec(count, start) == Report(Passed, 1, start) by {
      LinesWorldShows("files", Settling(d), start);
      RetryPassesIff(count, start);
    }
    var line := LineProbe(world, "files", 0, matchers[0]);
    forall k | 0 <= k < |WaitTimes| ensures !PassesAt(line, start, k) {
      AttemptTimeBounds(start, k, |WaitTimes| - 1);
      StaleLineFails(d, AttemptTime(start, k));
    }
    RetryNeverPasses(line, start);
    assert LinesFrom(world, "files", matchers, 0, start) == RetrySpec(line, start);
  }

  /** Before the view settles, line 0 ("x") fails `Contains("a")`. */
  lemma StaleLineFails(d: nat, t: nat)
    requires t < d
    ensures !LineProbe(LinesWorld("files", Settling(d)), "files", 0, Contains("a"))(t).passed
  {
    LinesWorldShows("files", Settling(d), t);
    NoAInX();
  }

  // ---------------------------------------------------------------------
  // A value that changes while it is polled

  function LoadingThenDone(t: nat): string {
    if t < 50 then "loading" else "done"
  }

  /** The value turns to "done" at 50 ms: attempts at 0, 1, 2, 3, 4, 5, 10,
      20 and 40 ms see "loading", the one at 80 ms sees "done", so the loop
      passes at its tenth evaluation. */
  lemma ValueSeenAtTenthAttempt(heading: string)
    ensures RetrySpec(MatchProbe(Equals("done"), heading, LoadingThenDone), 0) == Report(Passed, 10, 80)
  {
    var p := MatchProbe(Equals("done"), heading, LoadingThenDone);
    AttemptTimes(0);
    assert PassesAt(p, 0, 9);
    forall j | 0 <= j < 9 ensures !PassesAt(p, 0, j) {
    }
    RetryFirstPassAt(p, 0, 9);
  }

  // ---------------------------------------------------------------------
  // A path whose stat errors

  /** `base` with every `stat` failing for a reason other than absence. */
  function StatFailing(base: World, reason: string): World {
    (t: nat) => base(t).(stat := (path: string) => StatError(reason))
  }

  /** Neither filesystem assertion passes when `stat` keeps erroring
      otherwise than with does-not-exist: both fail after 16 evaluations. */
  lemma StatErrorFailsBoth(base: World, reason: string, path: string, start: nat)
    ensures RetrySpec(PathPresentProbe(StatFailing(base, reason), path), start).status.Failed?
    ensures RetrySpec(PathAbsentProbe(StatFailing(base, reason), path), start).status.Failed?
  {
    var world := StatFailing(base, reason);
    var present := PathPresentProbe(world, path);
    var absent := PathAbsentProbe(world, path);
    forall k | 0 <= k < |WaitTimes| ensures !PassesAt(present, start, k) && !PassesAt(absent, start, k) {
      assert world(AttemptTime(start, k)).stat(path) == StatError(reason);
    }
    RetryNeverPasses(present, start);
    RetryNeverPasses(absent, start);
  }

  // ---------------------------------------------------------------------
  // Reads that abort when the state shrinks

  /** One line "x", then no line at 1 and 2 ms, then "a" for good. */
  function ShrinkingLines(t: nat): seq<string> {
    if t == 0 then ["x"] else if t < 3 then [] else ["a"]
  }

  /** As written, ViewLines on this view with one matcher `Contains("a")`
      started at 0 passes its count loop at once, its line loop fails its
      first attempt, and the read for the second attempt (at 1 ms) has no
      line 0 to index: a runtime panic instead of a retried attempt. The
      corrected model retries and passes, at 3 ms after five evaluations. */
  lemma ShrinkingViewPanicsAsWritten()
    ensures var world := LinesWorld("files", ShrinkingLines);
      && RetrySpec(LineCountProbe(world, "files", 1, false), 0) == Report(Passed, 1, 0)
      && !LineProbe(world, "files", 0, Contains("a"))(AttemptTime(0, 0)).passed
      && LineReadAsWritten(world, "files", 0)(AttemptTime(0, 1)).None?
    ensures LinesSpec(LinesWorld("files", ShrinkingLines), "files", [Contains("a")], false, 0) == Report(Passed, 5, 3)
  {
    var world := LinesWorld("files", ShrinkingLines);
    var count := LineCountProbe(world, "files", 1, false);
    assert RetrySpec(count, 0) == Report(Passed, 1, 0) by {
      LinesWorldShows("files", ShrinkingLines, 0);
      RetryPassesIff(count, 0);
    }
    var line := LineProbe(world, "files", 0, Contains("a"));
    assert !line(AttemptTime(0, 0)).passed && LineReadAsWritten(world, "files", 0)(AttemptTime(0, 1)).None? by {
      EarlyAttempts();
      ShrinkingLineAt(0);
      LinesWorldShows("files", ShrinkingLines, 1);
    }
    assert RetrySpec(line, 0) == Report(Passed, 4, 3) by {
      ShrinkingLineLoop();
    }
    assert LinesFrom(world, "files", [Contains("a")], 1, 3) == Report(Passed, 0, 3);
  }

  /** The first four attempts of a loop started at 0 happen at 0, 1, 2 and 3 ms. */
  lemma EarlyAttempts()
    ensures AttemptTime(0, 0) == 0 && AttemptTime(0, 1) == 1 && AttemptTime(0, 2) == 2 && AttemptTime(0, 3) == 3
  {
    AttemptTimes(0);
  }

  /** A probe that fails at 0, 1 and 2 ms and passes at 3 ms makes a loop
      started at 0 pass at its fourth evaluation, at 3 ms. */
  lemma PassesFromThreeMs(probe: Probe)
    requires !probe(0).passed && !probe(1).passed && !probe(2).passed && probe(3).passed
    ensures RetrySpec(probe, 0) == Report(Passed, 4, 3)
  {
    EarlyAttempts();
    forall j | 0 <= j < 3 ensures !PassesAt(probe, 0, j) {
      assert j == 0 || j == 1 || j == 2;
    }
    RetryFirstPassAt(probe, 0, 3);
  }

  /** Line 0 of the shrinking view passes `Contains("a")` at 3 ms and not
      in the three moments before. */
  lemma ShrinkingLineAt(t: nat)
    requires t <= 3
    ensures LineProbe(LinesWorld("files", ShrinkingLines), "files", 0, Contains("a"))(t).passed <==> t == 3
  {
    LinesWorldShows("files", ShrinkingLines, t);
    if t == 0 {
      NoAInX();
    } else if t == 3 {
      ContainsAt("a", "a", 0);
    }
  }

  /** The corrected line loop on the shrinking view passes at its fourth attempt. */
  lemma ShrinkingLineLoop()
    ensures RetrySpec(LineProbe(LinesWorld("files", ShrinkingLines), "files", 0, Contains("a")), 0) == Report(Passed, 4, 3)
  {
    ShrinkingLineAt(0);
    ShrinkingLineAt(1);
    ShrinkingLineAt(2);
    ShrinkingLineAt(3);
    PassesFromThreeMs(LineProbe(LinesWorld("files", ShrinkingLines), "files", 0, Contains("a")));
  }

  /** Commit "wip" at 0 ms, none at 1 and 2 ms, then "fix" for good. */
  function ShrinkingCommits(t: nat): seq<Commit> {
    if t == 0 then [Commit("wip")] else if t < 3 then [] else [Commit("fix")]
  }

  /** As written, HeadCommitMessage with `Equals("fix")` started at 0 sees
      a commit at once, fails the name at its first attempt, and the read
      for the second attempt (at 1 ms) has no commit 0: a runtime panic.
      The corrected model retries and passes at 3 ms. */
  lemma ShrinkingCommitsPanicAsWritten()
    ensures var world := CommitsWorld(ShrinkingCommits);
      && RetrySpec(AnyCommitProbe(world, "Expected at least one commit to be present"), 0) == Report(Passed, 1, 0)
      && !HeadCommitProbe(world, Equals("fix"))(AttemptTime(0, 0)).passed
      && HeadCommitNameAsWritten(world)(AttemptTime(0, 1)).None?
    ensures var world := CommitsWorld(ShrinkingCommits);
      Then(Report(Passed, 1, 0), RetrySpec(HeadCommitProbe(world, Equals("fix")), 0)) == Report(Passed, 5, 3)
  {
    var world := CommitsWorld(ShrinkingCommits);
    var present := AnyCommitProbe(world, "Expected at least one commit to be present");
    assert RetrySpec(present, 0) == Report(Passed, 1, 0) by {
      CommitsWorldHas(ShrinkingCommits, 0);
      RetryPassesIff(present, 0);
    }
    var head := HeadCommitProbe(world, Equals("fix"));
    assert !head(AttemptTime(0, 0)).passed && HeadCommitNameAsWritten(world)(AttemptTime(0, 1)).None? by {
      EarlyAttempts();
      ShrinkingHeadAt(0);
      CommitsWorldHas(ShrinkingCommits, 1);
    }
    assert RetrySpec(head, 0) == Report(Passed, 4, 3) by {
      ShrinkingHeadLoop();
    }
  }

  /** The head of the shrinking commit list passes `Equals("fix")` at 3 ms
      and not in the three moments before. */
  lemma ShrinkingHeadAt(t: nat)
    requires t <= 3
    ensures HeadCommitProbe(CommitsWorld(ShrinkingCommits), Equals("fix"))(t).passed <==> t == 3
  {
    CommitsWorldHas(ShrinkingCommits, t);
  }

  /** The corrected head-commit loop passes at its fourth attempt. */
  lemma ShrinkingHeadLoop()
    ensures RetrySpec(HeadCommitProbe(CommitsWorld(ShrinkingCommits), Equals("fix")), 0) == Report(Passed, 4, 3)
  {
    ShrinkingHeadAt(0);
    ShrinkingHeadAt(1);
    ShrinkingHeadAt(2);
    ShrinkingHeadAt(3);
    PassesFromThreeMs(HeadCommitProbe(CommitsWorld(ShrinkingCommits), Equals("fix")));
  }
}
