/** Whole runs: the machine fed, one after another, the completions of the
    units it dispatches. These lemmas state what a run promises as a whole:
    it ends after exactly one completion per package and per link, handles
    the items strictly in list order without skipping failed ones, and
    reports each phase's errors through its flag. */
module Runs {
  import opened ConfigTypes
  import opened Phases
  import opened Machine

  /** The completion message of a unit of phase `p`. */
  function Completion(p: Phase, err: Option<string>): (m: Msg)
    ensures p == Packages ==> m == InstallDone(err)
    ensures p == Symlinks ==> m == SymlinkDone(err)
  {
    if p == Packages then InstallDone(err) else SymlinkDone(err)
  }

  predicate AnyFailed(outcomes: seq<Option<string>>) {
    exists k :: 0 <= k < |outcomes| && outcomes[k].Some?
  }

  lemma AnyFailedCons(outcomes: seq<Option<string>>)
    requires outcomes != []
    ensures AnyFailed(outcomes) == (outcomes[0].Some? || AnyFailed(outcomes[1..]))
  {
    if AnyFailed(outcomes) && !outcomes[0].Some? {
      var k :| 0 <= k < |outcomes| && outcomes[k].Some?;
      assert outcomes[1..][k - 1].Some?;
    }
    if AnyFailed(outcomes[1..]) {
      var k :| 0 <= k < |outcomes[1..]| && outcomes[1..][k].Some?;
      assert outcomes[k + 1].Some?;
    }
  }

  /** The state a completion with the given outcome leads to: the cursor
      moves on, the phase's flag is set on failure, the last package moves
      to the first link and the last link quits. */
  function Next(cfg: Config, s: State, err: Option<string>): (r: State)
    requires Valid(cfg, s) && !s.quitting
    ensures Valid(cfg, r)
  {
    var c := s.cursor + 1;
    if s.phase == Packages then
      if c >= |cfg.packages| then s.(cursor := 0, phase := Symlinks, pkgErr := s.pkgErr || err.Some?)
      else s.(cursor := c, pkgErr := s.pkgErr || err.Some?)
    else
      if c >= |cfg.symlinks| then s.(cursor := c, linkErr := s.linkErr || err.Some?, quitting := true)
      else s.(cursor := c, linkErr := s.linkErr || err.Some?)
  }

  /** The status line a completion with the given outcome prints: the report
      of the item at the cursor. */
  function Report(cfg: Config, s: State, err: Option<string>): string
    requires Valid(cfg, s) && !s.quitting
  {
    if s.phase == Packages then InstallLine(cfg.packages[s.cursor], err)
    else LinkLine(cfg.symlinks[s.cursor], err)
  }

  /** The first line a command prints. */
  function FirstPrint(es: seq<Effect>): string {
    if es == [] then ""
    else if es[0].Print? then es[0].text
    else FirstPrint(es[1..])
  }

  /** `Next` and `Report` are what the machine's step does on a completion. */
  lemma StepOfCompletion(cfg: Config, s: State, err: Option<string>)
    requires Valid(cfg, s) && !s.quitting
    ensures var t := Step(cfg, s, Completion(s.phase, err));
      t.next == Next(cfg, s, err) && FirstPrint(Effects(t.cmd)) == Report(cfg, s, err)
  {
  }

  /** The state after the completions with the given outcomes; once the run
      has quit, further outcomes are ignored. */
  function Run(cfg: Config, s: State, outcomes: seq<Option<string>>): (r: State)
    requires Valid(cfg, s)
    ensures Valid(cfg, r)
    ensures r.width == s.width && r.height == s.height
    ensures s.phase == Symlinks ==> r.phase == Symlinks
    decreases |outcomes|
  {
    if outcomes == [] || s.quitting then s
    else Run(cfg, Next(cfg, s, outcomes[0]), outcomes[1..])
  }

  /** The status line printed for each completion of a run, in order. */
  function Reports(cfg: Config, s: State, outcomes: seq<Option<string>>): (r: seq<string>)
    requires Valid(cfg, s)
    ensures |r| <= |outcomes|
    decreases |outcomes|
  {
    if outcomes == [] || s.quitting then []
    else [Report(cfg, s, outcomes[0])] + Reports(cfg, Next(cfg, s, outcomes[0]), outcomes[1..])
  }

  /** The package phase followed by whatever comes next: running the
      outcomes that finish the package list and then further outcomes is
      running the first stretch, then the second from where it ended. */
  lemma {:induction false} InstallsThen(cfg: Config, s: State, a: seq<Option<string>>, b: seq<Option<string>>)
    requires Valid(cfg, s) && s.phase == Packages && !s.quitting
    requires s.cursor + |a| == |cfg.packages|
    ensures Run(cfg, s, a + b) == Run(cfg, Run(cfg, s, a), b)
    decreases |a|
  {
    assert (a + b)[1..] == a[1..] + b;
    var t := Next(cfg, s, a[0]);
    if |a| == 1 {
      assert a[1..] + b == b && a[1..] == [];
    } else {
      InstallsThen(cfg, t, a[1..], b);
    }
  }

  /** The reports of the package phase are followed by those of whatever
      comes next. */
  lemma {:induction false} InstallReportsThen(cfg: Config, s: State, a: seq<Option<string>>, b: seq<Option<string>>)
    requires Valid(cfg, s) && s.phase == Packages && !s.quitting
    requires s.cursor + |a| == |cfg.packages|
    ensures Reports(cfg, s, a + b) == Reports(cfg, s, a) + Reports(cfg, Run(cfg, s, a), b)
    decreases |a|
  {
    assert (a + b)[1..] == a[1..] + b;
    var t := Next(cfg, s, a[0]);
    var x := Report(cfg, s, a[0]);
    var rest := Reports(cfg, t, a[1..] + b);
    assert Reports(cfg, s, a + b) == [x] + rest;
    if |a| == 1 {
      assert a[1..] + b == b && a[1..] == [];
      assert Reports(cfg, s, a) == [x];
      assert Run(cfg, s, a) == t;
    } else {
      InstallReportsThen(cfg, t, a[1..], b);
      var ra := Reports(cfg, t, a[1..]);
      assert rest == ra + Reports(cfg, Run(cfg, t, a[1..]), b);
      assert Reports(cfg, s, a) == [x] + ra;
    }
  }

  /** The package phase: k completions from the cursor stay in the phase and
      advance the cursor by k, until the one that reaches the end of the
      list, which lands on the first link; the package flag records whether
      any of them failed and the link flag is untouched. */
  lemma {:induction false} RunInstalls(cfg: Config, s: State, outcomes: seq<Option<string>>)
    requires Valid(cfg, s) && s.phase == Packages && !s.quitting
    requires s.cursor + |outcomes| <= |cfg.packages|
    ensures var r := Run(cfg, s, outcomes);
      !r.quitting && r.linkErr == s.linkErr &&
      r.pkgErr == (s.pkgErr || AnyFailed(outcomes)) &&
      (s.cursor + |outcomes| < |cfg.packages| ==> r.phase == Packages && r.cursor == s.cursor + |outcomes|) &&
      (s.cursor + |outcomes| == |cfg.packages| ==> r.phase == Symlinks && r.cursor == 0)
    decreases |outcomes|
  {
    if outcomes != [] {
      var n := Next(cfg, s, outcomes[0]);
      AnyFailedCons(outcomes);
      if s.cursor + 1 < |cfg.packages| {
        RunInstalls(cfg, n, outcomes[1..]);
      } else {
        assert outcomes[1..] == [];
      }
    }
  }

  /** The report lines of the given packages with the given outcomes, one
      per outcome, in list order. */
  function InstallLines(packages: seq<string>, outcomes: seq<Option<string>>): (r: seq<string>)
    requires |outcomes| <= |packages|
    ensures |r| == |outcomes|
  {
    if outcomes == [] then []
    else [InstallLine(packages[0], outcomes[0])] + InstallLines(packages[1..], outcomes[1..])
  }

  /** The k-th install report is the report of the k-th package. */
  lemma {:induction false} InstallLinesAt(packages: seq<string>, outcomes: seq<Option<string>>, k: nat)
    requires |outcomes| <= |packages| && k < |outcomes|
    ensures InstallLines(packages, outcomes)[k] == InstallLine(packages[k], outcomes[k])
  {
    if k > 0 {
      InstallLinesAt(packages[1..], outcomes[1..], k - 1);
    }
  }

  /** Each package completion reports the package at its position, in
      order, failed ones included. */
  lemma {:induction false} InstallReports(cfg: Config, s: State, outcomes: seq<Option<string>>)
    requires Valid(cfg, s) && s.phase == Packages && !s.quitting
    requires s.cursor + |outcomes| <= |cfg.packages|
    ensures Reports(cfg, s, outcomes) == InstallLines(cfg.packages[s.cursor..], outcomes)
    decreases |outcomes|
  {
    if outcomes != [] {
      var n := Next(cfg, s, outcomes[0]);
      if s.cursor + 1 < |cfg.packages| {
        InstallReports(cfg, n, outcomes[1..]);
        assert cfg.packages[s.cursor..][1..] == cfg.packages[n.cursor..];
      } else {
        assert outcomes[1..] == [];
      }
    }
  }

  /** The symlink phase: k completions from the cursor advance it by k; the
      run quits exactly when the cursor reaches the end of the list; the link
      flag records whether any of them failed and the package flag is
      untouched. */
  lemma {:induction false} RunLinks(cfg: Config, s: State, outcomes: seq<Option<string>>)
    requires Valid(cfg, s) && s.phase == Symlinks && !s.quitting
    requires s.cursor + |outcomes| <= |cfg.symlinks|
    ensures var r := Run(cfg, s, outcomes);
      r.phase == Symlinks && r.cursor == s.cursor + |outcomes| &&
      r.quitting == (s.cursor + |outcomes| == |cfg.symlinks|) &&
      r.pkgErr == s.pkgErr && r.linkErr == (s.linkErr || AnyFailed(outcomes))
    decreases |outcomes|
  {
    if outcomes != [] {
      var n := Next(cfg, s, outcomes[0]);
      AnyFailedCons(outcomes);
      if s.cursor + 1 < |cfg.symlinks| {
        RunLinks(cfg, n, outcomes[1..]);
      } else {
        assert outcomes[1..] == [];
      }
    }
  }

  /** The report lines of the given links with the given outcomes, one per
      outcome, in list order. */
  function LinkLines(links: seq<SymLink>, outcomes: seq<Option<string>>): (r: seq<string>)
    requires |outcomes| <= |links|
    ensures |r| == |outcomes|
  {
    if outcomes == [] then []
    else [LinkLine(links[0], outcomes[0])] + LinkLines(links[1..], outcomes[1..])
  }

  /** The k-th link report is the report of the k-th link. */
  lemma {:induction false} LinkLinesAt(links: seq<SymLink>, outcomes: seq<Option<string>>, k: nat)
    requires |outcomes| <= |links| && k < |outcomes|
    ensures LinkLines(links, outcomes)[k] == LinkLine(links[k], outcomes[k])
  {
    if k > 0 {
      LinkLinesAt(links[1..], outcomes[1..], k - 1);
    }
  }

  /** Each link completion reports the link at its position, in order,
      failed ones included. */
  lemma {:induction false} LinkReports(cfg: Config, s: State, outcomes: seq<Option<string>>)
    requires Valid(cfg, s) && s.phase == Symlinks && !s.quitting
    requires s.cursor + |outcomes| <= |cfg.symlinks|
    ensures Reports(cfg, s, outcomes) == LinkLines(cfg.symlinks[s.cursor..], outcomes)
    decreases |outcomes|
  {
    if outcomes != [] {
      var n := Next(cfg, s, outcomes[0]);
      if s.cursor + 1 < |cfg.symlinks| {
        LinkReports(cfg, n, outcomes[1..]);
        assert cfg.symlinks[s.cursor..][1..] == cfg.symlinks[n.cursor..];
      } else {
        assert outcomes[1..] == [];
      }
    }
  }

  /** A whole run from the initial state: with one outcome per package and
      per link the machine quits, and each phase's flag says whether one of
      its units failed. */
  lemma WholeRun(cfg: Config, outcomes: seq<Option<string>>)
    requires |cfg.packages| > 0 && |cfg.symlinks| > 0
    requires |outcomes| == |cfg.packages| + |cfg.symlinks|
    ensures var r := Run(cfg, Initial(cfg), outcomes);
      r.quitting &&
      r.pkgErr == AnyFailed(outcomes[..|cfg.packages|]) &&
      r.linkErr == AnyFailed(outcomes[|cfg.packages|..])
  {
    var p := |cfg.packages|;
    var a, b := outcomes[..p], outcomes[p..];
    assert outcomes == a + b;
    var s0 := Initial(cfg);
    RunInstalls(cfg, s0, a);
    RunLinks(cfg, Run(cfg, s0, a), b);
    InstallsThen(cfg, s0, a, b);
  }

  /** Over a whole run every item is reported exactly once, the packages
      and then the links, each in list order. */
  lemma WholeRunReports(cfg: Config, outcomes: seq<Option<string>>)
    requires |cfg.packages| > 0 && |cfg.symlinks| > 0
    requires |outcomes| == |cfg.packages| + |cfg.symlinks|
    ensures Reports(cfg, Initial(cfg), outcomes) ==
      InstallLines(cfg.packages, outcomes[..|cfg.packages|]) +
      LinkLines(cfg.symlinks, outcomes[|cfg.packages|..])
  {
    var p := |cfg.packages|;
    var a, b := outcomes[..p], outcomes[p..];
    assert outcomes == a + b;
    var s0 := Initial(cfg);
    RunInstalls(cfg, s0, a);
    InstallReports(cfg, s0, a);
    var s1 := Run(cfg, s0, a);
    LinkReports(cfg, s1, b);
    InstallReportsThen(cfg, s0, a, b);
    assert cfg.packages[s0.cursor..] == cfg.packages;
    assert cfg.symlinks[s1.cursor..] == cfg.symlinks;
  }

  /** Before the last link completes the run has not quit. */
  lemma ShortRunKeepsGoing(cfg: Config, outcomes: seq<Option<string>>)
    requires |cfg.packages| > 0 && |cfg.symlinks| > 0
    requires |outcomes| < |cfg.packages| + |cfg.symlinks|
    ensures !Run(cfg, Initial(cfg), outcomes).quitting
  {
    var p := |cfg.packages|;
    var s0 := Initial(cfg);
    if |outcomes| <= p {
      RunInstalls(cfg, s0, outcomes);
    } else {
      var a, b := outcomes[..p], outcomes[p..];
      assert outcomes == a + b;
      RunInstalls(cfg, s0, a);
      RunLinks(cfg, Run(cfg, s0, a), b);
      InstallsThen(cfg, s0, a, b);
    }
  }
}
