/** The progress state machine as a pure transition function: one message in,
    the next state and the command for the event loop out. The class in
    ProgressModel performs the same transition in place and is proved equal
    to Step. */
module Machine {
  import opened ConfigTypes
  import opened Phases
  import Text

  datatype Option<T> = None | Some(value: T)

  /** Messages the event loop delivers. A completion carries the unit's
      outcome: None for success, Some(message) for an error. */
  datatype Msg =
    | WindowSize(width: int, height: int)
    | Key(key: string)
    | InstallDone(err: Option<string>)
    | SymlinkDone(err: Option<string>)

  /** Requests handed back to the event loop. SetProgress(num, den) sets the
      bar to the fraction num/den; InstallPackage and CreateSymlink start the
      unit of work for the given list position. */
  datatype Effect =
    | Print(text: string)
    | SetProgress(num: nat, den: nat)
    | InstallPackage(index: nat, name: string)
    | CreateSymlink(index: nat, link: SymLink)
    | SpinnerTick
    | Quit

  /** A Batch runs its effects concurrently in no fixed order; a Sequence runs
      them one after the other. */
  datatype Cmd =
    | NoCmd
    | Single(effect: Effect)
    | Batch(effects: seq<Effect>)
    | Sequence(effects: seq<Effect>)

  /** The fields of the Go model that the transition reads and writes. */
  datatype State = State(
    phase: Phase,
    cursor: nat,
    pkgErr: bool,
    linkErr: bool,
    quitting: bool,
    width: int,
    height: int)

  datatype Transition = Transition(next: State, cmd: Cmd)

  function PhaseLength(cfg: Config, p: Phase): nat {
    match p
    case Packages => |cfg.packages|
    case Symlinks => |cfg.symlinks|
  }

  /** The reachable states: both lists are non-empty (the code indexes their
      first items unconditionally), the cursor points into the current
      phase's list until the run quits, when it rests at the end of the
      symlink list; and no symlink can have failed before the symlink phase. */
  ghost predicate Valid(cfg: Config, s: State) {
    |cfg.packages| > 0 && |cfg.symlinks| > 0 &&
    (s.quitting ==> s.phase == Symlinks && s.cursor == |cfg.symlinks|) &&
    (!s.quitting ==> s.cursor < PhaseLength(cfg, s.phase)) &&
    (s.phase == Packages ==> !s.linkErr)
  }

  /** The messages the loop can deliver in state `s`: input at any time, and a
      completion only for the unit the machine dispatched, which belongs to
      the current phase of a run that has not finished. */
  predicate Expected(s: State, msg: Msg) {
    match msg
    case InstallDone(_) => s.phase == Packages && !s.quitting
    case SymlinkDone(_) => s.phase == Symlinks && !s.quitting
    case _ => true
  }

  /** What the transition itself needs: an install completion looks up the
      package at the cursor (and, ending the phase, the first link); a
      symlink completion looks up the link at the cursor. */
  predicate Ready(cfg: Config, s: State, msg: Msg) {
    match msg
    case InstallDone(_) => s.cursor < |cfg.packages| && |cfg.symlinks| > 0
    case SymlinkDone(_) => s.cursor < |cfg.symlinks|
    case _ => true
  }

  /** The state initModel builds: the package phase at its first item, no
      errors, not quitting, size not yet known. */
  function Initial(cfg: Config): (s: State)
    requires |cfg.packages| > 0 && |cfg.symlinks| > 0
    ensures Valid(cfg, s)
    ensures s.phase == Packages && s.cursor == 0
    ensures !s.pkgErr && !s.linkErr && !s.quitting
  {
    State(Packages, 0, false, false, false, 0, 0)
  }

  const DoneMark: string := "✔"
  const FailMark: string := "✗"
  const InstallsDone: string := "Done! Packages installed"
  const InstallsDoneWithErrors: string := "Done! Packages installed, but with errors"
  const LinksDone: string := "Done! Symlinks created"
  const LinksDoneWithErrors: string := "Done! Symlinks created, but with errors"

  /** The one-line report for a finished unit: a mark and the item, and on
      failure the error detail on an indented second line. */
  function StatusLine(item: string, detail: Option<string>): string {
    match detail
    case None => " " + DoneMark + " " + item
    case Some(d) => " " + FailMark + " " + item + "\n    " + d
  }

  /** An install report; the error text is trimmed of surrounding whitespace. */
  function InstallLine(pkg: string, err: Option<string>): (r: string)
    ensures err.None? ==> r == " ✔ " + pkg
    ensures err.Some? ==> r == " ✗ " + pkg + "\n    " + Text.TrimSpace(err.value)
  {
    StatusLine(pkg, if err.Some? then Some(Text.TrimSpace(err.value)) else None)
  }

  /** On failure the second line of an install report is the error detail
      with no whitespace at either end. */
  lemma InstallDetailTrimmed(pkg: string, e: string)
    ensures var r := InstallLine(pkg, Some(e));
      |r| >= |pkg| + 8 && r[|pkg| + 8..] == Text.TrimSpace(e) &&
      Text.NoEdgeSpace(r[|pkg| + 8..])
  {
    var r := InstallLine(pkg, Some(e));
    assert r == (" ✗ " + pkg + "\n    ") + Text.TrimSpace(e);
  }

  /** A symlink report names the pair as "from -> to"; the error text is
      kept exactly as received. */
  function LinkLine(link: SymLink, err: Option<string>): (r: string)
    ensures err.None? ==> r == " ✔ " + link.from + " -> " + link.to
    ensures err.Some? ==>
      r == " ✗ " + link.from + " -> " + link.to + "\n    " + err.value
  {
    StatusLine(link.from + " -> " + link.to, if err.Some? then Some(err.value) else None)
  }

  /** The package-phase summary names errors exactly when the flag is set. */
  function InstallSummary(withErr: bool): (r: string)
    ensures r == InstallsDoneWithErrors <==> withErr
    ensures r == InstallsDone <==> !withErr
  {
    if withErr then InstallsDoneWithErrors else InstallsDone
  }

  /** The symlink-phase summary names errors exactly when the flag is set. */
  function LinkSummary(withErr: bool): (r: string)
    ensures r == LinksDoneWithErrors <==> withErr
    ensures r == LinksDone <==> !withErr
  {
    if withErr then LinksDoneWithErrors else LinksDone
  }

  /** The unit a state is waiting for: the item at the cursor of its phase. */
  function NextJob(cfg: Config, s: State): Effect
    requires s.cursor < PhaseLength(cfg, s.phase)
  {
    match s.phase
    case Packages => InstallPackage(s.cursor, cfg.packages[s.cursor])
    case Symlinks => CreateSymlink(s.cursor, cfg.symlinks[s.cursor])
  }

  function IsQuitKey(key: string): bool {
    key == "ctrl+c" || key == "q"
  }

  /** One Update: record the terminal size, answer a quit key, or account for
      a finished unit of work and start the next one. */
  function Step(cfg: Config, s: State, msg: Msg): Transition
    requires Ready(cfg, s, msg)
  {
    match msg
    case WindowSize(w, h) =>
      Transition(s.(width := w, height := h), NoCmd)
    case Key(k) =>
      Transition(s, if IsQuitKey(k) then Single(Quit) else NoCmd)
    case InstallDone(err) =>
      var pkg := cfg.packages[s.cursor];
      var c := s.cursor + 1;
      var withErr := s.pkgErr || err.Some?;
      var text := InstallLine(pkg, err);
      if c >= |cfg.packages| then
        Transition(
          s.(cursor := 0, phase := Symlinks, pkgErr := withErr),
          Sequence([Print(text), Print(InstallSummary(withErr)),
                    Print("\nCreating symlinks..."), SetProgress(0, 1),
                    CreateSymlink(0, cfg.symlinks[0])]))
      else
        Transition(
          s.(cursor := c, pkgErr := withErr),
          Batch([SetProgress(c, |cfg.packages|), Print(text),
                 InstallPackage(c, cfg.packages[c])]))
    case SymlinkDone(err) =>
      var link := cfg.symlinks[s.cursor];
      var c := s.cursor + 1;
      var withErr := s.linkErr || err.Some?;
      var text := LinkLine(link, err);
      if c >= |cfg.symlinks| then
        Transition(
          s.(cursor := c, linkErr := withErr, quitting := true),
          Sequence([Print(text), Print(LinkSummary(withErr)), Quit]))
      else
        Transition(
          s.(cursor := c, linkErr := withErr),
          Batch([SetProgress(c, |cfg.symlinks|), Print(text),
                 CreateSymlink(c, cfg.symlinks[c])]))
  }

  function Effects(c: Cmd): seq<Effect> {
    match c
    case NoCmd => []
    case Single(e) => [e]
    case Batch(es) => es
    case Sequence(es) => es
  }

  predicate IsJob(e: Effect) {
    e.InstallPackage? || e.CreateSymlink?
  }

  /** The units of work a list of effects starts, in order. */
  function Jobs(es: seq<Effect>): (r: seq<Effect>)
    ensures |r| <= |es|
    ensures forall k :: 0 <= k < |r| ==> IsJob(r[k]) && r[k] in es
    ensures forall e :: e in es && IsJob(e) ==> e in r
  {
    if es == [] then []
    else if IsJob(es[0]) then [es[0]] + Jobs(es[1..])
    else Jobs(es[1..])
  }

  // ---------------------------------------------------------------------
  // Properties of the transition

  /** In a reachable state every deliverable message can be processed: the
      indexing the code does is in bounds. */
  lemma ExpectedIsReady(cfg: Config, s: State, msg: Msg)
    requires Valid(cfg, s) && Expected(s, msg)
    ensures Ready(cfg, s, msg)
  {
  }

  /** Reachable states stay reachable. */
  lemma StepPreservesValid(cfg: Config, s: State, msg: Msg)
    requires Valid(cfg, s) && Expected(s, msg)
    ensures Valid(cfg, Step(cfg, s, msg).next)
  {
  }

  /** A package completion that is not the last one moves the cursor on by
      one, stays in the package phase, sets the bar to cursor/total and
      starts the package at the new cursor. */
  lemma InstallAdvances(cfg: Config, s: State, err: Option<string>)
    requires Ready(cfg, s, InstallDone(err)) && s.cursor + 1 < |cfg.packages|
    ensures var t := Step(cfg, s, InstallDone(err));
      t.next.cursor == s.cursor + 1 && t.next.phase == s.phase &&
      t.next.quitting == s.quitting &&
      t.cmd == Batch([SetProgress(s.cursor + 1, |cfg.packages|),
                      Print(InstallLine(cfg.packages[s.cursor], err)),
                      InstallPackage(s.cursor + 1, cfg.packages[s.cursor + 1])]) &&
      0 < t.cmd.effects[0].num < t.cmd.effects[0].den
  {
  }

  /** The last package completion rewinds the cursor, enters the symlink
      phase, reports the item and the summary in that order, resets the bar
      and starts the first link. */
  lemma InstallEndsPhase(cfg: Config, s: State, err: Option<string>)
    requires Ready(cfg, s, InstallDone(err)) && s.cursor + 1 >= |cfg.packages|
    ensures var t := Step(cfg, s, InstallDone(err));
      t.next.cursor == 0 && t.next.phase == Symlinks && t.next.quitting == s.quitting &&
      t.cmd == Sequence([Print(InstallLine(cfg.packages[s.cursor], err)),
                         Print(InstallSummary(t.next.pkgErr)),
                         Print("\nCreating symlinks..."),
                         SetProgress(0, 1),
                         CreateSymlink(0, cfg.symlinks[0])])
  {
  }

  /** A symlink completion that is not the last one moves the cursor on by
      one, sets the bar to cursor/total and starts the next link. */
  lemma LinkAdvances(cfg: Config, s: State, err: Option<string>)
    requires Ready(cfg, s, SymlinkDone(err)) && s.cursor + 1 < |cfg.symlinks|
    ensures var t := Step(cfg, s, SymlinkDone(err));
      t.next.cursor == s.cursor + 1 && t.next.phase == s.phase &&
      t.next.quitting == s.quitting &&
      t.cmd == Batch([SetProgress(s.cursor + 1, |cfg.symlinks|),
                      Print(LinkLine(cfg.symlinks[s.cursor], err)),
                      CreateSymlink(s.cursor + 1, cfg.symlinks[s.cursor + 1])])
  {
  }

  /** The last symlink completion ends the run: it quits, and prints the item
      line, then the summary, then stops the loop. */
  lemma LinkEndsRun(cfg: Config, s: State, err: Option<string>)
    requires Ready(cfg, s, SymlinkDone(err)) && s.cursor + 1 >= |cfg.symlinks|
    ensures var t := Step(cfg, s, SymlinkDone(err));
      t.next.quitting && t.next.cursor == s.cursor + 1 &&
      t.cmd == Sequence([Print(LinkLine(cfg.symlinks[s.cursor], err)),
                         Print(LinkSummary(t.next.linkErr)),
                         Quit])
  {
  }

  /** Once in the symlink phase the machine never returns to packages, and a
      run that quit stays quit. */
  lemma PhaseMonotone(cfg: Config, s: State, msg: Msg)
    requires Ready(cfg, s, msg)
    ensures s.phase == Symlinks ==> Step(cfg, s, msg).next.phase == Symlinks
    ensures s.quitting ==> Step(cfg, s, msg).next.quitting
  {
  }

  /** The error flags are sticky: a failed unit sets its phase's flag, and
      nothing else changes either flag. */
  lemma ErrorFlagsSticky(cfg: Config, s: State, msg: Msg)
    requires Ready(cfg, s, msg)
    ensures Step(cfg, s, msg).next.pkgErr ==
            (s.pkgErr || (msg.InstallDone? && msg.err.Some?))
    ensures Step(cfg, s, msg).next.linkErr ==
            (s.linkErr || (msg.SymlinkDone? && msg.err.Some?))
  {
  }

  /** A second package failure has the same effect on the state as a
      success or as any other failure: setting the flag again changes
      nothing. */
  lemma InstallErrorIdempotent(cfg: Config, s: State, e1: string, e2: string)
    requires Ready(cfg, s, InstallDone(Some(e1))) && s.pkgErr
    ensures Step(cfg, s, InstallDone(Some(e1))).next ==
            Step(cfg, s, InstallDone(None)).next
    ensures Step(cfg, s, InstallDone(Some(e1))).next ==
            Step(cfg, s, InstallDone(Some(e2))).next
  {
  }

  /** A second link failure has the same effect on the state as a success or
      as any other failure. */
  lemma LinkErrorIdempotent(cfg: Config, s: State, e1: string, e2: string)
    requires Ready(cfg, s, SymlinkDone(Some(e1))) && s.linkErr
    ensures Step(cfg, s, SymlinkDone(Some(e1))).next ==
            Step(cfg, s, SymlinkDone(None)).next
    ensures Step(cfg, s, SymlinkDone(Some(e1))).next ==
            Step(cfg, s, SymlinkDone(Some(e2))).next
  {
  }

  /** Input never touches the progress: a resize records the size and
      nothing else, and a key leaves the state as it was, answering "q" and
      ctrl+c (only those) with Quit. */
  lemma InputLeavesProgress(cfg: Config, s: State, msg: Msg)
    requires msg.WindowSize? || msg.Key?
    ensures var t := Step(cfg, s, msg);
      t.next.phase == s.phase && t.next.cursor == s.cursor &&
      t.next.pkgErr == s.pkgErr && t.next.linkErr == s.linkErr &&
      t.next.quitting == s.quitting &&
      (msg.WindowSize? ==> t.next.width == msg.width && t.next.height == msg.height && t.cmd == NoCmd) &&
      (msg.Key? ==> t.next == s && (t.cmd == Single(Quit) <==> msg.key in {"q", "ctrl+c"}) &&
                    (t.cmd == NoCmd <==> msg.key !in {"q", "ctrl+c"}))
  {
  }

  /** At most one unit is ever in flight: an expected completion starts
      exactly the one unit the new state waits for, unless the run is over,
      when it starts none and the last effect is Quit; input starts none. */
  lemma OneUnitInFlight(cfg: Config, s: State, msg: Msg)
    requires Valid(cfg, s) && Expected(s, msg)
    ensures var t := Step(cfg, s, msg);
      Valid(cfg, t.next) &&
      ((msg.WindowSize? || msg.Key?) ==> Jobs(Effects(t.cmd)) == []) &&
      ((msg.InstallDone? || msg.SymlinkDone?) && !t.next.quitting ==>
         Jobs(Effects(t.cmd)) == [NextJob(cfg, t.next)]) &&
      ((msg.InstallDone? || msg.SymlinkDone?) && t.next.quitting ==>
         Jobs(Effects(t.cmd)) == [] && Effects(t.cmd)[|Effects(t.cmd)| - 1] == Quit)
  {
    StepPreservesValid(cfg, s, msg);
    match msg
    case WindowSize(_, _) =>
    case Key(k) =>
      JobsNone(Effects(Step(cfg, s, msg).cmd));
    case InstallDone(err) =>
      InstallStartsOne(cfg, s, err);
    case SymlinkDone(err) =>
      LinkStartsAtMostOne(cfg, s, err);
  }

  lemma InstallStartsOne(cfg: Config, s: State, err: Option<string>)
    requires Valid(cfg, s) && s.phase == Packages && !s.quitting
    ensures var t := Step(cfg, s, InstallDone(err));
      !t.next.quitting && Jobs(Effects(t.cmd)) == [NextJob(cfg, t.next)]
  {
    var text := InstallLine(cfg.packages[s.cursor], err);
    if s.cursor + 1 < |cfg.packages| {
      InstallAdvances(cfg, s, err);
      var c := s.cursor + 1;
      var pre := [SetProgress(c, |cfg.packages|), Print(text)];
      JobsLast(pre, InstallPackage(c, cfg.packages[c]));
      assert Effects(Step(cfg, s, InstallDone(err)).cmd) == pre + [InstallPackage(c, cfg.packages[c])];
    } else {
      InstallEndsPhase(cfg, s, err);
      var t := Step(cfg, s, InstallDone(err));
      var pre := [Print(text), Print(InstallSummary(t.next.pkgErr)),
                  Print("\nCreating symlinks..."), SetProgress(0, 1)];
      JobsLast(pre, CreateSymlink(0, cfg.symlinks[0]));
      assert Effects(t.cmd) == pre + [CreateSymlink(0, cfg.symlinks[0])];
    }
  }

  lemma LinkStartsAtMostOne(cfg: Config, s: State, err: Option<string>)
    requires Valid(cfg, s) && s.phase == Symlinks && !s.quitting
    ensures var t := Step(cfg, s, SymlinkDone(err));
      (!t.next.quitting ==> Jobs(Effects(t.cmd)) == [NextJob(cfg, t.next)]) &&
      (t.next.quitting ==> Jobs(Effects(t.cmd)) == [] && Effects(t.cmd)[|Effects(t.cmd)| - 1] == Quit)
  {
    var text := LinkLine(cfg.symlinks[s.cursor], err);
    if s.cursor + 1 < |cfg.symlinks| {
      LinkAdvances(cfg, s, err);
      var c := s.cursor + 1;
      var pre := [SetProgress(c, |cfg.symlinks|), Print(text)];
      JobsLast(pre, CreateSymlink(c, cfg.symlinks[c]));
      assert Effects(Step(cfg, s, SymlinkDone(err)).cmd) == pre + [CreateSymlink(c, cfg.symlinks[c])];
    } else {
      LinkEndsRun(cfg, s, err);
      var t := Step(cfg, s, SymlinkDone(err));
      JobsNone([Print(text), Print(LinkSummary(t.next.linkErr)), Quit]);
    }
  }

  lemma {:induction false} JobsNone(es: seq<Effect>)
    requires forall k :: 0 <= k < |es| ==> !IsJob(es[k])
    ensures Jobs(es) == []
  {
    if es != [] {
      JobsNone(es[1..]);
    }
  }

  lemma {:induction false} JobsAppend(a: seq<Effect>, b: seq<Effect>)
    ensures Jobs(a + b) == Jobs(a) + Jobs(b)
  {
    if a == [] {
      assert a + b == b;
    } else {
      assert (a + b)[0] == a[0];
      assert (a + b)[1..] == a[1..] + b;
      JobsAppend(a[1..], b);
    }
  }

  lemma {:induction false} JobsLast(pre: seq<Effect>, j: Effect)
    requires forall k :: 0 <= k < |pre| ==> !IsJob(pre[k])
    requires IsJob(j)
    ensures Jobs(pre + [j]) == [j]
  {
    if pre == [] {
      assert [j][1..] == [];
    } else {
      assert (pre + [j])[1..] == pre[1..] + [j];
      JobsLast(pre[1..], j);
    }
  }

  /** The executor resolves the home-directory placeholder in each path of
      a link before creating it: a path without `~` is used as given, and in
      a path with one the first `~`, wherever it stands, becomes the home
      directory; a path written `~/...` thus lands under the home directory. */
  function ResolveLink(link: SymLink, home: string): (r: SymLink)
    ensures '~' !in link.from ==> r.from == link.from
    ensures '~' in link.from ==>
      r.from == link.from[..Text.IndexOf(link.from, '~')] + home +
                link.from[Text.IndexOf(link.from, '~') + 1..]
    ensures '~' !in link.to ==> r.to == link.to
    ensures '~' in link.to ==>
      r.to == link.to[..Text.IndexOf(link.to, '~')] + home + link.to[Text.IndexOf(link.to, '~') + 1..]
    ensures |link.from| > 0 && link.from[0] == '~' ==> r.from == home + link.from[1..]
    ensures |link.to| > 0 && link.to[0] == '~' ==> r.to == home + link.to[1..]
  {
    Text.ReplaceFirstTildeSpec(link.from, home);
    Text.ReplaceFirstTildeSpec(link.to, home);
    SymLink(Text.ReplaceFirstTilde(link.from, home), Text.ReplaceFirstTilde(link.to, home))
  }
}
