# di0build progress model in Dafny

di0build installs a list of packages and then creates a list of symbolic
links, showing its progress in a terminal user interface. The heart of it is
a two-phase state machine, `Model` in `internal/model/model.go`.

- `Update` consumes one message from the event loop:
  - a window resize;
  - a key press;
  - the completion of a package install (`InstallMsg`);
  - the completion of a symlink creation (`SymlinkMsg`).
- On each completion it moves a cursor through the package list and then the
  link list, and it records a sticky error flag per phase.
- It prints a ✔/✗ status line per item and a summary per phase. It then
  starts the next unit of work or quits.
- `View` draws one line: a spinner cell, the "Installing …"/"Linking …"
  label cut to the room left, a gap, the progress bar and a
  " cursor/total " counter.

The project has these files:

- `config.dfy` (modules `ConfigTypes`, `Phases`): the configuration records
  `SymLink{From, To}` and `Config{Symlinks, Packages}`, and the phase
  enumeration.
- `machine.dfy` (module `Machine`): the transition as a pure function.
  - `Step(cfg, s, msg)` mirrors Go's value-receiver `Update`. It returns the
    next `State` and the command as a `Cmd`, an ordered list of `Effect`s:
    `Print`, `SetProgress(num, den)`, `InstallPackage`, `CreateSymlink`,
    `SpinnerTick` and `Quit`.
  - Lemmas state what each kind of message does. Further lemmas cover
    reachability (`Valid`), phase monotonicity, sticky flags, the status
    and summary texts, and that exactly one unit of work is in flight.
- `model.dfy` (module `ProgressModel`): the Go `Model` as a class.
  - Its fields are changed in place by `Update` and its two completion arms.
  - Each method is proved to leave the fields as `Step` computes and to
    return `Step`'s command.
  - `View` is a function of the fields. It draws the frame as the code
    draws it (`Render.FrameAsWritten`).
- `runs.dfy` (module `Runs`): whole runs, the machine fed one completion
  after another. A run ends after exactly one completion per package and per
  link. It reports every item once, in list order, failed ones included, and
  each phase's flag says whether one of its units failed.
- `view.dfy` (module `Render`): the frame `View` draws. It covers the
  counter's padding, available and remaining width clamped at 0, label
  truncation, and the empty frame once quitting.
  - `FrameAsWritten` is the code's frame.
  - `Frame` is a corrected frame, which drops the label when no room is
    left (see "## Findings").
  - The two agree whenever some room is left.
- `text.dfy` (module `Text`): the string operations the code borrows from
  Go's library, written out. These are `strings.TrimSpace` with
  `unicode.IsSpace`'s character set, `strings.Replace(s, "~", home, 1)`,
  `%d`, `%*d` padding, `strings.Repeat` and truncation.

Where the code and the design description disagree, the model follows the
code:

- The counter is padded with spaces (`%*d`), not zeros.
- A quit key returns `tea.Quit` without setting `IsQuitting`.
- The two error flags are separate fields that are never reset.
- Symlink error texts are printed as received; only install errors are
  trimmed.
- The first `~` anywhere in a path is replaced, not only a leading one.
- The bar is reset to 0 when the package phase ends. It is not set to 100%
  at the end of a phase.

## Model

| member | source | states |
|---|---|---|
| Machine.Initial | internal/model/model.go:40-54 | the initial state is the package phase at cursor 0, with no error flag, not quitting, and reachable |
| ProgressModel.Model.constructor | internal/model/model.go:40-54 | the new object's fields are exactly `Initial(cfg)` and satisfy the reachability invariant |
| ProgressModel.Model.Init | internal/model/model.go:57-63 | Init returns a Batch of the "Installing packages..." print, the install of the package at the cursor and the spinner tick; the install is the only unit it starts |
| ProgressModel.Model.Update | internal/model/model.go:65-160 | one message changes the fields to the state `Step` computes and returns `Step`'s command, keeping the invariant |
| ProgressModel.Model.OnInstall | internal/model/model.go:84-122 | the InstallMsg arm changes the fields and returns the command exactly as `Step` does for that completion |
| ProgressModel.Model.OnSymlink | internal/model/model.go:123-157 | the SymlinkMsg arm changes the fields and returns the command exactly as `Step` does for that completion |
| ProgressModel.Model.View | internal/model/model.go:162-197 | the view of the fields, drawn as the code draws it, is empty once quitting. With room left for the label it is the line `Render.Shows` describes for the item at the cursor; with no room it is the spinner cell, the whole label, then bar and counter |
| Machine.ExpectedIsReady | internal/model/model.go:85 | in a reachable state, every message the loop can deliver indexes a list within bounds |
| Machine.StepPreservesValid | internal/model/model.go:65-160 | a reachable state stays reachable: the cursor stays inside its phase's list until the run quits at the end of the link list |
| Machine.InstallAdvances | internal/model/model.go:84-122 | a non-final install completion moves the cursor up by exactly 1 and stays in the package phase. It sets the bar to cursor/total, strictly between 0 and 1, prints the item line and starts the package at the new cursor, in a Batch |
| Machine.InstallEndsPhase | internal/model/model.go:98-112 | the final install completion rewinds the cursor to 0 and enters the symlink phase. In a Sequence it prints the item line, the summary and "\nCreating symlinks...", resets the bar to 0 and starts link 0 |
| Machine.LinkAdvances | internal/model/model.go:123-157 | a non-final link completion moves the cursor up by exactly 1. It sets the bar to cursor/total, prints the item line and starts the next link, in a Batch |
| Machine.LinkEndsRun | internal/model/model.go:137-147 | the final link completion sets quitting and emits, in sequence, the item line, the summary and Quit |
| Machine.PhaseMonotone | internal/model/model.go:98-100 | no message takes the symlink phase back to packages, and a run that quit stays quit |
| Machine.ErrorFlagsSticky | internal/model/model.go:89-92 | each new flag is the old flag or'ed with "this message is a failed completion of that phase"; success never clears a flag and input never touches one. Lines 128-131 give the link flag the same rule |
| Machine.InstallErrorIdempotent | internal/model/model.go:89-92 | once the package flag is set, a failed install leads to the same state as a success or as any other failure |
| Machine.LinkErrorIdempotent | internal/model/model.go:128-131 | once the link flag is set, a failed link leads to the same state as a success or as any other failure |
| Machine.InstallSummary | internal/model/model.go:102-105 | the package summary is "Done! Packages installed, but with errors" exactly when the flag is set, and "Done! Packages installed" exactly when it is not |
| Machine.LinkSummary | internal/model/model.go:139-142 | the symlink summary is "Done! Symlinks created, but with errors" exactly when the flag is set, and "Done! Symlinks created" exactly when it is not |
| Machine.InstallLine | internal/model/model.go:88-95 | on success the install line is " ✔ " + package; on failure it is " ✗ " + package + "\n    " + the trimmed error |
| Machine.InstallDetailTrimmed | internal/model/model.go:93 | the detail line of a failed install is the error with no whitespace at either end |
| Machine.LinkLine | internal/model/model.go:127-134 | a link line names "from -> to"; on failure the error text follows on the next line, exactly as received |
| Machine.InputLeavesProgress | internal/model/model.go:67-73 | a resize records the size and nothing else. A key changes no field and answers "q" and "ctrl+c", and only those, with Quit |
| Machine.OneUnitInFlight | internal/model/model.go:118-122 | an expected completion starts exactly the unit the new state waits for; the last one starts none and ends with Quit; input starts none |
| Machine.InstallStartsOne | internal/model/model.go:106-122 | an install completion never quits and it starts exactly the unit at the new cursor, a package or link 0 |
| Machine.LinkStartsAtMostOne | internal/model/model.go:143-157 | a link completion starts the next link, or, when it ends the run, no unit, with Quit last |
| Machine.ResolveLink | internal/model/model.go:212-217 | each path of a link is resolved on its own. A path without `~` is kept. In a path with one, the first `~`, wherever it stands, becomes the home directory and the rest is kept, so `~/...` becomes home + the rest |
| Text.ReplaceFirstTildeSpec | internal/model/model.go:216-217 | the first `~`, wherever it stands, is replaced by the home directory and the rest is kept; a path without `~` is unchanged |
| Text.ReplaceFirstTildeCount | internal/model/model.go:216-217 | with a home directory that has no `~`, exactly one `~` disappears when there is one, so only the first is replaced |
| Text.TrimSpace | internal/model/model.go:93 | the trimmed error has no whitespace (Go's `unicode.IsSpace`) at either end, and is no longer than the input; an untrimmed-edged input is returned unchanged |
| Text.TrimSpaceSlices | internal/model/model.go:93 | trimming returns an unchanged slice of the input, with only whitespace removed on both sides |
| Text.TrimSpaceIdempotent | internal/model/model.go:93 | trimming twice is trimming once |
| Text.Decimal | internal/model/model.go:171 | `%d` of a count gives at least one decimal digit and no leading zero |
| Text.DecimalValue | internal/model/model.go:171 | the digits `%d` gives denote the number |
| Text.DecimalWidthMonotone | internal/model/model.go:171-173 | a cursor no larger than the total never has more digits than the total |
| Text.PadLeft | internal/model/model.go:173 | `%*d` right-aligns in a field of w cells with spaces on the left, and keeps a longer number whole |
| Text.Truncate | internal/model/model.go:187 | the label is cut to at most n cells, keeps a prefix of it, and is unchanged when it fits |
| Text.LipglossMaxWidth | internal/model/model.go:187 | the styling library's MaxWidth truncates to n cells when n is positive, and returns the string whole when n is 0 |
| Render.Clamp | internal/model/model.go:177 | `max(0, x)` is never negative, at least x, and either 0 or x |
| Render.CounterLayout | internal/model/model.go:171-173 | the counter is " " + spaces + cursor + "/" + total + " ", both numbers in a field as wide as the total, so it is 2w+3 cells wide for every cursor in the phase |
| Render.Layout | internal/model/model.go:193-196 | the line fills the width exactly when the parts are narrower, and otherwise has no gap; the gap is spaces between label and bar |
| Render.LayoutOfTruncated | internal/model/model.go:177-196 | the label cut to the clamped room gives a line of the shape Shows describes |
| Render.Frame | internal/model/model.go:162-197 | the corrected frame is "" once quitting. Otherwise it is spinner cell, the longest label prefix that fits, spaces, then bar and counter; it is exactly as wide as a terminal that has room for the fixed parts, and shows no label when there is no room |
| Render.FrameAsWritten | internal/model/model.go:162-197 | the frame as the code draws it with MaxWidth is "" once quitting. With room left for the label it is the corrected `Frame`; with no room it is the layout of the whole label between the fixed parts |
| Render.NarrowTerminalOverflows | internal/model/model.go:187 | on a terminal no wider than spinner, bar and counter, the code as written draws the whole label and overflows by at least its length; the corrected frame drops the label |
| Runs.Next | internal/model/model.go:84-157 | the state after one completion is reachable |
| Runs.StepOfCompletion | internal/model/model.go:84-157 | `Next` and `Report` are the next state and the first printed line of `Step` on a completion |
| Runs.Run | internal/model/model.go:65-160 | the state after a run of completions is reachable, keeps the terminal size and never leaves the symlink phase |
| Runs.InstallsThen | internal/model/model.go:98-112 | a run across the phase boundary is the package run followed by the rest from where it ended |
| Runs.InstallReportsThen | internal/model/model.go:98-112 | the lines of a run across the phase boundary are the package lines followed by the lines of the rest |
| Runs.RunInstalls | internal/model/model.go:84-122 | k package completions advance the cursor by k within the phase, or land on link 0 at the end; the package flag is set exactly when one failed; the run does not quit |
| Runs.RunLinks | internal/model/model.go:123-157 | k link completions advance the cursor by k; the run quits exactly when the cursor reaches the end; the link flag is set exactly when one failed |
| Runs.InstallReports | internal/model/model.go:88-95 | the package phase prints one line per completion, for the packages from the cursor in order |
| Runs.InstallLinesAt | internal/model/model.go:88-95 | the k-th package line is the line of the k-th package with the k-th outcome |
| Runs.LinkReports | internal/model/model.go:127-134 | the symlink phase prints one line per completion, for the links from the cursor in order |
| Runs.LinkLinesAt | internal/model/model.go:127-134 | the k-th link line is the line of the k-th link with the k-th outcome |
| Runs.WholeRun | internal/model/model.go:65-160 | from the initial state, one outcome per package and per link makes the run quit. The package flag is set exactly when a package failed, and the link flag exactly when a link failed |
| Runs.WholeRunReports | internal/model/model.go:65-160 | a whole run prints the line of every package and then of every link, each once and in list order |
| Runs.ShortRunKeepsGoing | internal/model/model.go:137-138 | fewer outcomes than packages plus links never make the run quit |

## Left out

- Spinner ticks and progress-bar animation frames (`spinner.TickMsg`,
  `progress.FrameMsg`, internal/model/model.go:74-83) are not modelled. They
  only advance the two embedded widgets, so their renderings reach `View` as
  opaque strings.
- The event loop's scheduling is not modelled. That covers `tea.Batch` running
  its commands concurrently, `tea.Sequence` running them in order, and the
  goroutines that run them. `Batch` and `Sequence` are kept as two labels on
  an ordered effect list.
- The units of work themselves are parameters. `sudo pacman -S` through
  `exec.Command`, and `os.MkdirAll` with `os.Symlink`, are each represented
  only by the outcome of the completion message (`None`, or `Some(error
  text)`). The home directory from `os.UserHomeDir` is the `home` parameter
  of `ResolveLink`.
- The progress fraction is the pair `SetProgress(num, den)`, not a float.
- Colours and styles are left as plain text. Width is string length, so
  ANSI-aware and double-width cell counting is not modelled.
- Configuration loading, the logger, `main` and `RunInstaller` are not part
  of this model. Only the `SymLink` and `Config` shapes are kept. Link
  entries are values, so a nil `*SymLink` in the list is not represented.
- The `Status` enumeration in internal/model/status.go:3-9 is not modelled.
  The model never uses it.
- Empty package or link lists are excluded by precondition. The code indexes
  the first item of each list unconditionally, so it has no defined
  behaviour there.
- ProgressModel.Model.Update requires `Expected`: a completion arrives only
  for the phase in progress. The event loop guarantees this by starting one
  unit at a time. A stray completion in the wrong phase is not modelled;
  `Step` itself needs only the indexing bounds.
- ProgressModel.Model.Init states the command it returns but not the state
  it leaves. Go's value receiver discards any change, and this method
  changes nothing.

## Findings

| source | as written | input that shows it | evidently intended | confidence | as-written member | corrected member |
|---|---|---|---|---|---|---|
| internal/model/model.go:187 | the label is cut with `MaxWidth(cellsAvail)`. When the terminal leaves no room, `cellsAvail` is clamped to 0, and the styling library treats a maximum width of 0 as "no limit", so the whole label is drawn | a terminal 45 cells wide beside the 40-cell bar, or width 0 before the first resize, while installing "git": the line carries all of "Installing git" and is longer than the terminal by at least 14 cells | with no room left the label is left out, so the line grows no wider than the spinner, bar and counter | medium, not executed | Render.NarrowTerminalOverflows | Render.Frame |
