/** The Go `Model` as an object whose fields Update changes in place. Each
    method is proved to leave the object in the state Machine.Step computes
    and to return the command Step returns, so every property proved of
    Step and of whole runs holds of the object. */
module ProgressModel {
  import opened ConfigTypes
  import opened Phases
  import opened Machine
  import Render

  class Model {
    const cfg: Config
    var cursor: nat
    var phase: Phase
    var pkgErr: bool
    var linkErr: bool
    var quitting: bool
    var width: int
    var height: int

    /** The fields as a Machine state. */
    function Snapshot(): State
      reads this
    {
      State(phase, cursor, pkgErr, linkErr, quitting, width, height)
    }

    ghost predicate Valid()
      reads this
    {
      Machine.Valid(cfg, Snapshot())
    }

    /** initModel: the package phase at its first item, no errors, not
        quitting, size not yet known. */
    constructor (cfg: Config)
      requires |cfg.packages| > 0 && |cfg.symlinks| > 0
      ensures this.cfg == cfg && Valid()
      ensures Snapshot() == Initial(cfg)
    {
      this.cfg := cfg;
      cursor := 0;
      phase := Packages;
      pkgErr, linkErr, quitting := false, false, false;
      width, height := 0, 0;
    }

    /** Init announces the package phase and starts the unit at the cursor
        and the spinner; it changes nothing. */
    method Init() returns (cmd: Cmd)
      requires cursor < |cfg.packages|
      ensures cmd == Batch([Print("Installing packages..."),
                            InstallPackage(cursor, cfg.packages[cursor]),
                            SpinnerTick])
      ensures Jobs(Effects(cmd)) == [InstallPackage(cursor, cfg.packages[cursor])]
    {
      var start := InstallPackage(cursor, cfg.packages[cursor]);
      cmd := Batch([Print("Installing packages..."), start, SpinnerTick]);
      JobsLast([Print("Installing packages...")], start);
      assert Effects(cmd) == [Print("Installing packages...")] + [start] + [SpinnerTick];
      assert Jobs([SpinnerTick]) == [];
      assert Jobs(Effects(cmd)) == Jobs([Print("Installing packages...")] + [start]) + Jobs([SpinnerTick]) by {
        JobsAppend([Print("Installing packages...")] + [start], [SpinnerTick]);
      }
    }

    /** Update consumes one message, changing the fields as Step does and
        returning Step's command. */
    method Update(msg: Msg) returns (cmd: Cmd)
      requires Valid() && Expected(Snapshot(), msg)
      modifies this
      ensures Valid()
      ensures Transition(Snapshot(), cmd) == Step(cfg, old(Snapshot()), msg)
    {
      StepPreservesValid(cfg, Snapshot(), msg);
      match msg
      case WindowSize(w, h) =>
        width, height := w, h;
        cmd := NoCmd;
      case Key(k) =>
        if k == "ctrl+c" || k == "q" {
          cmd := Single(Quit);
        } else {
          cmd := NoCmd;
        }
      case InstallDone(err) =>
        cmd := OnInstall(err);
      case SymlinkDone(err) =>
        cmd := OnSymlink(err);
    }

    /** The InstallDone arm of Update. */
    method OnInstall(err: Option<string>) returns (cmd: Cmd)
      requires Ready(cfg, Snapshot(), InstallDone(err))
      modifies this
      ensures Transition(Snapshot(), cmd) == Step(cfg, old(Snapshot()), InstallDone(err))
    {
      var pkg := cfg.packages[cursor];
      cursor := cursor + 1;
      var text := InstallLine(pkg, err);
      if err.Some? {
        if !pkgErr {
          pkgErr := true;
        }
      }
      if cursor >= |cfg.packages| {
        cursor := 0;
        phase := Symlinks;
        var done := InstallSummary(pkgErr);
        cmd := Sequence([Print(text), Print(done), Print("\nCreating symlinks..."),
                         SetProgress(0, 1), CreateSymlink(cursor, cfg.symlinks[cursor])]);
      } else {
        cmd := Batch([SetProgress(cursor, |cfg.packages|), Print(text),
                      InstallPackage(cursor, cfg.packages[cursor])]);
      }
    }

    /** The SymlinkDone arm of Update. */
    method OnSymlink(err: Option<string>) returns (cmd: Cmd)
      requires Ready(cfg, Snapshot(), SymlinkDone(err))
      modifies this
      ensures Transition(Snapshot(), cmd) == Step(cfg, old(Snapshot()), SymlinkDone(err))
    {
      var link := cfg.symlinks[cursor];
      cursor := cursor + 1;
      var text := LinkLine(link, err);
      if err.Some? {
        if !linkErr {
          linkErr := true;
        }
      }
      if cursor >= |cfg.symlinks| {
        quitting := true;
        var done := LinkSummary(linkErr);
        cmd := Sequence([Print(text), Print(done), Quit]);
      } else {
        cmd := Batch([SetProgress(cursor, |cfg.symlinks|), Print(text),
                      CreateSymlink(cursor, cfg.symlinks[cursor])]);
      }
    }

    /** View draws the frame of the current fields as the code does:
        nothing once the run quits; with room left for the label, the line
        Render.Shows describes for the item at the cursor; with no room, the
        whole label between the fixed parts. */
    function View(spinner: string, bar: string): (r: string)
      reads this
      requires Valid()
      ensures quitting ==> r == ""
      ensures !quitting && Render.Avail(cfg, Snapshot(), spinner, bar) > 0 ==>
        Render.Shows(r, Render.Head(spinner), Render.Label(cfg, Snapshot()),
                     Render.Tail(cfg, Snapshot(), bar), width)
      ensures !quitting && Render.Avail(cfg, Snapshot(), spinner, bar) == 0 ==>
        r == Render.Head(spinner) + Render.Label(cfg, Snapshot()) + Render.Tail(cfg, Snapshot(), bar)
    {
      Render.FrameAsWritten(cfg, Snapshot(), spinner, bar)
    }
  }
}
