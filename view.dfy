/** The frame View draws: the spinner cell, the "Installing …"/"Linking …"
    label cut to the room left, a gap of spaces, the progress bar and the
    " cur/total " counter. The spinner and bar renderings are opaque strings;
    widths are string lengths and styles leave text unchanged. */
module Render {
  import opened ConfigTypes
  import opened Phases
  import opened Machine
  import opened Text

  /** Go's `max(0, x)`. */
  function Clamp(x: int): (r: nat)
    ensures r >= x && (r == 0 || r == x)
  {
    if x > 0 then x else 0
  }

  function Min(a: nat, b: nat): nat {
    if a <= b then a else b
  }

  /** `fmt.Sprintf(" %*d/%*d ", w, cursor, w, total)` where w is the number of
      digits of the total. */
  function Counter(cursor: nat, total: nat): string {
    var w := |Decimal(total)|;
    " " + PadLeft(Decimal(cursor), w) + "/" + PadLeft(Decimal(total), w) + " "
  }

  /** While the cursor is within the phase, the counter has the same width
      for every cursor: both numbers take the digit width of the total, the
      cursor right-aligned with spaces before it. */
  lemma CounterLayout(cursor: nat, total: nat)
    requires cursor <= total
    ensures var w := |Decimal(total)|;
      |Counter(cursor, total)| == 2 * w + 3 &&
      Counter(cursor, total) ==
        " " + Spaces(w - |Decimal(cursor)|) + Decimal(cursor) + "/" + Decimal(total) + " "
  {
    var d, t := Decimal(cursor), Decimal(total);
    var w := |t|;
    DecimalWidthMonotone(cursor, total);
    PadLeftFits(d, w);
    PadLeftFits(t, w);
    var c := Counter(cursor, total);
    assert c == " " + PadLeft(d, w) + "/" + PadLeft(t, w) + " ";
    assert c == " " + (Spaces(w - |d|) + d) + "/" + t + " ";
    assert |c| == 1 + (w - |d|) + |d| + 1 + w + 1;
  }

  /** A string no wider than the field is padded on the left to fill it. */
  lemma PadLeftFits(s: string, w: nat)
    requires |s| <= w
    ensures PadLeft(s, w) == Spaces(w - |s|) + s
  {
    if |s| == w {
      assert Spaces(0) + s == s;
    }
  }

  /** The spinner cell: the spinner's rendering with a space on each side. */
  function Head(spinner: string): string {
    " " + spinner + " "
  }

  /** The fixed right-hand part: the bar's rendering and the counter for the
      current phase. */
  function Tail(cfg: Config, s: State, bar: string): string {
    bar + Counter(s.cursor, PhaseLength(cfg, s.phase))
  }

  /** The cells the label may use: the width minus the fixed parts, never
      negative. */
  function Avail(cfg: Config, s: State, spinner: string, bar: string): nat {
    Clamp(s.width - |Head(spinner) + Tail(cfg, s, bar)|)
  }

  /** "Installing <package>" or "Linking <destination>" for the item at the
      cursor. */
  function Label(cfg: Config, s: State): string
    requires s.cursor < PhaseLength(cfg, s.phase)
  {
    match s.phase
    case Packages => "Installing " + cfg.packages[s.cursor]
    case Symlinks => "Linking " + cfg.symlinks[s.cursor].to
  }

  /** Joins the parts with a gap of spaces that fills the line up to `width`;
      the gap is never negative, so a line too narrow for its parts has none. */
  function Layout(head: string, info: string, tail: string, width: int): (r: string)
    ensures |r| == if width > |head| + |info| + |tail| then width else |head| + |info| + |tail|
    ensures r == head + info + Spaces(|r| - |head| - |info| - |tail|) + tail
  {
    head + info + Spaces(Clamp(width - |head + info + tail|)) + tail
  }

  /** The shape of a drawn line: it starts with `head` and ends with `tail`;
      between them stands the longest prefix of `caption` that fits beside
      them in `width` cells, then spaces. A line wide enough for `head` and
      `tail` is exactly `width` long; one wide enough for the whole caption
      shows it whole; one too narrow for `head` and `tail` shows no caption. */
  predicate Shows(r: string, head: string, caption: string, tail: string, width: int) {
    var shown := Min(|caption|, Clamp(width - |head| - |tail|));
    |head| + shown + |tail| <= |r| &&
    r[..|head|] == head && r[|r| - |tail|..] == tail &&
    r[|head|..|head| + shown] == caption[..shown] &&
    (forall k :: |head| + shown <= k < |r| - |tail| ==> r[k] == ' ') &&
    (width >= |head| + |tail| ==> |r| == width) &&
    (width >= |head| + |tail| + |caption| ==>
       r == head + caption + Spaces(width - |head| - |tail| - |caption|) + tail) &&
    (width <= |head| + |tail| ==> r == head + tail)
  }

  /** The frame of a state: empty once quitting, otherwise the spinner cell,
      the label of the item at the cursor cut to the room left, a gap, and
      the bar with the counter, laid out as Shows describes. */
  function Frame(cfg: Config, s: State, spinner: string, bar: string): (r: string)
    requires !s.quitting ==> s.cursor < PhaseLength(cfg, s.phase)
    ensures s.quitting ==> r == ""
    ensures !s.quitting ==> Shows(r, Head(spinner), Label(cfg, s), Tail(cfg, s, bar), s.width)
  {
    if s.quitting then ""
    else
      var head := Head(spinner);
      var tail := Tail(cfg, s, bar);
      var avail := Avail(cfg, s, spinner, bar);
      var info := Truncate(Label(cfg, s), avail);
      LayoutOfTruncated(head, Label(cfg, s), tail, s.width);
      Layout(head, info, tail, s.width)
  }

  /** Cutting the caption to the room the width leaves beside the fixed
      parts gives a line of the shape Shows describes. */
  lemma LayoutOfTruncated(head: string, caption: string, tail: string, width: int)
    ensures Shows(Layout(head, Truncate(caption, Clamp(width - |head + tail|)), tail, width),
                  head, caption, tail, width)
  {
    var avail := Clamp(width - |head + tail|);
    var info := Truncate(caption, avail);
    var r := Layout(head, info, tail, width);
    var gap := Spaces(|r| - |head| - |info| - |tail|);
    assert r == head + info + gap + tail;
    assert r[..|head|] == head;
    assert r[|head|..|head| + |info|] == info;
    assert r[|r| - |tail|..] == tail;
    forall k | |head| + |info| <= k < |r| - |tail|
      ensures r[k] == ' '
    {
      assert r[k] == gap[k - |head| - |info|];
    }
    if width <= |head| + |tail| {
      assert info == [];
      assert gap == [];
      assert r == head + tail;
    }
  }

  /** The frame as the code draws it with the styling library's MaxWidth, for
      which a limit of 0 means no limit: where some room is left it is the
      corrected frame, and where none is left the label is drawn whole. */
  function FrameAsWritten(cfg: Config, s: State, spinner: string, bar: string): (r: string)
    requires !s.quitting ==> s.cursor < PhaseLength(cfg, s.phase)
    ensures s.quitting ==> r == ""
    ensures !s.quitting && Avail(cfg, s, spinner, bar) > 0 ==> r == Frame(cfg, s, spinner, bar)
    ensures !s.quitting && Avail(cfg, s, spinner, bar) == 0 ==>
      r == Layout(Head(spinner), Label(cfg, s), Tail(cfg, s, bar), s.width)
  {
    if s.quitting then ""
    else
      var info := LipglossMaxWidth(Label(cfg, s), Avail(cfg, s, spinner, bar));
      Layout(Head(spinner), info, Tail(cfg, s, bar), s.width)
  }

  /** A terminal no wider than the spinner cell, bar and counter together
      (one 45 cells wide beside a 40-cell bar, or one whose width is still 0)
      leaves the label 0 cells. As written the label is then drawn whole and
      the line is longer than the terminal by at least the label; the
      corrected frame leaves the label out. */
  lemma NarrowTerminalOverflows(cfg: Config, s: State, spinner: string, bar: string)
    requires !s.quitting && s.cursor < PhaseLength(cfg, s.phase)
    requires s.width <= |Head(spinner) + Tail(cfg, s, bar)|
    ensures FrameAsWritten(cfg, s, spinner, bar) ==
            Head(spinner) + Label(cfg, s) + Tail(cfg, s, bar)
    ensures |FrameAsWritten(cfg, s, spinner, bar)| >= s.width + |Label(cfg, s)| > s.width
    ensures Frame(cfg, s, spinner, bar) == Head(spinner) + Tail(cfg, s, bar)
  {
    var head, caption, tail := Head(spinner), Label(cfg, s), Tail(cfg, s, bar);
    assert Avail(cfg, s, spinner, bar) == 0;
    var r := Layout(head, caption, tail, s.width);
    assert Spaces(|r| - |head| - |caption| - |tail|) == [];
    assert r == head + caption + tail;
  }
}
