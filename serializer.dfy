/** updateMarkdownContent: the document is rewritten from its own lines, not
    from the project tree. Heading lines and lines it does not recognise
    are copied; recognised metadata lines are dropped and generated again
    from the project; the body of every `###` subsection, up to the next
    line starting with `#`, is replaced by a generated Time/Color/Notes
    block. The text produced is a list of lines, each followed by "\n",
    trimmed, plus one final "\n". */
module Serializer {
  import opened Wrappers
  import opened Text
  import opened JsObject
  import opened Model
  import opened Notes
  import opened Lines
  import opened JsSort

  /** What the serializer reads besides the text: the project, the
      `(seconds / 3600).toFixed(1)` formatter of the daily-work block and
      today's date, written for an event without one. */
  datatype Context = Context(project: Project, formatHours: int -> string, today: string)

  // ---------------------------------------------------------------- line tests (untrimmed, as written)

  /** The metadata lines the main loop drops wherever they are. */
  predicate Metadata(l: string) {
    || StartsWith(l, "DailyWork:") || StartsWith(l, "Timeline Start:") || StartsWith(l, "Timeline End:")
    || StartsWith(l, "Timeline Events:") || StartsWith(l, "Daily Work:") || StartsWith(l, "Time:")
    || StartsWith(l, "Color:")
  }

  /** A dropped line: metadata, or a blank line before the first `##` heading. */
  predicate Dropped(l: string, firstSec: bool) {
    Metadata(l) || (!firstSec && Trim(l) == "")
  }

  /** The lines `skip()` passes over after the title and after a `##` heading. */
  predicate Skipped(l: string) {
    || Trim(l) == "" || StartsWith(l, "Time:") || StartsWith(l, "Color:") || StartsWith(l, "Daily Work:")
    || StartsWith(l, "Timeline Start:") || StartsWith(l, "Timeline End:") || StartsWith(l, "Timeline Events:")
    || (StartsWith(Trim(l), "- ") && !StartsWith(l, "## ") && !StartsWith(l, "### "))
  }

  /** A line of a `###` body: anything up to the next line starting with `#`. */
  predicate InBody(l: string) {
    !StartsWith(l, "#")
  }

  datatype Kind = Drop | Title | L2 | L3 | Copy

  /** Which branch of the main loop line `i` takes. Only the first line can
      be the document title. */
  function KindOf(lines: seq<string>, i: nat, firstSec: bool): (kind: Kind)
    requires i < |lines|
    ensures kind == L2 ==> |lines[i]| >= 3
    ensures kind == L3 ==> |lines[i]| >= 4
  {
    var l := lines[i];
    if Dropped(l, firstSec) then Drop
    else if i == 0 && StartsWith(l, "# ") then Title
    else if IsL2Line(l) then L2
    else if StartsWith(l, "### ") then L3
    else Copy
  }

  // ---------------------------------------------------------------- generated blocks

  function OrNotSet(s: string): string {
    if s == "" then "not set" else s
  }

  /** One `- <date>: <hours>h` line per entry. */
  function DailyLines(entries: seq<(string, int)>, formatHours: int -> string): (r: seq<string>)
    ensures |r| == |entries|
  {
    seq(|entries|, k requires 0 <= k < |entries| => "- " + entries[k].0 + ": " + formatHours(entries[k].1) + "h")
  }

  /** The `Daily Work:` block, from the latest date down; nothing when no day was worked. */
  function DailyBlock(ctx: Context): seq<string> {
    var dw := ctx.project.dailyWork;
    if |dw| == 0 then [] else ["Daily Work:"] + DailyLines(SortDescending(dw), ctx.formatHours) + [""]
  }

  /** One `- <date>: <note>` line per event, today's date standing in for a missing one. */
  function EventLines(events: seq<Event>, today: string): (r: seq<string>)
    ensures |r| == |events|
  {
    seq(|events|, k requires 0 <= k < |events| =>
      "- " + (if events[k].date == "" then today else events[k].date) + ": " + events[k].note)
  }

  /** The timeline block: only when a start or an end is set. */
  function TimelineBlock(ctx: Context): seq<string> {
    var tl := ctx.project.timeline;
    if tl.startDate == "" && tl.endDate == "" then []
    else
      ["Timeline Start: " + OrNotSet(tl.startDate), "Timeline End: " + OrNotSet(tl.endDate)]
      + (if |tl.events| > 0 then ["", "Timeline Events:"] + EventLines(tl.events, ctx.today) else [])
      + [""]
  }

  /** The title line and the project's metadata after it. */
  function TitleBlock(l: string, ctx: Context): seq<string> {
    [l, "", "Time: " + IntToString(ctx.project.totalTime), ""] + DailyBlock(ctx) + TimelineBlock(ctx)
  }

  function ColorLine(c: string): seq<string> {
    if c == "" then [] else ["Color: " + c]
  }

  /** The metadata after a `##` heading: only for a section of the project. */
  function SectionMeta(sections: Entries<Section>, t: string): seq<string> {
    match Get(sections, t)
    case None => []
    case Some(sec) => ["", "Time: " + IntToString(sec.totalTime)] + ColorLine(sec.color)
  }

  /** The title of the nearest `##` heading among the first `n` lines, or "". */
  function Parent(lines: seq<string>, n: nat): string
    requires n <= |lines|
  {
    if n == 0 then ""
    else if IsL2Line(lines[n - 1]) then Trim(lines[n - 1][3..])
    else Parent(lines, n - 1)
  }

  /** `state.projectData[parent]?.[t]`. */
  function SubsectionOf(sections: Entries<Section>, parent: string, t: string): Option<Subsection> {
    match Get(sections, parent)
    case None => None
    case Some(sec) => Get(sec.subsections, t)
  }

  function NoteLines(notes: seq<NoteItem>): (r: seq<string>)
    ensures |r| == |notes|
  {
    seq(|notes|, k requires 0 <= k < |notes| => RenderNote(notes[k]))
  }

  /** What replaces a `###` body: nothing for a subsection the project lacks. */
  function SubsectionBlock(d: Option<Subsection>): seq<string> {
    match d
    case None => []
    case Some(sub) =>
      ["", "Time: " + IntToString(sub.totalTime)] + ColorLine(sub.color)
      + (if |sub.oldNotes| > 0 then ["", "**Notes:**"] + NoteLines(sub.oldNotes) else [])
      + [""]
  }

  // ---------------------------------------------------------------- the walk

  /** Where the main loop goes on after line `i`: past the lines `skip()`
      passes over after the title or a `##` heading, past a `###` body, or
      to the next line. */
  function NextLine(lines: seq<string>, i: nat, kind: Kind): (k: nat)
    requires i < |lines|
    ensures i < k <= |lines|
  {
    match kind
    case Title => RunEnd(lines, i + 1, Skipped)
    case L2 => RunEnd(lines, i + 1, Skipped)
    case L3 => RunEnd(lines, i + 1, InBody)
    case _ => i + 1
  }

  /** The lines one turn of the main loop appends at line `i`. */
  function Appended(lines: seq<string>, i: nat, firstSec: bool, kind: Kind, ctx: Context): seq<string>
    requires i < |lines| && kind == KindOf(lines, i, firstSec)
  {
    var l := lines[i];
    match kind
    case Drop => []
    case Title => TitleBlock(l, ctx)
    case L2 => (if firstSec then [] else [""]) + [l] + SectionMeta(ctx.project.sections, Trim(l[3..]))
    case L3 => [l] + SubsectionBlock(SubsectionOf(ctx.project.sections, Parent(lines, i + 1), Trim(l[4..])))
    case Copy => [l]
  }

  /** One turn of the main loop at line `i`: the next line it looks at,
      whether a `##` heading has been seen, and the lines it appends. */
  function Piece(lines: seq<string>, i: nat, firstSec: bool, ctx: Context): (r: (nat, bool, seq<string>))
    requires i < |lines|
    ensures i < r.0 <= |lines|
  {
    var kind := KindOf(lines, i, firstSec);
    (NextLine(lines, i, kind), firstSec || kind == L2, Appended(lines, i, firstSec, kind, ctx))
  }

  /** The lines the loop appends from line `i` on. */
  function Walk(lines: seq<string>, i: nat, firstSec: bool, ctx: Context): seq<string>
    requires i <= |lines|
    decreases |lines| - i
  {
    if i == |lines| then []
    else
      var (k, fs, out) := Piece(lines, i, firstSec, ctx);
      out + Walk(lines, k, fs, ctx)
  }

  /** The appended lines as one string, each followed by "\n". */
  function Emit(out: seq<string>): string {
    if out == [] then "" else out[0] + "\n" + Emit(out[1..])
  }

  /** `newContent.trim() + '\n'`: the text ends with exactly one newline. */
  function Render(text: string): (r: string)
    ensures |r| >= 1 && r[|r| - 1] == '\n'
    ensures |r| == 1 || !IsSpace(r[|r| - 2])
  {
    Trim(text) + "\n"
  }

  /** The file content updateMarkdownContent leaves. */
  function Serialized(content: string, ctx: Context): string {
    Render(Emit(Walk(SplitLines(content), 0, false, ctx)))
  }

  // ---------------------------------------------------------------- heading lines are kept

  /** The lines starting with `#`, in order. */
  function Headings(xs: seq<string>): seq<string> {
    if xs == [] then [] else (if StartsWith(xs[0], "#") then [xs[0]] else []) + Headings(xs[1..])
  }

  /** No line starts with `#`. */
  predicate Plain(xs: seq<string>) {
    forall k :: 0 <= k < |xs| ==> !StartsWith(xs[k], "#")
  }

  lemma {:induction false} HeadingsAppend(a: seq<string>, b: seq<string>)
    ensures Headings(a + b) == Headings(a) + Headings(b)
  {
    if a == [] {
      assert a + b == b;
    } else {
      assert (a + b)[0] == a[0];
      assert (a + b)[1..] == a[1..] + b;
      HeadingsAppend(a[1..], b);
    }
  }

  /** Two parts with the headings of two consecutive runs of `lines` have
      together the headings of the whole run. */
  lemma HeadingsJoin(a: seq<string>, b: seq<string>, lines: seq<string>, i: nat, k: nat)
    requires i <= k <= |lines|
    requires Headings(a) == Headings(lines[i..k]) && Headings(b) == Headings(lines[k..])
    ensures Headings(a + b) == Headings(lines[i..])
  {
    HeadingsAppend(a, b);
    assert lines[i..] == lines[i..k] + lines[k..];
    HeadingsAppend(lines[i..k], lines[k..]);
  }

  lemma {:induction false} HeadingsOfPlain(xs: seq<string>)
    requires Plain(xs)
    ensures Headings(xs) == []
  {
    if xs != [] {
      HeadingsOfPlain(xs[1..]);
    }
  }

  /** Neither a dropped line nor one `skip()` passes over is a heading. */
  lemma NotHeadingLines(l: string, firstSec: bool)
    ensures StartsWith(l, "#") ==> !Dropped(l, firstSec) && !Skipped(l)
  {
    if StartsWith(l, "#") {
      TrimKeepsFirst(l);
    }
  }

  lemma RunPlain(lines: seq<string>, a: nat, go: string -> bool)
    requires a <= |lines|
    requires forall l :: go(l) ==> !StartsWith(l, "#")
    ensures Plain(lines[a..RunEnd(lines, a, go)])
  {
  }

  lemma SkippedRunPlain(lines: seq<string>, a: nat)
    requires a <= |lines|
    ensures Plain(lines[a..RunEnd(lines, a, Skipped)])
  {
    forall l | Skipped(l) ensures !StartsWith(l, "#") {
      NotHeadingLines(l, true);
    }
    RunPlain(lines, a, Skipped);
  }

  /** Lines that are empty or start with anything but `#` are plain. */
  lemma PlainByFirst(xs: seq<string>)
    requires forall k :: 0 <= k < |xs| ==> xs[k] == "" || xs[k][0] != '#'
    ensures Plain(xs)
  {
  }

  lemma PlainAppend(a: seq<string>, b: seq<string>)
    requires Plain(a) && Plain(b)
    ensures Plain(a + b)
  {
  }

  lemma DailyPlain(ctx: Context)
    ensures Plain(DailyBlock(ctx))
  {
    var dw := ctx.project.dailyWork;
    if |dw| > 0 {
      var daily := DailyLines(SortDescending(dw), ctx.formatHours);
      assert forall k :: 0 <= k < |daily| ==> daily[k][0] == '-';
      PlainByFirst(daily);
      PlainByFirst(["Daily Work:"]);
      PlainByFirst([""]);
      PlainAppend(["Daily Work:"], daily);
      PlainAppend(["Daily Work:"] + daily, [""]);
    }
  }

  lemma TimelinePlain(ctx: Context)
    ensures Plain(TimelineBlock(ctx))
  {
    var tl := ctx.project.timeline;
    if tl.startDate != "" || tl.endDate != "" {
      var head := ["Timeline Start: " + OrNotSet(tl.startDate), "Timeline End: " + OrNotSet(tl.endDate)];
      PlainByFirst(head);
      var events := EventLines(tl.events, ctx.today);
      assert forall k :: 0 <= k < |events| ==> events[k][0] == '-';
      PlainByFirst(events);
      PlainByFirst(["", "Timeline Events:"]);
      PlainAppend(["", "Timeline Events:"], events);
      var mid: seq<string> := if |tl.events| > 0 then ["", "Timeline Events:"] + events else [];
      PlainByFirst([""]);
      PlainAppend(head, mid);
      PlainAppend(head + mid, [""]);
    }
  }

  lemma MetaPlain(sections: Entries<Section>, t: string)
    ensures Plain(SectionMeta(sections, t))
  {
    match Get(sections, t)
    case None =>
    case Some(sec) =>
      PlainByFirst(["", "Time: " + IntToString(sec.totalTime)]);
      PlainByFirst(ColorLine(sec.color));
      PlainAppend(["", "Time: " + IntToString(sec.totalTime)], ColorLine(sec.color));
  }

  lemma SubsectionPlain(d: Option<Subsection>)
    ensures Plain(SubsectionBlock(d))
  {
    match d
    case None =>
    case Some(sub) =>
      var head := ["", "Time: " + IntToString(sub.totalTime)] + ColorLine(sub.color);
      PlainByFirst(["", "Time: " + IntToString(sub.totalTime)]);
      PlainByFirst(ColorLine(sub.color));
      PlainAppend(["", "Time: " + IntToString(sub.totalTime)], ColorLine(sub.color));
      var notes := NoteLines(sub.oldNotes);
      assert forall k :: 0 <= k < |notes| ==> StartsWith(notes[k], "- [");
      assert forall k :: 0 <= k < |notes| ==> notes[k][0] == '-';
      PlainByFirst(notes);
      PlainByFirst(["", "**Notes:**"]);
      PlainAppend(["", "**Notes:**"], notes);
      var mid: seq<string> := if |sub.oldNotes| > 0 then ["", "**Notes:**"] + notes else [];
      PlainByFirst([""]);
      PlainAppend(head, mid);
      PlainAppend(head + mid, [""]);
  }

  /** One turn appends the heading lines of the input lines it consumes. */
  lemma PieceHeadings(lines: seq<string>, i: nat, firstSec: bool, ctx: Context)
    requires i < |lines|
    ensures var p := Piece(lines, i, firstSec, ctx);
      Headings(p.2) == Headings(lines[i..p.0])
  {
    var kind := KindOf(lines, i, firstSec);
    var k := NextLine(lines, i, kind);
    var out := Appended(lines, i, firstSec, kind, ctx);
    assert Piece(lines, i, firstSec, ctx) == (k, firstSec || kind == L2, out);
    if kind == Title {
      TitleTurnHeadings(lines, i, firstSec, ctx);
      SkipTurnPlain(lines, i, kind);
    } else if kind == L2 {
      L2TurnHeadings(lines, i, firstSec, ctx);
      SkipTurnPlain(lines, i, kind);
    } else if kind == L3 {
      L3TurnHeadings(lines, i, firstSec, ctx);
      RunPlain(lines, i + 1, InBody);
    } else if kind == Drop {
      NotHeadingLines(lines[i], firstSec);
      assert Headings([lines[i]]) == [];
    }
    RunHeadings(lines, i, k, out);
  }

  lemma TitleTurnHeadings(lines: seq<string>, i: nat, firstSec: bool, ctx: Context)
    requires i < |lines| && KindOf(lines, i, firstSec) == Title
    ensures Headings(Appended(lines, i, firstSec, Title, ctx)) == Headings([lines[i]])
  {
    TitleHeadings(lines[i], ctx);
  }

  lemma L2TurnHeadings(lines: seq<string>, i: nat, firstSec: bool, ctx: Context)
    requires i < |lines| && KindOf(lines, i, firstSec) == L2
    ensures Headings(Appended(lines, i, firstSec, L2, ctx)) == Headings([lines[i]])
  {
    var l := lines[i];
    var meta := SectionMeta(ctx.project.sections, Trim(l[3..]));
    assert Appended(lines, i, firstSec, L2, ctx) == (if firstSec then [] else [""]) + [l] + meta;
    MetaPlain(ctx.project.sections, Trim(l[3..]));
    L2Headings(l, firstSec, meta);
  }

  /** The lines `skip()` passes over after a title or a `##` heading are plain. */
  lemma SkipTurnPlain(lines: seq<string>, i: nat, kind: Kind)
    requires i < |lines| && (kind == Title || kind == L2)
    ensures Plain(lines[i + 1..NextLine(lines, i, kind)])
  {
    SkippedRunPlain(lines, i + 1);
  }

  lemma L3TurnHeadings(lines: seq<string>, i: nat, firstSec: bool, ctx: Context)
    requires i < |lines| && KindOf(lines, i, firstSec) == L3
    ensures Headings(Appended(lines, i, firstSec, L3, ctx)) == Headings([lines[i]])
  {
    var l := lines[i];
    var d := SubsectionOf(ctx.project.sections, Parent(lines, i + 1), Trim(l[4..]));
    assert Appended(lines, i, firstSec, L3, ctx) == [l] + SubsectionBlock(d);
    SubsectionPlain(d);
    HeadingsOfPlain(SubsectionBlock(d));
    HeadingsAppend([l], SubsectionBlock(d));
  }

  /** A turn that appends the headings of its first line, and consumes
      plain lines after it, appends the headings of what it consumes. */
  lemma RunHeadings(lines: seq<string>, i: nat, k: nat, out: seq<string>)
    requires i < k <= |lines| && Plain(lines[i + 1..k]) && Headings(out) == Headings([lines[i]])
    ensures Headings(out) == Headings(lines[i..k])
  {
    assert lines[i..k] == [lines[i]] + lines[i + 1..k];
    HeadingsAppend([lines[i]], lines[i + 1..k]);
    HeadingsOfPlain(lines[i + 1..k]);
  }

  lemma TitleHeadings(l: string, ctx: Context)
    ensures Headings(TitleBlock(l, ctx)) == Headings([l])
  {
    DailyPlain(ctx);
    TimelinePlain(ctx);
    var rest := ["", "Time: " + IntToString(ctx.project.totalTime), ""];
    PlainByFirst(rest);
    HeadingsOfPlain(rest);
    HeadingsOfPlain(DailyBlock(ctx));
    HeadingsOfPlain(TimelineBlock(ctx));
    assert TitleBlock(l, ctx) == [l] + rest + DailyBlock(ctx) + TimelineBlock(ctx);
    HeadingsAppend([l] + rest + DailyBlock(ctx), TimelineBlock(ctx));
    HeadingsAppend([l] + rest, DailyBlock(ctx));
    HeadingsAppend([l], rest);
  }

  lemma L2Headings(l: string, firstSec: bool, meta: seq<string>)
    requires Plain(meta)
    ensures Headings((if firstSec then [] else [""]) + [l] + meta) == Headings([l])
  {
    HeadingsOfPlain(meta);
    var gap: seq<string> := if firstSec then [] else [""];
    PlainByFirst(gap);
    HeadingsOfPlain(gap);
    HeadingsAppend(gap + [l], meta);
    HeadingsAppend(gap, [l]);
  }

  lemma {:induction false} WalkHeadings(lines: seq<string>, i: nat, firstSec: bool, ctx: Context)
    requires i <= |lines|
    ensures Headings(Walk(lines, i, firstSec, ctx)) == Headings(lines[i..])
    decreases |lines| - i
  {
    if i < |lines| {
      var p := Piece(lines, i, firstSec, ctx);
      WalkStep(lines, i, firstSec, ctx);
      PieceHeadings(lines, i, firstSec, ctx);
      WalkHeadings(lines, p.0, p.1, ctx);
      HeadingsJoin(p.2, Walk(lines, p.0, p.1, ctx), lines, i, p.0);
    }
  }

  /** Every line of the document that starts with `#` is written back, in
      order, and no generated line starts with `#`. */
  lemma HeadingsKept(content: string, ctx: Context)
    ensures Headings(Walk(SplitLines(content), 0, false, ctx)) == Headings(SplitLines(content))
  {
    var lines := SplitLines(content);
    WalkHeadings(lines, 0, false, ctx);
    assert lines[0..] == lines;
  }

  // ---------------------------------------------------------------- the title block

  lemma {:induction false} EmitAppend(a: seq<string>, b: seq<string>)
    ensures Emit(a + b) == Emit(a) + Emit(b)
  {
    if a == [] {
      assert a + b == b;
    } else {
      assert (a + b)[0] == a[0];
      assert (a + b)[1..] == a[1..] + b;
      EmitAppend(a[1..], b);
    }
  }

  lemma IntToStringEnds(n: int)
    ensures |IntToString(n)| >= 1
    ensures '0' <= IntToString(n)[|IntToString(n)| - 1] <= '9'
  {
  }

  /** Trimming and adding the final newline keeps a prefix of the text that
      ends in a non-blank followed by a newline. */
  lemma RenderKeepsPrefix(s: string, pre: string)
    requires |pre| >= 1 && !IsSpace(pre[0]) && !IsSpace(pre[|pre| - 1])
    requires StartsWith(s, pre + "\n")
    ensures StartsWith(Render(s), pre + "\n")
  {
    assert s[0] == pre[0] && s[|pre| - 1] == pre[|pre| - 1] && s[|pre|] == '\n';
    TrimCutsEnd(s);
    var t := Trim(s);
    assert |t| >= |pre|;
    assert t[..|pre|] == s[..|t|][..|pre|] == s[..|pre|];
  }

  lemma TitleKind(lines: seq<string>)
    requires |lines| >= 1 && StartsWith(lines[0], "# ")
    ensures KindOf(lines, 0, false) == Title
  {
    var l := lines[0];
    assert l[0] == '#' && StartsWith(l, "#");
    NotHeadingLines(l, false);
  }

  /** The walk is the turn at line `i` followed by the walk from where it stops. */
  lemma WalkStep(lines: seq<string>, i: nat, firstSec: bool, ctx: Context)
    requires i < |lines|
    ensures var p := Piece(lines, i, firstSec, ctx);
      Walk(lines, i, firstSec, ctx) == p.2 + Walk(lines, p.0, p.1, ctx)
  {
  }

  lemma TitlePiece(lines: seq<string>, ctx: Context)
    requires |lines| >= 1 && StartsWith(lines[0], "# ")
    ensures Piece(lines, 0, false, ctx).2 == TitleBlock(lines[0], ctx)
  {
    TitleKind(lines);
  }

  lemma TitleBlockStarts(l: string, ctx: Context)
    ensures TitleBlock(l, ctx)
         == [l, "", "Time: " + IntToString(ctx.project.totalTime)] + ([""] + DailyBlock(ctx) + TimelineBlock(ctx))
  {
  }

  lemma TitleWalk(lines: seq<string>, ctx: Context)
    requires |lines| >= 1 && StartsWith(lines[0], "# ")
    ensures var w := Walk(lines, 0, false, ctx);
      |w| >= 3 && w[..3] == [lines[0], "", "Time: " + IntToString(ctx.project.totalTime)]
  {
    var p := Piece(lines, 0, false, ctx);
    WalkStep(lines, 0, false, ctx);
    TitlePiece(lines, ctx);
    TitleBlockStarts(lines[0], ctx);
    var w := Walk(lines, 0, false, ctx);
    assert w[..3] == p.2[..3];
  }

  /** The title text, as the loop appends it, ends its first three lines
      with the last digit of the total. */
  lemma TitleText(l: string, n: string, tail: string)
    requires StartsWith(l, "# ") && |n| >= 1 && '0' <= n[|n| - 1] <= '9'
    ensures var pre := l + "\n\nTime: " + n;
      && |pre| >= 1 && !IsSpace(pre[0]) && !IsSpace(pre[|pre| - 1])
      && (l + "\n" + "" + "\n" + ("Time: " + n) + "\n") + tail == pre + "\n" + tail
  {
    assert l[0] == '#';
  }

  lemma EmitThree(a: string, b: string, c: string)
    ensures Emit([a, b, c]) == a + "\n" + b + "\n" + c + "\n"
  {
    assert [a, b, c][1..] == [b, c] && [b, c][1..] == [c] && [c][1..] == [];
    assert Emit([c]) == c + "\n";
    assert Emit([b, c]) == b + "\n" + c + "\n";
  }

  /** A document whose first line is a `# ` title is written back starting
      with that line, a blank line and the project total. */
  lemma TitleFirst(content: string, ctx: Context)
    requires StartsWith(SplitLines(content)[0], "# ")
    ensures StartsWith(Serialized(content, ctx),
                       SplitLines(content)[0] + "\n\nTime: " + IntToString(ctx.project.totalTime) + "\n")
  {
    var lines := SplitLines(content);
    var l := lines[0];
    var n := IntToString(ctx.project.totalTime);
    var w := Walk(lines, 0, false, ctx);
    TitleWalk(lines, ctx);
    assert w == w[..3] + w[3..];
    EmitAppend(w[..3], w[3..]);
    EmitThree(l, "", "Time: " + n);
    IntToStringEnds(ctx.project.totalTime);
    TitleText(l, n, Emit(w[3..]));
    RenderKeepsPrefix(Emit(w), l + "\n\nTime: " + n);
  }

  // ---------------------------------------------------------------- headings and their bodies

  /** The parent of a `###` heading is the nearest `##` heading above it ... */
  lemma {:induction false} ParentIs(lines: seq<string>, n: nat, j: nat)
    requires j < n <= |lines| && IsL2Line(lines[j])
    requires forall m :: j < m < n ==> !IsL2Line(lines[m])
    ensures Parent(lines, n) == Trim(lines[j][3..])
    decreases n
  {
    if n - 1 > j {
      ParentIs(lines, n - 1, j);
    }
  }

  /** ... and "" when there is none. */
  lemma {:induction false} ParentNone(lines: seq<string>, n: nat)
    requires n <= |lines|
    requires forall m :: 0 <= m < n ==> !IsL2Line(lines[m])
    ensures Parent(lines, n) == ""
  {
    if n > 0 {
      ParentNone(lines, n - 1);
    }
  }

  /** A `###` heading is copied; every line after it up to the next line
      starting with `#` is dropped, and the subsection's generated block is
      written instead, looked up under the nearest `##` heading above. */
  lemma L3Body(lines: seq<string>, i: nat, firstSec: bool, ctx: Context)
    requires i < |lines| && KindOf(lines, i, firstSec) == L3
    ensures var (k, fs, out) := Piece(lines, i, firstSec, ctx);
      && fs == firstSec
      && (forall m :: i < m < k ==> !StartsWith(lines[m], "#"))
      && (k == |lines| || StartsWith(lines[k], "#"))
      && out == [lines[i]] + SubsectionBlock(SubsectionOf(ctx.project.sections, Parent(lines, i + 1), Trim(lines[i][4..])))
  {
  }

  /** The block written for a subsection is empty exactly when the project
      has no such subsection: its `###` heading then stands alone. */
  lemma SubsectionBlockEmpty(d: Option<Subsection>)
    ensures SubsectionBlock(d) == [] <==> d.None?
    ensures d.Some? ==> SubsectionBlock(d)[..2] == ["", "Time: " + IntToString(d.value.totalTime)]
  {
  }

  /** A `##` heading is copied, preceded by a blank line when it is the
      first, followed by its section's metadata; the lines `skip()` passes
      over after it are dropped. */
  lemma L2Heading(lines: seq<string>, i: nat, firstSec: bool, ctx: Context)
    requires i < |lines| && KindOf(lines, i, firstSec) == L2
    ensures var (k, fs, out) := Piece(lines, i, firstSec, ctx);
      && fs
      && (forall m :: i < m < k ==> Skipped(lines[m]))
      && (k == |lines| || !Skipped(lines[k]))
      && out == (if firstSec then [] else [""]) + [lines[i]] + SectionMeta(ctx.project.sections, Trim(lines[i][3..]))
  {
  }

  /** The metadata after a `##` heading is written only for a section of
      the project: its time, and its colour when it has one. */
  lemma SectionMetaShape(sections: Entries<Section>, t: string)
    ensures SectionMeta(sections, t) == [] <==> !Has(sections, t)
    ensures Has(sections, t) ==>
      SectionMeta(sections, t) == ["", "Time: " + IntToString(Get(sections, t).value.totalTime)] + ColorLine(Get(sections, t).value.color)
  {
  }

  /** A line no branch recognises is copied as it is. */
  lemma CopyLine(lines: seq<string>, i: nat, firstSec: bool, ctx: Context)
    requires i < |lines| && !Dropped(lines[i], firstSec) && !StartsWith(lines[i], "## ") && !StartsWith(lines[i], "### ")
    requires i > 0 || !StartsWith(lines[i], "# ")
    ensures Piece(lines, i, firstSec, ctx) == (i + 1, firstSec, [lines[i]])
  {
  }

  /** A metadata line, or a blank line before the first `##` heading, is dropped. */
  lemma DropLine(lines: seq<string>, i: nat, firstSec: bool, ctx: Context)
    requires i < |lines| && Dropped(lines[i], firstSec)
    ensures Piece(lines, i, firstSec, ctx) == (i + 1, firstSec, [])
  {
  }

  // ---------------------------------------------------------------- the project's blocks

  /** The daily-work block is written exactly when some day was worked, and
      lists every day once, the greatest `date,seconds` string first. */
  lemma DailyBlockOrder(ctx: Context)
    ensures DailyBlock(ctx) == [] <==> |ctx.project.dailyWork| == 0
    ensures |ctx.project.dailyWork| > 0 ==>
      exists es :: && Descending(es) && multiset(es) == multiset(ctx.project.dailyWork)
                   && DailyBlock(ctx) == ["Daily Work:"] + DailyLines(es, ctx.formatHours) + [""]
  {
    SortDescendingCorrect(ctx.project.dailyWork);
  }

  /** The timeline block is written exactly when a start or an end is set;
      a missing end is written as `not set`, and events follow only when
      there are some. */
  lemma TimelineBlockShape(ctx: Context)
    ensures var tl := ctx.project.timeline;
      && (TimelineBlock(ctx) == [] <==> tl.startDate == "" && tl.endDate == "")
      && (TimelineBlock(ctx) != [] ==>
            && TimelineBlock(ctx)[0] == "Timeline Start: " + (if tl.startDate == "" then "not set" else tl.startDate)
            && TimelineBlock(ctx)[1] == "Timeline End: " + (if tl.endDate == "" then "not set" else tl.endDate)
            && |TimelineBlock(ctx)| == (if |tl.events| > 0 then 5 + |tl.events| else 3))
  {
  }

  // ---------------------------------------------------------------- the loop, imperatively

  /** The backward scan for the `##` heading a `###` heading at line `i` belongs to. */
  method FindParent(lines: seq<string>, i: nat) returns (parent: string)
    requires i < |lines|
    ensures parent == Parent(lines, i + 1)
  {
    var n: nat := i + 1;
    while n > 0 && !IsL2Line(lines[n - 1])
      invariant n <= i + 1
      invariant Parent(lines, n) == Parent(lines, i + 1)
    {
      n := n - 1;
    }
    parent := if n == 0 then "" else Trim(lines[n - 1][3..]);
  }

  /** The title branch: the title block, then `skip()`. */
  method SerializeTitle(lines: seq<string>, i: nat, firstSec: bool, ctx: Context) returns (k: nat, fs: bool, piece: seq<string>)
    requires i < |lines| && KindOf(lines, i, firstSec) == Title
    ensures (k, fs, piece) == Piece(lines, i, firstSec, ctx)
  {
    piece := TitleBlock(lines[i], ctx);
    k := Advance(lines, i + 1, Skipped);
    fs := firstSec;
  }

  /** The `##` branch: the heading, `skip()`, then the section's metadata. */
  method SerializeL2(lines: seq<string>, i: nat, firstSec: bool, ctx: Context) returns (k: nat, fs: bool, piece: seq<string>)
    requires i < |lines| && KindOf(lines, i, firstSec) == L2
    ensures (k, fs, piece) == Piece(lines, i, firstSec, ctx)
  {
    var l := lines[i];
    var t := Trim(l[3..]);
    piece := (if firstSec then [] else [""]) + [l];
    fs := true;
    k := Advance(lines, i + 1, Skipped);
    piece := piece + SectionMeta(ctx.project.sections, t);
  }

  /** The `###` branch: the heading, the parent's name, the body skipped,
      then the subsection's block. */
  method SerializeL3(lines: seq<string>, i: nat, firstSec: bool, ctx: Context) returns (k: nat, fs: bool, piece: seq<string>)
    requires i < |lines| && KindOf(lines, i, firstSec) == L3
    ensures (k, fs, piece) == Piece(lines, i, firstSec, ctx)
  {
    var l := lines[i];
    var t := Trim(l[4..]);
    piece := [l];
    var parent := FindParent(lines, i);
    k := Advance(lines, i + 1, InBody);
    piece := piece + SubsectionBlock(SubsectionOf(ctx.project.sections, parent, t));
    fs := firstSec;
  }

  /** One turn of the main loop: where it goes on, whether a `##` heading
      has been seen, and the lines it appends. */
  method SerializeLine(lines: seq<string>, i: nat, firstSec: bool, ctx: Context) returns (k: nat, fs: bool, piece: seq<string>)
    requires i < |lines|
    ensures (k, fs, piece) == Piece(lines, i, firstSec, ctx)
  {
    match KindOf(lines, i, firstSec) {
      case Drop => k, fs, piece := i + 1, firstSec, [];
      case Title => k, fs, piece := SerializeTitle(lines, i, firstSec, ctx);
      case L2 => k, fs, piece := SerializeL2(lines, i, firstSec, ctx);
      case L3 => k, fs, piece := SerializeL3(lines, i, firstSec, ctx);
      case Copy => k, fs, piece := i + 1, firstSec, [lines[i]];
    }
  }

  lemma ConcatAssociates(a: string, b: string, c: string)
    ensures (a + b) + c == a + (b + c)
  {
  }

  /** updateMarkdownContent: the loop over the lines, then trim and one newline. */
  method Serialize(content: string, ctx: Context) returns (text: string)
    ensures text == Serialized(content, ctx)
  {
    var lines := SplitLines(content);
    var newContent := "";
    var i := 0;
    var firstSec := false;
    while i < |lines|
      invariant i <= |lines|
      invariant newContent + Emit(Walk(lines, i, firstSec, ctx)) == Emit(Walk(lines, 0, false, ctx))
      decreases |lines| - i
    {
      var k, fs, piece := SerializeLine(lines, i, firstSec, ctx);
      ghost var rest := Walk(lines, k, fs, ctx);
      WalkStep(lines, i, firstSec, ctx);
      assert Walk(lines, i, firstSec, ctx) == piece + rest;
      EmitAppend(piece, rest);
      ConcatAssociates(newContent, Emit(piece), Emit(rest));
      newContent := newContent + Emit(piece);
      i, firstSec := k, fs;
    }
    assert Walk(lines, i, firstSec, ctx) == [];
    assert newContent + Emit([]) == newContent;
    text := Render(newContent);
  }
}
