/** The markdown reader (`parseAndRenderMarkdown` without its DOM work): one
    cursor walks the lines of the file. Top-level metadata lines set the
    project total, the daily-work map and the timeline; `Daily Work:`,
    `Timeline Events:` and `**Notes:**` swallow the block of lines after
    them; `##` and `###` headings open sections and subsections whose
    `Time:` and `Color:` come from the five lines after the heading. At the
    end every subsection's note lines are migrated to cards. */
module Parser {
  import opened Wrappers
  import opened Text
  import opened JsObject
  import opened Model
  import opened Notes
  import opened Lines

  // ---------------------------------------------------------------- line patterns

  /** `^-\s*([^:]+):` : the key group and the index just past the first
      colon. The key runs from the end of the blanks to the first colon;
      when the colon follows the blanks at once, `\s*` gives back one blank
      for the key. */
  function DashKey(s: string): (r: Option<(string, nat)>)
    ensures r.Some? ==>
      var (key, w) := r.value;
      && 2 <= w <= |s| && s[0] == '-' && s[w - 1] == ':' && ':' !in s[..w - 1]
      && |key| >= 1 && |key| + 1 <= w - 1 && key == s[w - 1 - |key|..w - 1]
  {
    if |s| == 0 || s[0] != '-' then None
    else
      var sp := SpaceRun(s, 1);
      var c := IndexOfChar(s, ':', 1);
      if c == |s| then None
      else if 1 + sp < c then Some((s[1 + sp..c], c + 1))
      else if sp >= 1 && c == 1 + sp then Some((s[sp..c], c + 1))
      else None
  }

  /** `\s*(.+)h$` from index 0 of `r`, the greedy `\s*` first taking `w` blanks. */
  function HourTail(r: string, w: nat): (g: Option<string>)
    requires w <= |r|
    ensures g.Some? ==> |g.value| >= 1 && NoLineTerminator(g.value) && |r| >= 2 && r[|r| - 1] == 'h'
    decreases w
  {
    if w + 1 < |r| && r[|r| - 1] == 'h' && NoLineTerminator(r[w..|r| - 1]) then Some(r[w..|r| - 1])
    else if w == 0 then None
    else HourTail(r, w - 1)
  }

  /** `^-\s*([^:]+):\s*(.+)h$` on a daily-work line: date and hours text. */
  function MatchDaily(s: string): (m: Option<(string, string)>)
    ensures m.Some? ==> |m.value.0| >= 1 && ':' !in m.value.0 && |m.value.1| >= 1
  {
    match DashKey(s)
    case None => None
    case Some((date, w)) =>
      var r := s[w..];
      match HourTail(r, SpaceRun(r, 0))
      case None => None
      case Some(hours) => Some((date, hours))
  }

  /** `^-\s*([^:]+):\s*(.+)$` on a timeline event line: date and note. */
  function MatchEvent(s: string): (m: Option<(string, string)>)
    ensures m.Some? ==> |m.value.0| >= 1 && ':' !in m.value.0 && |m.value.1| >= 1
  {
    match DashKey(s)
    case None => None
    case Some((date, w)) =>
      var r := s[w..];
      match PlainTail(r, SpaceRun(r, 0))
      case None => None
      case Some(note) => Some((date, note))
  }

  /** The dash line the serializer writes reads back with the date as the
      text before the first colon and the rest as the note. */
  lemma EventLine(date: string, note: string)
    requires |date| >= 1 && ':' !in date && !IsSpace(date[0])
    requires |note| >= 1 && !IsSpace(note[0]) && NoLineTerminator(note)
    ensures MatchEvent("- " + date + ": " + note) == Some((date, note))
  {
    var s := "- " + date + ": " + note;
    var c := 2 + |date|;
    assert SpaceRun(s, 2) == 0;
    assert SpaceRun(s, 1) == 1;
    IndexOfCharIs(s, ':', 1, c);
    assert s[2..c] == date;
    var r := s[c + 1..];
    assert r == " " + note;
    assert SpaceRun(r, 1) == 0;
    assert SpaceRun(r, 0) == 1;
    assert r[1..] == note;
  }

  /** The same for a daily-work line `- <date>: <hours>h`. */
  lemma DailyLine(date: string, hours: string)
    requires |date| >= 1 && ':' !in date && !IsSpace(date[0])
    requires |hours| >= 1 && !IsSpace(hours[0]) && NoLineTerminator(hours)
    ensures MatchDaily("- " + date + ": " + hours + "h") == Some((date, hours))
  {
    var s := "- " + date + ": " + hours + "h";
    var c := 2 + |date|;
    assert SpaceRun(s, 2) == 0;
    assert SpaceRun(s, 1) == 1;
    IndexOfCharIs(s, ':', 1, c);
    assert s[2..c] == date;
    var r := s[c + 1..];
    assert r == " " + hours + "h";
    assert SpaceRun(r, 1) == 0;
    assert SpaceRun(r, 0) == 1;
    assert r[1..|r| - 1] == hours;
  }

  // ---------------------------------------------------------------- blocks

  /** A line the `Daily Work:` and `Timeline Events:` loops keep consuming. */
  predicate Bullet(line: string) {
    StartsWith(Trim(line), "- ")
  }

  /** A line that ends a `**Notes:**` block (the untrimmed line is looked at). */
  predicate NotesStop(line: string) {
    StartsWith(line, "#") || StartsWith(line, "**Notes:**")
  }

  /** A line a `**Notes:**` block keeps consuming. */
  predicate InNotes(line: string) {
    !NotesStop(line)
  }

  /** The event one line of a `Timeline Events:` block adds, if any. */
  function EventAt(line: string, now: int): seq<Event> {
    match MatchEvent(Trim(line))
    case Some((date, note)) => [Event(date, note, now)]
    case None => []
  }

  /** The note item one line of a `**Notes:**` block adds, if any. */
  function NoteAt(line: string): seq<NoteItem> {
    var t := Trim(line);
    if StartsWith(t, "- [") then [Raw(t)] else []
  }

  /** The date a block line sets, if it matches. */
  function DailyDate(line: string): Option<string> {
    match MatchDaily(Trim(line))
    case Some((date, _)) => Some(date)
    case None => None
  }

  /** A step that stores `val(line)` under `key(line)` when the line has a key. */
  function KeyedPut(key: string -> Option<string>, val: string -> int): (string, Entries<int>) -> Entries<int> {
    (line, m) => if key(line).Some? then Put(m, key(line).value, val(line)) else m
  }

  /** The seconds a daily-work line gives its date. */
  function DailySeconds(toSeconds: string -> int): string -> int {
    line => match MatchDaily(Trim(line)) case Some((_, hours)) => toSeconds(hours) case None => 0
  }

  /** One line of a `Daily Work:` block: `dailyWorkTime[date] = seconds` when it matches. */
  function DailyStep(toSeconds: string -> int): (string, Entries<int>) -> Entries<int> {
    KeyedPut(DailyDate, DailySeconds(toSeconds))
  }

  /** A step that appends what `g` makes of each line. */
  function Appending<U>(g: string -> seq<U>): (string, seq<U>) -> seq<U> {
    (line, acc) => acc + g(line)
  }

  function EventsAt(now: int): string -> seq<Event> {
    line => EventAt(line, now)
  }

  /** The daily-work map after the lines `a..k` of a `Daily Work:` block, in
      order; `toSeconds` is `parseFloat(hours) * 3600`. */
  function DailyFold(lines: seq<string>, a: nat, k: nat, dw: Entries<int>, toSeconds: string -> int): Entries<int>
    requires a <= k <= |lines|
  {
    FoldLines(lines, a, k, dw, DailyStep(toSeconds))
  }

  /** The events of the lines `a..k` of a `Timeline Events:` block. */
  function EventsIn(lines: seq<string>, a: nat, k: nat, now: int): seq<Event>
    requires a <= k <= |lines|
  {
    FoldLines(lines, a, k, [], Appending(EventsAt(now)))
  }

  /** The note lines among `a..k` of a `**Notes:**` block. */
  function NotesIn(lines: seq<string>, a: nat, k: nat): seq<NoteItem>
    requires a <= k <= |lines|
  {
    FoldLines(lines, a, k, [], Appending(NoteAt))
  }

  /** Collecting two runs of lines one after the other gives what the first
      run collects, then what the second does. */
  lemma {:induction false} AppendingSplit<U>(lines: seq<string>, a: nat, b: nat, c: nat, g: string -> seq<U>)
    requires a <= b <= c <= |lines|
    ensures FoldLines(lines, a, c, [], Appending(g)) == FoldLines(lines, a, b, [], Appending(g)) + FoldLines(lines, b, c, [], Appending(g))
    decreases c
  {
    if b < c {
      AppendingSplit(lines, a, b, c - 1, g);
    }
  }

  /** A keyed fold leaves every key no line names as it was. */
  lemma {:induction false} KeyedUntouched(lines: seq<string>, a: nat, b: nat, m: Entries<int>, key: string -> Option<string>, val: string -> int, date: string)
    requires a <= b <= |lines|
    requires forall j :: a <= j < b ==> key(lines[j]) != Some(date)
    ensures Get(FoldLines(lines, a, b, m, KeyedPut(key, val)), date) == Get(m, date)
    decreases b
  {
    if a < b {
      KeyedUntouched(lines, a, b - 1, m, key, val, date);
    }
  }

  /** In a keyed fold the last line naming a key decides its value. */
  lemma {:induction false} KeyedLastWins(lines: seq<string>, a: nat, b: nat, m: Entries<int>, key: string -> Option<string>, val: string -> int, k: nat, date: string)
    requires a <= k < b <= |lines| && key(lines[k]) == Some(date)
    requires forall j :: k < j < b ==> key(lines[j]) != Some(date)
    ensures Get(FoldLines(lines, a, b, m, KeyedPut(key, val)), date) == Some(val(lines[k]))
    decreases b
  {
    if k < b - 1 {
      KeyedLastWins(lines, a, b - 1, m, key, val, k, date);
    }
  }

  /** After a `Daily Work:` block a date holds the seconds of the last line
      naming it. */
  lemma DailyFoldLastWins(lines: seq<string>, a: nat, b: nat, dw: Entries<int>, toSeconds: string -> int, k: nat, date: string)
    requires a <= k < b <= |lines| && DailyDate(lines[k]) == Some(date)
    requires forall j :: k < j < b ==> DailyDate(lines[j]) != Some(date)
    ensures Get(DailyFold(lines, a, b, dw, toSeconds), date) == Some(toSeconds(MatchDaily(Trim(lines[k])).value.1))
  {
    KeyedLastWins(lines, a, b, dw, DailyDate, DailySeconds(toSeconds), k, date);
  }

  /** A date no line of the block names keeps what it had: lines that do
      not match change nothing. */
  lemma DailyFoldUntouched(lines: seq<string>, a: nat, b: nat, dw: Entries<int>, toSeconds: string -> int, date: string)
    requires a <= b <= |lines|
    requires forall j :: a <= j < b ==> DailyDate(lines[j]) != Some(date)
    ensures Get(DailyFold(lines, a, b, dw, toSeconds), date) == Get(dw, date)
  {
    KeyedUntouched(lines, a, b, dw, DailyDate, DailySeconds(toSeconds), date);
  }

  /** A block read in two parts gives the events of the first part, then those of the second. */
  lemma EventsInSplit(lines: seq<string>, a: nat, b: nat, c: nat, now: int)
    requires a <= b <= c <= |lines|
    ensures EventsIn(lines, a, c, now) == EventsIn(lines, a, b, now) + EventsIn(lines, b, c, now)
  {
    AppendingSplit(lines, a, b, c, EventsAt(now));
  }

  /** A line the event pattern accepts adds exactly the event it names;
      any other line adds nothing. */
  lemma EventLineAdds(lines: seq<string>, a: nat, k: nat, now: int)
    requires a <= k < |lines|
    ensures MatchEvent(Trim(lines[k])).Some? ==>
      var (date, note) := MatchEvent(Trim(lines[k])).value;
      EventsIn(lines, a, k + 1, now) == EventsIn(lines, a, k, now) + [Event(date, note, now)]
    ensures MatchEvent(Trim(lines[k])).None? ==> EventsIn(lines, a, k + 1, now) == EventsIn(lines, a, k, now)
  {
    assert EventsIn(lines, a, k + 1, now) == EventsIn(lines, a, k, now) + EventAt(lines[k], now);
  }

  /** Collecting two runs of lines keeps their order. */
  lemma NotesInSplit(lines: seq<string>, a: nat, b: nat, c: nat)
    requires a <= b <= c <= |lines|
    ensures NotesIn(lines, a, c) == NotesIn(lines, a, b) + NotesIn(lines, b, c)
  {
    AppendingSplit(lines, a, b, c, NoteAt);
  }

  // ---------------------------------------------------------------- headings

  function Min(a: int, b: int): int {
    if a < b then a else b
  }

  /** The lines the heading at `i` looks at: `j < Math.min(i + 6, lines.length)`. */
  function Window(lines: seq<string>, i: nat): (win: seq<string>)
    requires i < |lines|
    ensures |win| <= 5
  {
    lines[i + 1..Min(i + 6, |lines|)]
  }

  predicate TimeLine(line: string) {
    StartsWith(line, "Time:")
  }

  predicate ColorLine(line: string) {
    StartsWith(line, "Color:")
  }

  /** The total after the look-ahead loop, starting from `t`. */
  function WindowTime(win: seq<string>, t: int): int
    decreases |win|
  {
    if win == [] then t
    else
      var last := win[|win| - 1];
      if TimeLine(last) then ParseIntOr0(last[5..]) else WindowTime(win[..|win| - 1], t)
  }

  /** The last `Time:` line of the window wins. */
  lemma {:induction false} WindowTimeLast(win: seq<string>, t: int, k: nat)
    requires k < |win| && TimeLine(win[k])
    requires forall j :: k < j < |win| ==> !TimeLine(win[j])
    ensures WindowTime(win, t) == ParseIntOr0(win[k][5..])
    decreases |win|
  {
    if k < |win| - 1 {
      var init := win[..|win| - 1];
      assert !TimeLine(win[|win| - 1]);
      assert forall j :: k <= j < |init| ==> init[j] == win[j];
      WindowTimeLast(init, t, k);
    }
  }

  /** Without a `Time:` line the total keeps its starting value. */
  lemma {:induction false} WindowTimeNone(win: seq<string>, t: int)
    requires forall j :: 0 <= j < |win| ==> !TimeLine(win[j])
    ensures WindowTime(win, t) == t
    decreases |win|
  {
    if win != [] {
      var init := win[..|win| - 1];
      assert forall j :: 0 <= j < |init| ==> init[j] == win[j];
      WindowTimeNone(init, t);
    }
  }

  /** The colour after the look-ahead loop, starting from `c`. */
  function WindowColor(win: seq<string>, c: string): string
    decreases |win|
  {
    if win == [] then c
    else
      var last := win[|win| - 1];
      if ColorLine(last) then Trim(last[6..]) else WindowColor(win[..|win| - 1], c)
  }

  /** The last `Color:` line of the window wins. */
  lemma {:induction false} WindowColorLast(win: seq<string>, c: string, k: nat)
    requires k < |win| && ColorLine(win[k])
    requires forall j :: k < j < |win| ==> !ColorLine(win[j])
    ensures WindowColor(win, c) == Trim(win[k][6..])
    decreases |win|
  {
    if k < |win| - 1 {
      var init := win[..|win| - 1];
      assert !ColorLine(win[|win| - 1]);
      assert forall j :: k <= j < |init| ==> init[j] == win[j];
      WindowColorLast(init, c, k);
    }
  }

  /** Without a `Color:` line the colour keeps its starting value. */
  lemma {:induction false} WindowColorNone(win: seq<string>, c: string)
    requires forall j :: 0 <= j < |win| ==> !ColorLine(win[j])
    ensures WindowColor(win, c) == c
    decreases |win|
  {
    if win != [] {
      var init := win[..|win| - 1];
      assert forall j :: 0 <= j < |init| ==> init[j] == win[j];
      WindowColorNone(init, c);
    }
  }

  /** `projectData[name] = { totalTime: 0 }` and the look-ahead: a fresh
      section, replacing any earlier one of that name in its old place. */
  function OpenSection(p: Project, name: string, win: seq<string>): Project {
    p.(sections := Put(p.sections, name, Section(WindowTime(win, 0), WindowColor(win, ""), [])))
  }

  /** A `###` heading: the subsection is created empty unless it exists, and
      the look-ahead then sets its total and colour. */
  function OpenSubsection(p: Project, l2: string, name: string, win: seq<string>): Project {
    match Get(p.sections, l2)
    case None => p
    case Some(sec) =>
      var sub := Get(sec.subsections, name).GetOr(Subsection(0, "", []));
      var sub' := sub.(totalTime := WindowTime(win, sub.totalTime), color := WindowColor(win, sub.color));
      p.(sections := Put(p.sections, l2, sec.(subsections := Put(sec.subsections, name, sub'))))
  }


  /** `projectData[l2][l3].oldNotes = notes`. */
  function SetNotes(p: Project, l2: string, l3: string, items: seq<NoteItem>): Project {
    if !HasSubsection(p, l2, l3) then p
    else
      var sec := Get(p.sections, l2).value;
      var sub := Get(sec.subsections, l3).value;
      p.(sections := Put(p.sections, l2, sec.(subsections := Put(sec.subsections, l3, sub.(oldNotes := items)))))
  }

  // ---------------------------------------------------------------- the scanner

  /** What the scanner knows besides the project: whether a `##` heading was
      seen (`curL2`), and the current section and subsection names. */
  datatype ScanState = ScanState(project: Project, seenL2: bool, l2: string, l3: string)

  const Start := ScanState(EmptyProject, false, "", "")

  /** What the browser supplies: `parseFloat(hours) * 3600` for a daily-work
      value, and `Date.now()` for the ids of timeline events. */
  datatype Env = Env(toSeconds: string -> int, now: int)

  /** Which branch of the scanner's if-chain a line takes. */
  datatype LineKind =
    | TopTime | LegacyDailyWork | TimelineStart | TimelineEnd | DailyWorkBlock
    | EventsBlock | L2Heading | L3Heading | NotesBlock | Ignored

  function Classify(raw: string, st: ScanState): (kind: LineKind)
    ensures kind == TopTime ==> |Trim(raw)| >= 5
    ensures kind == TimelineStart ==> |Trim(raw)| >= 15
    ensures kind == TimelineEnd ==> |Trim(raw)| >= 13
    ensures kind == L2Heading ==> |raw| >= 3
    ensures kind == L3Heading ==> |raw| >= 4
  {
    var l := Trim(raw);
    if StartsWith(l, "Time:") && st.l2 == "" then TopTime
    else if StartsWith(l, "DailyWork:") then LegacyDailyWork
    else if StartsWith(l, "Timeline Start:") then TimelineStart
    else if StartsWith(l, "Timeline End:") then TimelineEnd
    else if StartsWith(l, "Daily Work:") then DailyWorkBlock
    else if StartsWith(l, "Timeline Events:") then EventsBlock
    else if IsL2Line(raw) then L2Heading
    else if StartsWith(raw, "### ") && st.seenL2 then L3Heading
    else if StartsWith(l, "**Notes:**") && st.l3 != "" then NotesBlock
    else Ignored
  }

  /** One turn of the scanner's loop at line `i`: the index of the next line
      it looks at and the new state. A new `##` section has no current
      subsection yet. */
  function Step(lines: seq<string>, i: nat, st: ScanState, env: Env): (r: (nat, ScanState))
    requires i < |lines|
    ensures i < r.0 <= |lines|
  {
    var raw := lines[i];
    var l := Trim(raw);
    var p := st.project;
    match Classify(raw, st)
    case TopTime => (i + 1, st.(project := p.(totalTime := ParseIntOr0(l[5..]))))
    case LegacyDailyWork => (i + 1, st)
    case TimelineStart => (i + 1, st.(project := p.(timeline := p.timeline.(startDate := Trim(l[15..])))))
    case TimelineEnd => (i + 1, st.(project := p.(timeline := p.timeline.(endDate := Trim(l[13..])))))
    case DailyWorkBlock =>
      var k := RunEnd(lines, i + 1, Bullet);
      (k, st.(project := p.(dailyWork := DailyFold(lines, i + 1, k, p.dailyWork, env.toSeconds))))
    case EventsBlock =>
      var k := RunEnd(lines, i + 1, Bullet);
      (k, st.(project := p.(timeline := p.timeline.(events := p.timeline.events + EventsIn(lines, i + 1, k, env.now)))))
    case L2Heading =>
      var name := Trim(raw[3..]);
      (i + 1, ScanState(OpenSection(p, name, Window(lines, i)), true, name, ""))
    case L3Heading =>
      var name := Trim(raw[4..]);
      (i + 1, st.(project := OpenSubsection(p, st.l2, name, Window(lines, i)), l3 := name))
    case NotesBlock =>
      var k := RunEnd(lines, i + 1, InNotes);
      (k, st.(project := SetNotes(p, st.l2, st.l3, NotesIn(lines, i + 1, k))))
    case Ignored => (i + 1, st)
  }

  /** The loop from line `i` to the end. */
  function ScanFrom(lines: seq<string>, i: nat, st: ScanState, env: Env): ScanState
    requires i <= |lines|
    decreases |lines| - i
  {
    if i == |lines| then st
    else
      var (k, st') := Step(lines, i, st, env);
      ScanFrom(lines, k, st', env)
  }

  /** The pass after the loop: every subsection whose section and own names
      are non-empty has its note lines migrated. All boards read the same
      clock. */
  function MigrateAll(sections: Entries<Section>, clock: nat -> int, stamp: nat -> string): (r: Entries<Section>)
    ensures |r| == |sections|
  {
    seq(|sections|, k requires 0 <= k < |sections| => MigrateSection(sections[k], clock, stamp))
  }

  /** One board of the pass after the loop. */
  function MigrateSection(entry: (string, Section), clock: nat -> int, stamp: nat -> string): (string, Section) {
    var (name, sec) := entry;
    (name, if name == "" then sec else sec.(subsections := MigrateSubsections(sec.subsections, clock, stamp)))
  }

  function MigrateSubsections(subs: Entries<Subsection>, clock: nat -> int, stamp: nat -> string): (r: Entries<Subsection>)
    ensures |r| == |subs|
  {
    seq(|subs|, k requires 0 <= k < |subs| => MigrateSubsection(subs[k], clock, stamp))
  }

  /** One column of one board: its note lines become cards. */
  function MigrateSubsection(entry: (string, Subsection), clock: nat -> int, stamp: nat -> string): (string, Subsection) {
    var (name, sub) := entry;
    (name, if name == "" then sub else sub.(oldNotes := Migrate(sub.oldNotes, clock, stamp)))
  }

  /** The pass keeps the section names and their order. */
  lemma MigrateAllKeys(sections: Entries<Section>, clock: nat -> int, stamp: nat -> string)
    ensures Keys(MigrateAll(sections, clock, stamp)) == Keys(sections)
  {
    var r := MigrateAll(sections, clock, stamp);
    assert forall k :: 0 <= k < |r| ==> r[k].0 == sections[k].0;
  }

  /** The project a markdown file loads as. */
  function Parse(md: string, env: Env, clock: nat -> int, stamp: nat -> string): Project {
    var p := ScanFrom(SplitLines(md), 0, Start, env).project;
    p.(sections := MigrateAll(p.sections, clock, stamp))
  }

  // ---------------------------------------------------------------- what one step does

  /** A trimmed `Time:` line met while no named section is open sets the
      project total to its number (0 when it is not numeric). */
  lemma TopTimeSetsTotal(lines: seq<string>, i: nat, st: ScanState, env: Env)
    requires i < |lines| && Classify(lines[i], st) == TopTime
    ensures StartsWith(Trim(lines[i]), "Time:") && st.l2 == ""
    ensures Step(lines, i, st, env).1.project.totalTime == ParseIntOr0(Trim(lines[i])[5..])
  {
  }

  /** Every other line leaves the project total alone (a trimmed `Time:`
      line under a named section among them). */
  lemma OtherLinesKeepTotal(lines: seq<string>, i: nat, st: ScanState, env: Env)
    requires i < |lines| && Classify(lines[i], st) != TopTime
    ensures Step(lines, i, st, env).1.project.totalTime == st.project.totalTime
  {
    var st' := Step(lines, i, st, env).1;
    match Classify(lines[i], st)
    case LegacyDailyWork =>
    case TimelineStart =>
    case TimelineEnd =>
    case DailyWorkBlock =>
    case EventsBlock =>
    case L2Heading =>
      assert st'.project.totalTime == st.project.totalTime;
    case L3Heading =>
      assert st'.project.totalTime == st.project.totalTime;
    case NotesBlock =>
      assert st'.project.totalTime == st.project.totalTime;
    case Ignored =>
  }

  /** Over the whole scan the total is the one it started with or the
      number on some trimmed `Time:` line still ahead. */
  lemma {:induction false} ScanTotal(lines: seq<string>, i: nat, st: ScanState, env: Env)
    requires i <= |lines|
    ensures var t := ScanFrom(lines, i, st, env).project.totalTime;
      || t == st.project.totalTime
      || exists k :: i <= k < |lines| && StartsWith(Trim(lines[k]), "Time:") && t == ParseIntOr0(Trim(lines[k])[5..])
    decreases |lines| - i
  {
    if i < |lines| {
      var (k, st') := Step(lines, i, st, env);
      if Classify(lines[i], st) == TopTime {
        TopTimeSetsTotal(lines, i, st, env);
      } else {
        OtherLinesKeepTotal(lines, i, st, env);
      }
      ScanTotal(lines, k, st', env);
    }
  }

  /** A `Daily Work:` line swallows every following line that trims to a
      `- ` bullet and stops at the first that does not; every date keeps
      the seconds of its last matching line and other dates are untouched. */
  lemma DailyBlock(lines: seq<string>, i: nat, st: ScanState, env: Env)
    requires i < |lines| && Classify(lines[i], st) == DailyWorkBlock
    ensures var (k, st') := Step(lines, i, st, env);
      && (forall m :: i < m < k ==> Bullet(lines[m]))
      && (k == |lines| || !Bullet(lines[k]))
      && st'.project.dailyWork == DailyFold(lines, i + 1, k, st.project.dailyWork, env.toSeconds)
      && st'.project.(dailyWork := st.project.dailyWork) == st.project
      && st'.(project := st.project) == st
  {
  }

  /** A `Timeline Events:` line appends one event per matching bullet after
      it, in document order, and changes nothing else. */
  lemma EventsBlockAppends(lines: seq<string>, i: nat, st: ScanState, env: Env)
    requires i < |lines| && Classify(lines[i], st) == EventsBlock
    ensures var (k, st') := Step(lines, i, st, env);
      && (forall m :: i < m < k ==> Bullet(lines[m]))
      && (k == |lines| || !Bullet(lines[k]))
      && st'.project.timeline.events == st.project.timeline.events + EventsIn(lines, i + 1, k, env.now)
      && st'.project.timeline.(events := st.project.timeline.events) == st.project.timeline
      && st'.project.(timeline := st.project.timeline) == st.project
  {
  }

  /** A `##` heading opens its section afresh: no subsections, the total and
      colour of the last `Time:` and `Color:` lines among the next five
      (0 and none without them); it becomes the current section, with no
      current subsection, and other sections keep their values. */
  lemma L2HeadingOpens(lines: seq<string>, i: nat, st: ScanState, env: Env)
    requires i < |lines| && Classify(lines[i], st) == L2Heading
    ensures var (k, st') := Step(lines, i, st, env);
      var name := Trim(lines[i][3..]);
      var win := Window(lines, i);
      && k == i + 1 && st'.seenL2 && st'.l2 == name && st'.l3 == ""
      && Get(st'.project.sections, name) == Some(Section(WindowTime(win, 0), WindowColor(win, ""), []))
      && (forall n :: n != name ==> Get(st'.project.sections, n) == Get(st.project.sections, n))
      && ((forall j :: 0 <= j < |win| ==> !TimeLine(win[j])) ==> Get(st'.project.sections, name).value.totalTime == 0)
  {
    var win := Window(lines, i);
    if forall j :: 0 <= j < |win| ==> !TimeLine(win[j]) {
      WindowTimeNone(win, 0);
    }
  }

  /** A heading looks at the five lines after it and no further. */
  lemma HeadingLooksFiveAhead(lines: seq<string>, lines': seq<string>, i: nat, st: ScanState, env: Env)
    requires i < |lines| && Classify(lines[i], st) in {L2Heading, L3Heading}
    requires Min(i + 6, |lines|) == Min(i + 6, |lines'|) && lines[..Min(i + 6, |lines|)] == lines'[..Min(i + 6, |lines|)]
    ensures i < |lines'| && Step(lines, i, st, env) == Step(lines', i, st, env)
  {
    var e := Min(i + 6, |lines|);
    assert lines[i] == lines[..e][i] == lines'[..e][i] == lines'[i];
    assert Window(lines, i) == lines[..e][i + 1..] == lines'[..e][i + 1..] == Window(lines', i);
  }

  /** A `###` heading before any `##` heading is ignored. */
  lemma OrphanL3Ignored(lines: seq<string>, i: nat, st: ScanState, env: Env)
    requires i < |lines| && StartsWith(lines[i], "### ") && !st.seenL2
    ensures Step(lines, i, st, env) == (i + 1, st)
  {
    TrimKeepsFirst(lines[i]);
    assert Classify(lines[i], st) == Ignored;
  }

  /** A `###` heading under an open section creates the subsection empty
      unless it exists; an existing one keeps its notes. The last `Time:`
      and `Color:` lines of the next five set its total and colour, which
      otherwise stay as they were. The section's own total and colour, its
      other subsections and the other sections are untouched. */
  lemma L3HeadingOpens(lines: seq<string>, i: nat, st: ScanState, env: Env)
    requires i < |lines| && Classify(lines[i], st) == L3Heading && Has(st.project.sections, st.l2)
    ensures var (k, st') := Step(lines, i, st, env);
      var name := Trim(lines[i][4..]);
      var win := Window(lines, i);
      var sec := Get(st.project.sections, st.l2).value;
      var before := Get(sec.subsections, name).GetOr(Subsection(0, "", []));
      && k == i + 1 && st'.l3 == name && st'.l2 == st.l2
      && Get(st'.project.sections, st.l2).Some?
      && var sec' := Get(st'.project.sections, st.l2).value;
      && Get(sec'.subsections, name)
         == Some(Subsection(WindowTime(win, before.totalTime), WindowColor(win, before.color), before.oldNotes))
      && sec'.totalTime == sec.totalTime && sec'.color == sec.color
      && (forall n :: n != name ==> Get(sec'.subsections, n) == Get(sec.subsections, n))
      && (forall n :: n != st.l2 ==> Get(st'.project.sections, n) == Get(st.project.sections, n))
  {
  }

  /** A `**Notes:**` line under an open subsection collects, in order, the
      trimmed `- [` lines up to the first line starting with `#` or
      `**Notes:**`, and that list replaces the subsection's earlier one. */
  lemma NotesBlockReplaces(lines: seq<string>, i: nat, st: ScanState, env: Env)
    requires i < |lines| && Classify(lines[i], st) == NotesBlock && HasSubsection(st.project, st.l2, st.l3)
    ensures var (k, st') := Step(lines, i, st, env);
      var sec := Get(st.project.sections, st.l2).value;
      var sec' := Get(st'.project.sections, st.l2).value;
      && (forall m :: i < m < k ==> !NotesStop(lines[m]))
      && (k == |lines| || NotesStop(lines[k]))
      && Get(sec'.subsections, st.l3).value.oldNotes == NotesIn(lines, i + 1, k)
      && Get(sec'.subsections, st.l3).value.(oldNotes := []) == Get(sec.subsections, st.l3).value.(oldNotes := [])
      && (forall n :: n != st.l3 ==> Get(sec'.subsections, n) == Get(sec.subsections, n))
      && (forall n :: n != st.l2 ==> Get(st'.project.sections, n) == Get(st.project.sections, n))
  {
  }

  /** Every line other than a heading or one of the recognised metadata and
      block lines is skipped without effect. */
  lemma IgnoredLine(lines: seq<string>, i: nat, st: ScanState, env: Env)
    requires i < |lines| && Classify(lines[i], st) == Ignored
    ensures Step(lines, i, st, env) == (i + 1, st)
  {
  }

  // ---------------------------------------------------------------- the scanner's invariant

  /** The open section exists, and so does the open subsection inside it. */
  predicate Consistent(st: ScanState) {
    && (st.seenL2 ==> Has(st.project.sections, st.l2))
    && (st.l3 != "" ==> st.seenL2 && HasSubsection(st.project, st.l2, st.l3))
  }

  lemma StepConsistent(lines: seq<string>, i: nat, st: ScanState, env: Env)
    requires i < |lines| && Consistent(st)
    ensures Consistent(Step(lines, i, st, env).1)
  {
    var st' := Step(lines, i, st, env).1;
    match Classify(lines[i], st)
    case L3Heading =>
      var sec := Get(st'.project.sections, st.l2).value;
      assert Has(sec.subsections, st'.l3);
    case NotesBlock =>
      assert HasSubsection(st'.project, st.l2, st.l3);
    case _ =>
  }

  /** Each `**Notes:**` block of the scan lands in the open subsection. */
  lemma {:induction false} ScanConsistent(lines: seq<string>, i: nat, st: ScanState, env: Env)
    requires i <= |lines| && Consistent(st)
    ensures Consistent(ScanFrom(lines, i, st, env))
    decreases |lines| - i
  {
    if i < |lines| {
      var (k, st') := Step(lines, i, st, env);
      StepConsistent(lines, i, st, env);
      ScanConsistent(lines, k, st', env);
    }
  }

  /** After loading, every subsection with a non-empty name under a section
      with a non-empty name holds migrated notes: migrating them again
      changes nothing. */
  lemma ParseMigratesNotes(md: string, env: Env, clock: nat -> int, stamp: nat -> string,
                           clock': nat -> int, stamp': nat -> string, a: nat, b: nat)
    requires var ss := Parse(md, env, clock, stamp).sections;
      a < |ss| && ss[a].0 != "" && b < |ss[a].1.subsections| && ss[a].1.subsections[b].0 != ""
    ensures var notes := Parse(md, env, clock, stamp).sections[a].1.subsections[b].1.oldNotes;
      Migrate(notes, clock', stamp') == notes
  {
    var raw := ScanFrom(SplitLines(md), 0, Start, env).project.sections;
    var notes := raw[a].1.subsections[b].1.oldNotes;
    MigrateIdempotent(notes, clock, stamp, clock', stamp');
  }

  // ---------------------------------------------------------------- the loop as written

  /** The loop as the source writes it: a `##` heading leaves the name of
      the previous section's subsection current, and a `**Notes:**` block
      under a section that lacks that subsection assigns to a property of
      undefined, a TypeError that aborts the whole load. */
  function StepAsWritten(lines: seq<string>, i: nat, st: ScanState, env: Env): (r: Result<(nat, ScanState), string>)
    requires i < |lines|
    ensures r.Ok? ==> i < r.value.0 <= |lines|
  {
    var kind := Classify(lines[i], st);
    if kind == NotesBlock && !HasSubsection(st.project, st.l2, st.l3) then Err("TypeError")
    else
      var (k, st') := Step(lines, i, st, env);
      if kind == L2Heading then Ok((k, st'.(l3 := st.l3))) else Ok((k, st'))
  }

  function ScanAsWritten(lines: seq<string>, i: nat, st: ScanState, env: Env): Result<ScanState, string>
    requires i <= |lines|
    decreases |lines| - i
  {
    if i == |lines| then Ok(st)
    else
      match StepAsWritten(lines, i, st, env)
      case Err(e) => Err(e)
      case Ok(next) => ScanAsWritten(lines, next.0, next.1, env)
  }

  function ParseAsWritten(md: string, env: Env, clock: nat -> int, stamp: nat -> string): Result<Project, string> {
    match ScanAsWritten(SplitLines(md), 0, Start, env)
    case Err(e) => Err(e)
    case Ok(st) => Ok(st.project.(sections := MigrateAll(st.project.sections, clock, stamp)))
  }

  /** How a bare `**Notes:**` line is read: as a notes block exactly when a
      subsection is current. */
  lemma NotesLineKind(st: ScanState)
    ensures Classify("**Notes:**", st) == if st.l3 != "" then NotesBlock else Ignored
  {
    var l := "**Notes:**";
    TrimFixed(l);
    PrefixMismatch(l, "Time:");
    PrefixMismatch(l, "DailyWork:");
    PrefixMismatch(l, "Timeline Start:");
    PrefixMismatch(l, "Timeline End:");
    PrefixMismatch(l, "Daily Work:");
    PrefixMismatch(l, "Timeline Events:");
    PrefixMismatch(l, "## ");
    PrefixMismatch(l, "### ");
    assert StartsWith(l, "**Notes:**");
  }

  /** How a `## ` or `### ` line with a one-letter title is read. */
  lemma HeadingKind(raw: string, st: ScanState)
    requires raw == "## A" || raw == "## B" || raw == "### X"
    ensures raw[0] == '#' && Trim(raw) == raw
    ensures Classify(raw, st) == if raw == "### X" then (if st.seenL2 then L3Heading else Ignored) else L2Heading
  {
    TrimFixed(raw);
  }

  /** A `##` heading appends its name to the section names unless it is
      already there, keeping the order of the rest. */
  lemma L2HeadingKeys(lines: seq<string>, i: nat, st: ScanState, env: Env)
    requires i < |lines| && Classify(lines[i], st) == L2Heading
    ensures var ks := Keys(st.project.sections);
      var ks' := Keys(Step(lines, i, st, env).1.project.sections);
      var name := Trim(lines[i][3..]);
      if Has(st.project.sections, name) then ks' == ks else ks' == ks + [name]
  {
    var name := Trim(lines[i][3..]);
    var win := Window(lines, i);
    assert Step(lines, i, st, env).1.project == OpenSection(st.project, name, win);
    PutKeys(st.project.sections, name, Section(WindowTime(win, 0), WindowColor(win, ""), []));
  }

  /** A `###` heading keeps the section names. */
  lemma L3HeadingKeys(lines: seq<string>, i: nat, st: ScanState, env: Env)
    requires i < |lines| && Classify(lines[i], st) == L3Heading && Has(st.project.sections, st.l2)
    ensures Keys(Step(lines, i, st, env).1.project.sections) == Keys(st.project.sections)
  {
    var name := Trim(lines[i][4..]);
    assert Step(lines, i, st, env).1.project == OpenSubsection(st.project, st.l2, name, Window(lines, i));
  }

  /** Where the as-written step differs from the corrected one. */
  lemma AsWrittenStep(lines: seq<string>, i: nat, st: ScanState, env: Env)
    requires i < |lines|
    ensures var kind := Classify(lines[i], st);
      var (k, st') := Step(lines, i, st, env);
      StepAsWritten(lines, i, st, env)
        == if kind == NotesBlock && !HasSubsection(st.project, st.l2, st.l3) then Err("TypeError")
           else if kind == L2Heading then Ok((k, st'.(l3 := st.l3)))
           else Ok((k, st'))
  {
  }

  /** The as-written state `a` and the corrected state `c` differ at most in
      the current subsection name; where they do, the corrected scan has
      none and the stale name names no subsection of the current section. */
  predicate StaleL3(a: ScanState, c: ScanState) {
    && a == c.(l3 := a.l3)
    && (a.l3 == c.l3 || (c.l3 == "" && !HasSubsection(c.project, c.l2, a.l3)))
  }

  /** A step the source survives keeps the two states related: a stale name
      only matters at a `**Notes:**` line, and there the source throws. */
  lemma StepStaleL3(lines: seq<string>, i: nat, a: ScanState, c: ScanState, env: Env)
    requires i < |lines| && StaleL3(a, c) && StepAsWritten(lines, i, a, env).Ok?
    ensures var (ka, a') := StepAsWritten(lines, i, a, env).value;
      var (kc, c') := Step(lines, i, c, env);
      ka == kc && StaleL3(a', c')
  {
    var kind := Classify(lines[i], a);
    var (kc, c') := Step(lines, i, c, env);
    if kind == L2Heading {
      assert Classify(lines[i], c) == L2Heading;
      L2HeadingOpens(lines, i, c, env);
      assert Step(lines, i, a, env) == (kc, c');
    } else if a.l3 == c.l3 {
      assert a == c;
    } else {
      assert kind != NotesBlock;
      assert Classify(lines[i], c) == kind;
      if kind == L3Heading {
        assert Step(lines, i, a, env) == (kc, c');
      } else {
        assert Step(lines, i, a, env) == (kc, c'.(l3 := a.l3));
        assert c'.project.sections == c.project.sections && c'.l2 == c.l2;
      }
    }
  }

  lemma {:induction false} ScanStaleL3(lines: seq<string>, i: nat, a: ScanState, c: ScanState, env: Env)
    requires i <= |lines| && StaleL3(a, c)
    ensures ScanAsWritten(lines, i, a, env).Ok? ==> StaleL3(ScanAsWritten(lines, i, a, env).value, ScanFrom(lines, i, c, env))
    decreases |lines| - i
  {
    if i < |lines| && StepAsWritten(lines, i, a, env).Ok? {
      var (ka, a') := StepAsWritten(lines, i, a, env).value;
      var (kc, c') := Step(lines, i, c, env);
      StepStaleL3(lines, i, a, c, env);
      ScanStaleL3(lines, ka, a', c', env);
    }
  }

  /** Every file the source loads, the corrected scan loads to the same
      project: the correction only changes the files the source rejects. */
  lemma AsWrittenAgrees(md: string, env: Env, clock: nat -> int, stamp: nat -> string)
    ensures ParseAsWritten(md, env, clock, stamp).Ok? ==> ParseAsWritten(md, env, clock, stamp).value == Parse(md, env, clock, stamp)
  {
    ScanStaleL3(SplitLines(md), 0, Start, Start, env);
  }

  /** A document with a `**Notes:**` line straight under a second section,
      after a subsection of the first. */
  const Sample: seq<string> := ["## A", "### X", "## B", "**Notes:**"]

  /** The scanner's state after each of the sample's first three lines. */
  const SampleA := ScanState(OpenSection(EmptyProject, "A", Sample[1..4]), true, "A", "")
  const SampleX := SampleA.(project := OpenSubsection(SampleA.project, "A", "X", Sample[2..4]), l3 := "X")
  const SampleB := ScanState(OpenSection(SampleX.project, "B", Sample[3..4]), true, "B", "")

  lemma SampleSteps(env: Env)
    ensures Step(Sample, 0, Start, env) == (1, SampleA)
    ensures Step(Sample, 1, SampleA, env) == (2, SampleX)
    ensures Step(Sample, 2, SampleX, env) == (3, SampleB)
  {
    SampleStepA(env);
    SampleStepX(env);
    SampleStepB(env);
  }

  lemma SampleStepA(env: Env)
    ensures Step(Sample, 0, Start, env) == (1, SampleA)
  {
    HeadingKind(Sample[0], Start);
    TrimFixed("A");
    assert Sample[0][3..] == "A";
  }

  lemma SampleStepX(env: Env)
    ensures Step(Sample, 1, SampleA, env) == (2, SampleX)
  {
    HeadingKind(Sample[1], SampleA);
    TrimFixed("X");
    assert Sample[1][4..] == "X";
  }

  lemma SampleStepB(env: Env)
    ensures Step(Sample, 2, SampleX, env) == (3, SampleB)
  {
    HeadingKind(Sample[2], SampleX);
    TrimFixed("B");
    assert Sample[2][3..] == "B";
  }

  lemma SampleKeys()
    ensures Keys(SampleB.project.sections) == ["A", "B"]
    ensures Get(SampleB.project.sections, "B").value.subsections == []
  {
    assert Keys(SampleA.project.sections) == ["A"];
    assert Has(SampleA.project.sections, "A");
    assert Keys(SampleX.project.sections) == ["A"];
    HasIffInKeys(SampleX.project.sections, "B");
    assert Keys(SampleB.project.sections) == ["A"] + ["B"];
  }

  /** The sample loads with both sections once a new section clears the
      current subsection. */
  lemma SampleLoads(env: Env)
    ensures Keys(ScanFrom(Sample, 0, Start, env).project.sections) == ["A", "B"]
  {
    SampleSteps(env);
    SampleKeys();
    NotesLineKind(SampleB);
    IgnoredLine(Sample, 3, SampleB, env);
    assert ScanFrom(Sample, 2, SampleX, env) == SampleB;
  }

  lemma SampleStepAAsWritten(env: Env)
    ensures StepAsWritten(Sample, 0, Start, env) == Ok((1, SampleA))
  {
    SampleSteps(env);
    HeadingKind(Sample[0], Start);
    AsWrittenStep(Sample, 0, Start, env);
  }

  lemma SampleStepXAsWritten(env: Env)
    ensures StepAsWritten(Sample, 1, SampleA, env) == Ok((2, SampleX))
  {
    SampleSteps(env);
    HeadingKind(Sample[1], SampleA);
    AsWrittenStep(Sample, 1, SampleA, env);
  }

  lemma SampleStepBAsWritten(env: Env)
    ensures StepAsWritten(Sample, 2, SampleX, env) == Ok((3, SampleB.(l3 := "X")))
  {
    SampleSteps(env);
    HeadingKind(Sample[2], SampleX);
    AsWrittenStep(Sample, 2, SampleX, env);
  }

  lemma SampleLastStepAsWritten(env: Env)
    ensures StepAsWritten(Sample, 3, SampleB.(l3 := "X"), env) == Err("TypeError")
  {
    var w := SampleB.(l3 := "X");
    SampleKeys();
    NotesLineKind(w);
    assert !HasSubsection(w.project, "B", "X");
  }

  /** As written, the sample fails to load: the fourth line is a notes
      block for subsection X of section B, which does not exist. */
  lemma SampleFailsAsWritten(env: Env)
    ensures ScanAsWritten(Sample, 0, Start, env) == Err("TypeError")
  {
    SampleStepAAsWritten(env);
    SampleStepXAsWritten(env);
    SampleStepBAsWritten(env);
    SampleLastStepAsWritten(env);
    assert ScanAsWritten(Sample, 2, SampleX, env) == Err("TypeError");
  }

  // ---------------------------------------------------------------- the loop, imperatively

  /** What one line of the window does to the total. */
  function TimeAfter(line: string, t: int): int {
    if TimeLine(line) then ParseIntOr0(line[5..]) else t
  }

  /** What one line of the window does to the colour. */
  function ColorAfter(line: string, c: string): string {
    if ColorLine(line) then Trim(line[6..]) else c
  }

  /** One more line of a look-ahead window. */
  lemma WindowExtend(lines: seq<string>, a: nat, j: nat, t: int, c: string)
    requires a <= j < |lines|
    ensures WindowTime(lines[a..j + 1], t) == TimeAfter(lines[j], WindowTime(lines[a..j], t))
    ensures WindowColor(lines[a..j + 1], c) == ColorAfter(lines[j], WindowColor(lines[a..j], c))
  {
    var ls := lines[a..j + 1];
    assert ls[..|ls| - 1] == lines[a..j];
    assert ls[|ls| - 1] == lines[j];
  }

  /** The look-ahead loop of a heading at `i`: the last `Time:` and `Color:`
      lines of the next five win over the starting values. */
  method LookAhead(lines: seq<string>, i: nat, t0: int, c0: string) returns (t: int, c: string)
    requires i < |lines|
    ensures t == WindowTime(Window(lines, i), t0) && c == WindowColor(Window(lines, i), c0)
  {
    t, c := t0, c0;
    var j := i + 1;
    var end := Min(i + 6, |lines|);
    while j < end
      invariant i + 1 <= j <= end
      invariant t == WindowTime(lines[i + 1..j], t0) && c == WindowColor(lines[i + 1..j], c0)
    {
      WindowExtend(lines, i + 1, j, t0, c0);
      t := TimeAfter(lines[j], t);
      c := ColorAfter(lines[j], c);
      j := j + 1;
    }
  }

  /** A `Daily Work:` line and the bullets after it. */
  method ScanDailyWork(lines: seq<string>, i: nat, st: ScanState, env: Env) returns (k: nat, st': ScanState)
    requires i < |lines| && Classify(lines[i], st) == DailyWorkBlock
    ensures (k, st') == Step(lines, i, st, env)
  {
    var dw;
    k, dw := FoldRun(lines, i + 1, st.project.dailyWork, DailyStep(env.toSeconds), Bullet);
    st' := st.(project := st.project.(dailyWork := dw));
  }

  /** A `Timeline Events:` line and the bullets after it. */
  method ScanEvents(lines: seq<string>, i: nat, st: ScanState, env: Env) returns (k: nat, st': ScanState)
    requires i < |lines| && Classify(lines[i], st) == EventsBlock
    ensures (k, st') == Step(lines, i, st, env)
  {
    var events;
    k, events := FoldRun(lines, i + 1, [], Appending(EventsAt(env.now)), Bullet);
    var p := st.project;
    st' := st.(project := p.(timeline := p.timeline.(events := p.timeline.events + events)));
  }

  /** A `**Notes:**` line and the lines up to the next heading or notes line. */
  method ScanNotes(lines: seq<string>, i: nat, st: ScanState, env: Env) returns (k: nat, st': ScanState)
    requires i < |lines| && Classify(lines[i], st) == NotesBlock
    ensures (k, st') == Step(lines, i, st, env)
  {
    var notes;
    k, notes := FoldRun(lines, i + 1, [], Appending(NoteAt), InNotes);
    st' := st.(project := SetNotes(st.project, st.l2, st.l3, notes));
  }

  /** A `##` heading. */
  method ScanL2Heading(lines: seq<string>, i: nat, st: ScanState, env: Env) returns (k: nat, st': ScanState)
    requires i < |lines| && Classify(lines[i], st) == L2Heading
    ensures (k, st') == Step(lines, i, st, env)
  {
    var name := Trim(lines[i][3..]);
    var t, c := LookAhead(lines, i, 0, "");
    var sections := Put(st.project.sections, name, Section(t, c, []));
    k, st' := i + 1, ScanState(st.project.(sections := sections), true, name, "");
  }

  /** A `###` heading under an open section. */
  method ScanL3Heading(lines: seq<string>, i: nat, st: ScanState, env: Env) returns (k: nat, st': ScanState)
    requires i < |lines| && Classify(lines[i], st) == L3Heading
    ensures (k, st') == Step(lines, i, st, env)
  {
    var name := Trim(lines[i][4..]);
    var p := st.project;
    match Get(p.sections, st.l2) {
      case None =>
      case Some(sec) =>
        var sub := Get(sec.subsections, name).GetOr(Subsection(0, "", []));
        var t, c := LookAhead(lines, i, sub.totalTime, sub.color);
        var subs := Put(sec.subsections, name, sub.(totalTime := t, color := c));
        p := p.(sections := Put(p.sections, st.l2, sec.(subsections := subs)));
    }
    k, st' := i + 1, st.(project := p, l3 := name);
  }

  /** Any other line: top-level metadata or nothing. */
  method ScanLine(lines: seq<string>, i: nat, st: ScanState, env: Env) returns (k: nat, st': ScanState)
    requires i < |lines|
    requires Classify(lines[i], st) in {TopTime, LegacyDailyWork, TimelineStart, TimelineEnd, Ignored}
    ensures (k, st') == Step(lines, i, st, env)
  {
    var l := Trim(lines[i]);
    var p := st.project;
    k, st' := i + 1, st;
    match Classify(lines[i], st) {
      case TopTime =>
        st' := st.(project := p.(totalTime := ParseIntOr0(l[5..])));
      case TimelineStart =>
        st' := st.(project := p.(timeline := p.timeline.(startDate := Trim(l[15..]))));
      case TimelineEnd =>
        st' := st.(project := p.(timeline := p.timeline.(endDate := Trim(l[13..]))));
      case _ =>
    }
  }

  /** The pass after the loop for one board's subsections. */
  method MigrateBoard(subsections: Entries<Subsection>, clock: nat -> int, stamp: nat -> string) returns (r: Entries<Subsection>)
    ensures r == MigrateSubsections(subsections, clock, stamp)
  {
    r := [];
    var b := 0;
    while b < |subsections|
      invariant b <= |subsections| && |r| == b
      invariant forall j :: 0 <= j < b ==> r[j] == MigrateSubsection(subsections[j], clock, stamp)
    {
      var (title, sub) := subsections[b];
      if title != "" {
        sub := sub.(oldNotes := Migrate(sub.oldNotes, clock, stamp));
      }
      r := r + [(title, sub)];
      b := b + 1;
    }
  }

  /** The pass after the loop, one board at a time. */
  method MigrateBoards(sections: Entries<Section>, clock: nat -> int, stamp: nat -> string) returns (r: Entries<Section>)
    ensures r == MigrateAll(sections, clock, stamp)
  {
    r := [];
    var a := 0;
    while a < |sections|
      invariant a <= |sections| && |r| == a
      invariant forall j :: 0 <= j < a ==> r[j] == MigrateSection(sections[j], clock, stamp)
    {
      var (name, sec) := sections[a];
      if name != "" {
        var subs := MigrateBoard(sec.subsections, clock, stamp);
        sec := sec.(subsections := subs);
      }
      r := r + [(name, sec)];
      a := a + 1;
    }
  }

  /** parseAndRenderMarkdown, less the DOM: the project a file loads as. */
  method ParseDocument(md: string, env: Env, clock: nat -> int, stamp: nat -> string) returns (p: Project)
    ensures p == Parse(md, env, clock, stamp)
  {
    var lines := SplitLines(md);
    var st := Start;
    var i := 0;
    while i < |lines|
      invariant i <= |lines|
      invariant ScanFrom(lines, i, st, env) == ScanFrom(lines, 0, Start, env)
      decreases |lines| - i
    {
      var kind := Classify(lines[i], st);
      var k, st';
      if kind == DailyWorkBlock {
        k, st' := ScanDailyWork(lines, i, st, env);
      } else if kind == EventsBlock {
        k, st' := ScanEvents(lines, i, st, env);
      } else if kind == L2Heading {
        k, st' := ScanL2Heading(lines, i, st, env);
      } else if kind == L3Heading {
        k, st' := ScanL3Heading(lines, i, st, env);
      } else if kind == NotesBlock {
        k, st' := ScanNotes(lines, i, st, env);
      } else {
        k, st' := ScanLine(lines, i, st, env);
      }
      i, st := k, st';
    }
    var sections := MigrateBoards(st.project.sections, clock, stamp);
    p := st.project.(sections := sections);
  }
}
