/** The structural edits: adding, renaming and deleting sections. Each one
    splits the file text into lines, searches them with `findIndex` or a
    cursor loop, rewrites or splices the line array, joins it again, and
    updates the section map the same way. */
module Edits {
  import opened Wrappers
  import opened Text
  import opened JsObject
  import opened Model

  // ---------------------------------------------------------------- line searches

  /** The line tests the edits search for. */
  datatype Pattern =
    | Trimmed(text: string)        // `l.trim() === text`
    | Prefixed(prefix: string)     // `l.startsWith(prefix)`
    | SectionLine                  // a `## ` line that is not a `### ` line
    | SectionTitled(title: string) // such a line whose text after `## ` trims to `title`
    | ScopeEnd(title: string)      // a section line, or a `### ` line titled `title`

  /** A `### ` line whose text after `### ` trims to `title`. */
  predicate SubsectionTitled(l: string, title: string) {
    StartsWith(l, "### ") && Trim(l[4..]) == title
  }

  predicate Matches(p: Pattern, l: string) {
    match p
    case Trimmed(text) => Trim(l) == text
    case Prefixed(prefix) => StartsWith(l, prefix)
    case SectionLine => IsL2Line(l)
    case SectionTitled(title) => IsL2Line(l) && Trim(l[3..]) == title
    case ScopeEnd(title) => IsL2Line(l) || SubsectionTitled(l, title)
  }

  /** `findIndex` started at line `a`: the first line from `a` on that `p`
      matches, or |lines| when there is none. */
  function FindFrom(lines: seq<string>, a: nat, p: Pattern): (k: nat)
    requires a <= |lines|
    ensures a <= k <= |lines|
    ensures forall m :: a <= m < k ==> !Matches(p, lines[m])
    ensures k < |lines| ==> Matches(p, lines[k])
    decreases |lines| - a
  {
    if a == |lines| || Matches(p, lines[a]) then a else FindFrom(lines, a + 1, p)
  }

  /** The search loops of the edits. */
  method Find(lines: seq<string>, a: nat, p: Pattern) returns (k: nat)
    requires a <= |lines|
    ensures k == FindFrom(lines, a, p)
  {
    k := a;
    while k < |lines| && !Matches(p, lines[k])
      invariant a <= k <= |lines|
      invariant FindFrom(lines, k, p) == FindFrom(lines, a, p)
    {
      k := k + 1;
    }
  }

  /** FindFrom is the first matching line from `a` on. */
  lemma {:induction false} FindFromIs(lines: seq<string>, a: nat, p: Pattern, k: nat)
    requires a <= k <= |lines|
    requires forall m :: a <= m < k ==> !Matches(p, lines[m])
    requires k < |lines| ==> Matches(p, lines[k])
    ensures FindFrom(lines, a, p) == k
    decreases k - a
  {
    if a < k {
      FindFromIs(lines, a + 1, p, k);
    }
  }

  /** Line `j` is the first line `p` matches. */
  predicate FirstMatch(lines: seq<string>, j: nat, p: Pattern) {
    j < |lines| && Matches(p, lines[j]) && forall m :: 0 <= m < j ==> !Matches(p, lines[m])
  }

  // ---------------------------------------------------------------- renaming

  /** updateSectionTitle at level 2, on the lines: the first section line
      titled `oldT` becomes `## newT`. */
  function SectionRenamed(lines: seq<string>, oldT: string, newT: string): seq<string> {
    var k := FindFrom(lines, 0, SectionTitled(oldT));
    if k < |lines| then lines[k := "## " + newT] else lines
  }

  /** updateSectionTitle at level 3, on the lines: after the first section
      line titled `parent`, and before the next section line, the first
      `### ` line titled `oldT` becomes `### newT`. */
  function SubsectionRenamed(lines: seq<string>, parent: string, oldT: string, newT: string): seq<string> {
    var p := FindFrom(lines, 0, SectionTitled(parent));
    if p == |lines| then lines
    else
      var k := FindFrom(lines, p + 1, ScopeEnd(oldT));
      if k < |lines| && !IsL2Line(lines[k]) then lines[k := "### " + newT] else lines
  }

  method RenameSection(lines: seq<string>, oldT: string, newT: string) returns (r: seq<string>)
    ensures r == SectionRenamed(lines, oldT, newT)
  {
    var k := Find(lines, 0, SectionTitled(oldT));
    r := lines;
    if k < |lines| {
      r := r[k := "## " + newT];
    }
  }

  method RenameSubsection(lines: seq<string>, parent: string, oldT: string, newT: string) returns (r: seq<string>)
    ensures r == SubsectionRenamed(lines, parent, oldT, newT)
  {
    r := lines;
    var p := Find(lines, 0, SectionTitled(parent));
    if p < |lines| {
      var k := Find(lines, p + 1, ScopeEnd(oldT));
      if k < |lines| && !IsL2Line(lines[k]) {
        r := r[k := "### " + newT];
      }
    }
  }

  /** A heading written for a trimmed title reads back as that title. */
  lemma SectionHeadingTitled(t: string)
    requires Trim(t) == t
    ensures Matches(SectionTitled(t), "## " + t)
  {
    var l := "## " + t;
    assert l[..3] == "## " && l[3..] == t;
    if |l| >= 4 {
      assert l[..4][2] == ' ';
    }
  }

  lemma SubsectionHeadingTitled(t: string)
    requires Trim(t) == t
    ensures SubsectionTitled("### " + t, t) && !IsL2Line("### " + t)
  {
    var l := "### " + t;
    assert l[..4] == "### " && l[4..] == t;
    assert l[..3] == "###";
  }

  /** Renaming a section rewrites at most one line, the first section line
      titled `oldT`, and that line then carries the new title; without such
      a line the text is unchanged. */
  lemma SectionRenameChangesOne(lines: seq<string>, oldT: string, newT: string)
    requires Trim(newT) == newT
    ensures var r := SectionRenamed(lines, oldT, newT);
      && |r| == |lines|
      && (forall j: nat :: j < |lines| && r[j] != lines[j] ==> FirstMatch(lines, j, SectionTitled(oldT)))
      && (forall j: nat :: FirstMatch(lines, j, SectionTitled(oldT)) ==> Matches(SectionTitled(newT), r[j]))
      && ((forall j :: 0 <= j < |lines| ==> !Matches(SectionTitled(oldT), lines[j])) ==> r == lines)
  {
    var r := SectionRenamed(lines, oldT, newT);
    var k := FindFrom(lines, 0, SectionTitled(oldT));
    SectionHeadingTitled(newT);
    forall j: nat | FirstMatch(lines, j, SectionTitled(oldT))
      ensures Matches(SectionTitled(newT), r[j])
    {
      assert j == k;
    }
  }

  /** A `### ` line is never a section line. */
  lemma SubsectionNotSection(l: string, t: string)
    requires SubsectionTitled(l, t)
    ensures !IsL2Line(l)
  {
    assert l[..3] == "###";
  }

  /** Renaming a subsection rewrites at most one line: a `### oldT` line
      after the parent's heading with no section line and no other
      `### oldT` line between them. That line then carries the new title. */
  lemma SubsectionRenameScoped(lines: seq<string>, parent: string, oldT: string, newT: string)
    requires Trim(newT) == newT
    ensures var r := SubsectionRenamed(lines, parent, oldT, newT);
      var p := FindFrom(lines, 0, SectionTitled(parent));
      && |r| == |lines|
      && (forall j :: 0 <= j < |lines| && r[j] != lines[j] ==>
            && p < j
            && SubsectionTitled(lines[j], oldT)
            && SubsectionTitled(r[j], newT)
            && forall m :: p < m < j ==> !IsL2Line(lines[m]) && !SubsectionTitled(lines[m], oldT))
  {
    SubsectionHeadingTitled(newT);
  }

  /** The first `### oldT` line in the parent's range is the one renamed. */
  lemma SubsectionRenameFindsFirst(lines: seq<string>, parent: string, oldT: string, newT: string, j: nat)
    requires var p := FindFrom(lines, 0, SectionTitled(parent));
      && p < j < |lines| && SubsectionTitled(lines[j], oldT)
      && (forall m :: p < m < j ==> !IsL2Line(lines[m]) && !SubsectionTitled(lines[m], oldT))
    ensures SubsectionRenamed(lines, parent, oldT, newT)[j] == "### " + newT
  {
    var p := FindFrom(lines, 0, SectionTitled(parent));
    SubsectionNotSection(lines[j], oldT);
    FindFromIs(lines, p + 1, ScopeEnd(oldT), j);
  }

  // ---------------------------------------------------------------- deleting

  /** The splice of deleteSection: from the first line `start` matches up
      to, not including, the next line after it that `stop` matches. */
  function Cut(lines: seq<string>, start: Pattern, stop: Pattern): seq<string> {
    var s := FindFrom(lines, 0, start);
    if s == |lines| then lines else lines[..s] + lines[FindFrom(lines, s + 1, stop)..]
  }

  /** A section goes from its heading to the next line starting with `## `. */
  function SectionDeleted(lines: seq<string>, title: string): seq<string> {
    Cut(lines, Trimmed("## " + title), Prefixed("## "))
  }

  /** A subsection goes from the first `### title` line of the whole
      document to the next line starting with `#`. */
  function SubsectionDeleted(lines: seq<string>, title: string): seq<string> {
    Cut(lines, Trimmed("### " + title), Prefixed("#"))
  }

  method Splice(lines: seq<string>, start: Pattern, stop: Pattern) returns (r: seq<string>)
    ensures r == Cut(lines, start, stop)
  {
    r := lines;
    var s := Find(lines, 0, start);
    if s < |lines| {
      var e := Find(lines, s + 1, stop);
      r := lines[..s] + lines[e..];
    }
  }

  method DeleteSection(lines: seq<string>, title: string) returns (r: seq<string>)
    ensures r == SectionDeleted(lines, title)
  {
    r := Splice(lines, Trimmed("## " + title), Prefixed("## "));
  }

  method DeleteSubsection(lines: seq<string>, title: string) returns (r: seq<string>)
    ensures r == SubsectionDeleted(lines, title)
  {
    r := Splice(lines, Trimmed("### " + title), Prefixed("#"));
  }

  /** A deletion removes one contiguous run of lines: it starts at the first
      line `start` matches, holds no further line `stop` matches, and ends
      at the end of the text or before such a line. Every line before and
      after the run is kept in order; without a start line nothing changes. */
  lemma CutOneRange(lines: seq<string>, start: Pattern, stop: Pattern)
    ensures var r := Cut(lines, start, stop);
      var s := FindFrom(lines, 0, start);
      && (s == |lines| ==> r == lines)
      && (s < |lines| ==> exists e: nat :: RemovedRun(lines, r, s, e, stop))
      && (s < |lines| ==> FirstMatch(lines, s, start))
  {
    var s := FindFrom(lines, 0, start);
    if s < |lines| {
      var e := FindFrom(lines, s + 1, stop);
      CutShape(lines, s, e, stop);
      assert Cut(lines, start, stop) == lines[..s] + lines[e..];
    }
  }

  lemma CutShape(lines: seq<string>, s: nat, e: nat, stop: Pattern)
    requires s < e <= |lines|
    requires forall m :: s + 1 <= m < e ==> !Matches(stop, lines[m])
    requires e == |lines| || Matches(stop, lines[e])
    ensures RemovedRun(lines, lines[..s] + lines[e..], s, e, stop)
  {
  }

  /** `r` is `lines` without `lines[s..e]`, a run that `stop` ends. */
  predicate RemovedRun(lines: seq<string>, r: seq<string>, s: nat, e: nat, stop: Pattern) {
    && s < e <= |lines|
    && |r| == |lines| - (e - s)
    && (forall m :: 0 <= m < s ==> r[m] == lines[m])
    && (forall m :: e <= m < |lines| ==> r[m - (e - s)] == lines[m])
    && (forall m :: s < m < e ==> !Matches(stop, lines[m]))
    && (e == |lines| || Matches(stop, lines[e]))
  }

  // ---------------------------------------------------------------- adding

  /** The lines addLevel3Section splices in; `**Notes:**` is written twice. */
  function SubsectionTemplate(title: string, color: string): (t: seq<string>)
    ensures |t| == 9
  {
    ["", "### " + title, "", "Time: 0", if color != "" then "Color: " + color else "",
     "**Notes:**", "", "**Notes:**", ""]
  }

  /** The splice of addLevel3Section: `t` goes before the first section
      line after the first line `start` matches, or at the end. */
  function InsertAfter(lines: seq<string>, start: Pattern, t: seq<string>): seq<string> {
    var p := FindFrom(lines, 0, start);
    if p == |lines| then lines
    else
      var at := FindFrom(lines, p + 1, SectionLine);
      lines[..at] + t + lines[at..]
  }

  /** addLevel3Section on the lines: the template goes under the parent's
      heading, before the next section. */
  function SubsectionAdded(lines: seq<string>, title: string, parent: string, color: string): seq<string> {
    InsertAfter(lines, Trimmed("## " + parent), SubsectionTemplate(title, color))
  }

  method AddSubsection(lines: seq<string>, title: string, parent: string, color: string) returns (r: seq<string>)
    ensures r == SubsectionAdded(lines, title, parent, color)
  {
    r := lines;
    var p := Find(lines, 0, Trimmed("## " + parent));
    if p < |lines| {
      var at := Find(lines, p + 1, SectionLine);
      r := lines[..at] + SubsectionTemplate(title, color) + lines[at..];
    }
  }

  /** The lines go in after the heading, before the next section line, and
      every other line keeps its place; without the heading nothing changes. */
  lemma InsertAfterShape(lines: seq<string>, start: Pattern, t: seq<string>)
    ensures var r := InsertAfter(lines, start, t);
      var p := FindFrom(lines, 0, start);
      && (p == |lines| ==> r == lines)
      && (p < |lines| ==> exists at: nat :: InsertedAt(lines, r, p, at, t))
  {
    var p := FindFrom(lines, 0, start);
    if p < |lines| {
      var at := FindFrom(lines, p + 1, SectionLine);
      InsertShape(lines, p, at, t);
      assert InsertAfter(lines, start, t) == lines[..at] + t + lines[at..];
    }
  }

  lemma InsertShape(lines: seq<string>, p: nat, at: nat, t: seq<string>)
    requires p < at <= |lines|
    requires forall m :: p + 1 <= m < at ==> !Matches(SectionLine, lines[m])
    requires at == |lines| || Matches(SectionLine, lines[at])
    ensures InsertedAt(lines, lines[..at] + t + lines[at..], p, at, t)
  {
  }

  /** `r` is `lines` with `t` inserted at `at`, the first section line after
      line `p` (or the end). */
  predicate InsertedAt(lines: seq<string>, r: seq<string>, p: nat, at: nat, t: seq<string>) {
    && p < at <= |lines|
    && |r| == |lines| + |t|
    && r[..at] == lines[..at]
    && r[at..at + |t|] == t
    && r[at + |t|..] == lines[at..]
    && (forall m :: p < m < at ==> !IsL2Line(lines[m]))
    && (at == |lines| || IsL2Line(lines[at]))
  }

  /** The lines of the text addLevel2Section appends,
      `## ${title}\n\nTime: 0\nColor: ${color}\n\n`. */
  function NewSectionLines(title: string, color: string): seq<string> {
    ["## " + title, "", "Time: 0", "Color: " + color, "", ""]
  }

  /** addLevel2Section's text: the section is appended to the file. */
  function SectionAppended(content: string, title: string, color: string): string {
    content + JoinLines(NewSectionLines(title, color))
  }

  /** Joining two line lists at a separator joins their concatenation. */
  lemma {:induction false} JoinConcat(a: seq<string>, b: seq<string>, sep: char)
    requires |a| >= 1 && |b| >= 1
    ensures Join(a, sep) + [sep] + Join(b, sep) == Join(a + b, sep)
  {
    if |a| > 1 {
      JoinConcat(a[1..], b, sep);
      assert (a + b)[1..] == a[1..] + b;
    } else {
      assert (a + b)[1..] == b;
    }
  }

  /** On a text that ends with a newline, as every saved text does, the new
      section's heading is a line of its own after the existing lines, and
      its `Time:` and `Color:` lines follow. */
  lemma SectionAppendedLines(content: string, title: string, color: string)
    requires |content| >= 1 && content[|content| - 1] == '\n'
    requires '\n' !in title && '\n' !in color
    ensures SplitLines(SectionAppended(content, title, color))
         == SplitLines(content[..|content| - 1]) + NewSectionLines(title, color)
  {
    var a := content[..|content| - 1];
    var la := SplitLines(a);
    var t := NewSectionLines(title, color);
    JoinSplitLines(a);
    JoinConcat(la, t, '\n');
    assert content == a + "\n";
    assert SectionAppended(content, title, color) == JoinLines(la) + "\n" + JoinLines(t);
    assert '\n' !in "## " + title && '\n' !in "Color: " + color;
    forall i | 0 <= i < |la + t| ensures '\n' !in (la + t)[i] {
      if i >= |la| {
        assert (la + t)[i] == t[i - |la|];
      }
    }
    SplitJoinLines(la + t);
  }

  // ---------------------------------------------------------------- colours

  const Palette: seq<string> := ["#7fbc7f", "#7f7fcd", "#d980a0", "#ff9d7f", "#ffff99",
                                 "#99ff99", "#99ffff", "#ff99ff", "#a3c1f0", "#ffe4c4"]

  /** `Object.values(projectData).map(s => s.color).filter(Boolean)`. */
  function UsedColors(sections: Entries<Section>): (used: seq<string>)
    ensures forall c :: c in used <==> c != "" && exists i :: 0 <= i < |sections| && sections[i].1.color == c
  {
    if sections == [] then []
    else
      var rest := UsedColors(sections[1..]);
      assert forall i :: 1 <= i < |sections| ==> sections[i] == sections[1..][i - 1];
      if sections[0].1.color != "" then [sections[0].1.color] + rest else rest
  }

  /** `palette.filter(c => !used.includes(c))`. */
  function Unused(palette: seq<string>, used: seq<string>): (avail: seq<string>)
    ensures forall c :: c in avail <==> c in palette && c !in used
  {
    if palette == [] then []
    else
      var rest := Unused(palette[1..], used);
      assert forall c :: c in palette <==> c == palette[0] || c in palette[1..];
      if palette[0] !in used then [palette[0]] + rest else rest
  }

  /** getUnusedColor, with `draw` standing for `Math.floor(Math.random() * n)`:
      a palette colour, one no section uses while there is one. */
  function UnusedColor(sections: Entries<Section>, draw: nat): (c: string)
    ensures c in Palette
    ensures (exists q :: q in Palette && q !in UsedColors(sections)) ==> c !in UsedColors(sections)
  {
    var avail := Unused(Palette, UsedColors(sections));
    if |avail| > 0 then avail[draw % |avail|] else Palette[draw % |Palette|]
  }

  /** The colour of a new subsection: `generateSimilarColor(parentColor,
      count)` picks variant `count % 10` of the parent's colour, where
      `count` is the number of its subsections; no parent colour, no colour. */
  function SubsectionColor(sections: Entries<Section>, parent: string, variants: string -> seq<string>): (c: string)
    requires forall b :: |variants(b)| == 10
    ensures c != "" ==> Has(sections, parent) && c in variants(Get(sections, parent).value.color)
    ensures Get(sections, parent).None? || Get(sections, parent).value.color == "" ==> c == ""
    ensures Get(sections, parent).Some? && Get(sections, parent).value.color != "" ==>
      var sec := Get(sections, parent).value;
      c == variants(sec.color)[|sec.subsections| % 10]
  {
    match Get(sections, parent)
    case None => ""
    case Some(sec) =>
      if sec.color == "" then "" else variants(sec.color)[|sec.subsections| % 10]
  }

  // ---------------------------------------------------------------- the section map

  /** `m[newT] = m[oldT]; delete m[oldT]`. */
  function RenameKey<V>(m: Entries<V>, oldT: string, newT: string): Entries<V>
    requires Has(m, oldT)
  {
    Remove(Put(m, newT, Get(m, oldT).value), oldT)
  }

  lemma {:induction false} RemoveAppend<V>(m: Entries<V>, e: (string, V), k: string)
    requires e.0 != k
    ensures Remove(m + [e], k) == Remove(m, k) + [e]
  {
    if m != [] {
      assert (m + [e])[1..] == m[1..] + [e];
      RemoveAppend(m[1..], e, k);
    } else {
      assert Remove([e], k) == [e] + Remove([], k);
    }
  }

  lemma {:induction false} RemoveSameKeys<V>(m: Entries<V>, m': Entries<V>, k: string)
    requires Keys(m) == Keys(m')
    ensures Keys(Remove(m, k)) == Keys(Remove(m', k))
  {
    if m != [] {
      assert Keys(m[1..]) == Keys(m)[1..] == Keys(m')[1..] == Keys(m'[1..]);
      RemoveSameKeys(m[1..], m'[1..], k);
    }
  }

  /** Renaming moves the value to the new key and drops the old one. A new
      key goes to the end of the order; an existing one is overwritten in
      place. Every other key reads as before. */
  lemma RenameKeyMoves<V>(m: Entries<V>, oldT: string, newT: string)
    requires Has(m, oldT) && newT != oldT
    ensures var r := RenameKey(m, oldT, newT);
      && Get(r, newT) == Get(m, oldT)
      && Get(r, oldT) == None
      && (forall k :: k != oldT && k != newT ==> Get(r, k) == Get(m, k))
      && (!Has(m, newT) ==> r == Remove(m, oldT) + [(newT, Get(m, oldT).value)])
      && (Has(m, newT) ==> Keys(r) == Keys(Remove(m, oldT)))
  {
    var v := Get(m, oldT).value;
    var m' := Put(m, newT, v);
    forall k ensures Get(RenameKey(m, oldT, newT), k) == if k == oldT then None else Get(m', k) {
      RemoveGet(m', oldT, k);
    }
    PutKeys(m, newT, v);
    if !Has(m, newT) {
      RemoveAppend(m, (newT, v), oldT);
    } else {
      RemoveSameKeys(m', m, oldT);
    }
  }

  /** The level-3 rename in the map: `projectData[parent][newT] =
      projectData[parent][oldT]; delete projectData[parent][oldT]`. */
  function RenameSubsectionEntry(sections: Entries<Section>, parent: string, oldT: string, newT: string): Entries<Section>
    requires Has(sections, parent) && Has(Get(sections, parent).value.subsections, oldT)
  {
    var sec := Get(sections, parent).value;
    Put(sections, parent, sec.(subsections := RenameKey(sec.subsections, oldT, newT)))
  }

  /** The level-3 delete in the map: `delete projectData[parent][title]`. */
  function RemoveSubsectionEntry(sections: Entries<Section>, parent: string, title: string): Entries<Section>
    requires Has(sections, parent)
  {
    var sec := Get(sections, parent).value;
    Put(sections, parent, sec.(subsections := Remove(sec.subsections, title)))
  }

  /** The map part of addLevel3Section: the parent is created when missing,
      then the subsection is set to a fresh one. */
  function AddSubsectionEntry(sections: Entries<Section>, parent: string, title: string, color: string): Entries<Section> {
    var sec := Get(sections, parent).GetOr(Section(0, "", []));
    Put(sections, parent, sec.(subsections := Put(sec.subsections, title, Subsection(0, color, []))))
  }

  /** Only the parent's entry changes, and in it only the subsection map:
      the renamed one moves, every other subsection reads as before. */
  lemma RenameSubsectionKeepsOthers(sections: Entries<Section>, parent: string, oldT: string, newT: string)
    requires Has(sections, parent) && Has(Get(sections, parent).value.subsections, oldT) && newT != oldT
    ensures var r := RenameSubsectionEntry(sections, parent, oldT, newT);
      var sec := Get(sections, parent).value;
      && Keys(r) == Keys(sections)
      && (forall k :: k != parent ==> Get(r, k) == Get(sections, k))
      && Get(r, parent).Some?
      && Get(r, parent).value.totalTime == sec.totalTime
      && Get(r, parent).value.color == sec.color
      && Get(Get(r, parent).value.subsections, newT) == Get(sec.subsections, oldT)
      && Get(Get(r, parent).value.subsections, oldT) == None
      && (forall k :: k != oldT && k != newT ==>
            Get(Get(r, parent).value.subsections, k) == Get(sec.subsections, k))
  {
    var sec := Get(sections, parent).value;
    RenameKeyMoves(sec.subsections, oldT, newT);
    PutKeys(sections, parent, sec.(subsections := RenameKey(sec.subsections, oldT, newT)));
  }

  /** Deleting a subsection drops only its entry: the other sections, the
      parent's total and colour and its other subsections stay. */
  lemma RemoveSubsectionKeepsOthers(sections: Entries<Section>, parent: string, title: string)
    requires Has(sections, parent)
    ensures var r := RemoveSubsectionEntry(sections, parent, title);
      var sec := Get(sections, parent).value;
      && Keys(r) == Keys(sections)
      && (forall k :: k != parent ==> Get(r, k) == Get(sections, k))
      && Get(r, parent).Some?
      && Get(r, parent).value.totalTime == sec.totalTime
      && Get(r, parent).value.color == sec.color
      && Get(Get(r, parent).value.subsections, title) == None
      && (forall k :: k != title ==> Get(Get(r, parent).value.subsections, k) == Get(sec.subsections, k))
  {
    var sec := Get(sections, parent).value;
    forall k ensures Get(Remove(sec.subsections, title), k) == if k == title then None else Get(sec.subsections, k) {
      RemoveGet(sec.subsections, title, k);
    }
    PutKeys(sections, parent, sec.(subsections := Remove(sec.subsections, title)));
  }

  /** The new subsection is empty with time 0 under its parent; an existing
      parent keeps its total, colour and other subsections, a missing one
      is created with time 0 and no colour. */
  lemma AddSubsectionEntryAdds(sections: Entries<Section>, parent: string, title: string, color: string)
    ensures var r := AddSubsectionEntry(sections, parent, title, color);
      var old_ := Get(sections, parent);
      && Get(r, parent).Some?
      && Get(Get(r, parent).value.subsections, title) == Some(Subsection(0, color, []))
      && (forall k :: k != parent ==> Get(r, k) == Get(sections, k))
      && (old_.Some? ==>
            && Keys(r) == Keys(sections)
            && Get(r, parent).value.totalTime == old_.value.totalTime
            && Get(r, parent).value.color == old_.value.color
            && forall k :: k != title ==> Get(Get(r, parent).value.subsections, k) == Get(old_.value.subsections, k))
      && (old_.None? ==>
            && Keys(r) == Keys(sections) + [parent]
            && Get(r, parent).value == Section(0, "", [(title, Subsection(0, color, []))]))
  {
    var sec := Get(sections, parent).GetOr(Section(0, "", []));
    PutKeys(sections, parent, sec.(subsections := Put(sec.subsections, title, Subsection(0, color, []))));
  }
}
