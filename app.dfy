/** The page's state and the handlers that change it. `state.fileContent`
    is the markdown text, `state.projectData` with the project totals,
    daily-work map and timeline is the parsed project, and the timer
    widgets with `activeTimer` are the timers. Every handler that edits a
    section rewrites the text line by line, and then either re-reads the
    whole text (`refreshProjectView`) or writes the text back from itself
    and the project (`saveToFile`). */
module App {
  import opened Wrappers
  import opened Text
  import opened JsObject
  import opened Model
  import opened Notes
  import Parser
  import Serializer
  import Edits
  import Timers

  /** What the browser supplies: `parseFloat` and `Date.now()` to the
      parser, `Date.now()` and `toLocaleString()` per migrated note, the
      `toFixed(1)` hours formatter and today's date. */
  datatype Host = Host(env: Parser.Env, clock: nat -> int, stamp: nat -> string,
                       formatHours: int -> string, today: string)

  /** The text `saveToFile` leaves. */
  function Saved(content: string, p: Project, h: Host): string {
    Serializer.Serialized(content, Serializer.Context(p, h.formatHours, h.today))
  }

  /** The project `parseAndRenderMarkdown` builds from the text. */
  function Loaded(content: string, h: Host): Project {
    Parser.Parse(content, h.env, h.clock, h.stamp)
  }

  class Tracker {
    var content: string
    var project: Project
    var timers: Timers.Timers

    /** The hand-off rule of the timers. */
    predicate Valid()
      reads this
    {
      Timers.SingleActive(timers)
    }

    /** A file is opened on a fresh page: its text is kept and read. The
        timer list starts empty; the stopped widget the render gives each
        subsection is added by `AddTimer`. */
    constructor Open(text: string, h: Host)
      ensures Valid()
      ensures content == text && project == Loaded(text, h)
      ensures timers == Timers.Timers([], None)
    {
      var p := Parser.ParseDocument(text, h.env, h.clock, h.stamp);
      content := text;
      project := p;
      timers := Timers.Timers([], None);
    }

    /** `saveToFile`: the text is rewritten from itself and the project. */
    method Save(h: Host)
      modifies this
      ensures content == Saved(old(content), project, h)
      ensures project == old(project) && timers == old(timers)
    {
      content := Serializer.Serialize(content, Serializer.Context(project, h.formatHours, h.today));
    }

    /** `refreshProjectView`: the text is read again, replacing the
        project, and then saved. */
    method Refresh(h: Host)
      modifies this
      ensures project == Loaded(old(content), h)
      ensures content == Saved(old(content), project, h)
      ensures timers == old(timers)
    {
      project := Parser.ParseDocument(content, h.env, h.clock, h.stamp);
      Save(h);
    }

    // ------------------------------------------------------------ sections

    /** addLevel2Section: a heading with `Time: 0` and an unused palette
        colour (`draw` standing for the random pick) is appended to the
        text, and the view is refreshed, which reads the project back from
        the text. The entry the handler also puts in the section map is not
        written here: the refresh's parse starts from an empty map and
        replaces it before anything reads it. */
    method AddSection(title: string, draw: nat, h: Host)
      modifies this
      ensures var text := Edits.SectionAppended(old(content), title, Edits.UnusedColor(old(project).sections, draw));
        && project == Loaded(text, h)
        && content == Saved(text, project, h)
      ensures timers == old(timers)
    {
      var color := Edits.UnusedColor(project.sections, draw);
      content := Edits.SectionAppended(content, title, color);
      Refresh(h);
    }

    /** addLevel3Section: when a line trims to `## parent`, the subsection
        template goes in before the next section line, the subsection is
        entered in the map with a variant of the parent's colour, and the
        view is refreshed; otherwise nothing happens. */
    method AddSubsection(title: string, parent: string, variants: string -> seq<string>, h: Host)
      requires forall b :: |variants(b)| == 10
      modifies this
      ensures var lines := SplitLines(old(content));
        if Edits.FindFrom(lines, 0, Edits.Trimmed("## " + parent)) < |lines| then
          var color := Edits.SubsectionColor(old(project).sections, parent, variants);
          var text := JoinLines(Edits.SubsectionAdded(lines, title, parent, color));
          project == Loaded(text, h) && content == Saved(text, project, h)
        else
          project == old(project) && content == old(content)
      ensures timers == old(timers)
    {
      var lines := SplitLines(content);
      var idx := Edits.Find(lines, 0, Edits.Trimmed("## " + parent));
      if idx < |lines| {
        var color := Edits.SubsectionColor(project.sections, parent, variants);
        var added := Edits.AddSubsection(lines, title, parent, color);
        content := JoinLines(added);
        project := project.(sections := Edits.AddSubsectionEntry(project.sections, parent, title, color));
        Refresh(h);
      }
    }

    /** updateSectionTitle at level 2. The title editor calls it with a
        trimmed, non-empty title that differs from the old one, for a
        section the map holds. The heading line and the map key are
        renamed, and the text is saved. */
    method RenameSection(oldT: string, newT: string, h: Host)
      requires newT != "" && Trim(newT) == newT && newT != oldT
      requires Has(project.sections, oldT)
      modifies this
      ensures var p := old(project).(sections := Edits.RenameKey(old(project).sections, oldT, newT));
        && project == p
        && content == Saved(JoinLines(Edits.SectionRenamed(SplitLines(old(content)), oldT, newT)), p, h)
      ensures Get(project.sections, newT) == Get(old(project).sections, oldT)
      ensures !Has(project.sections, oldT)
      ensures timers == old(timers)
    {
      Edits.RenameKeyMoves(project.sections, oldT, newT);
      var lines := Edits.RenameSection(SplitLines(content), oldT, newT);
      project := project.(sections := Edits.RenameKey(project.sections, oldT, newT));
      content := JoinLines(lines);
      Save(h);
    }

    /** updateSectionTitle at level 3, for a subsection of `parent` the map
        holds: the heading line inside the parent's section and the key in
        the parent's map are renamed, and the text is saved. */
    method RenameSubsection(parent: string, oldT: string, newT: string, h: Host)
      requires newT != "" && Trim(newT) == newT && newT != oldT
      requires HasSubsection(project, parent, oldT)
      modifies this
      ensures var p := old(project).(sections := Edits.RenameSubsectionEntry(old(project).sections, parent, oldT, newT));
        && project == p
        && content == Saved(JoinLines(Edits.SubsectionRenamed(SplitLines(old(content)), parent, oldT, newT)), p, h)
      ensures HasSubsection(project, parent, newT) && !HasSubsection(project, parent, oldT)
      ensures timers == old(timers)
    {
      Edits.RenameSubsectionKeepsOthers(project.sections, parent, oldT, newT);
      var lines := Edits.RenameSubsection(SplitLines(content), parent, oldT, newT);
      project := project.(sections := Edits.RenameSubsectionEntry(project.sections, parent, oldT, newT));
      content := JoinLines(lines);
      Save(h);
    }

    /** deleteSection at level 2, once `confirmed`: the section leaves the
        map; when a line trims to `## title`, the lines from it to the next
        section line leave the text; then the text is saved. */
    method DeleteSection(title: string, confirmed: bool, h: Host)
      modifies this
      ensures !confirmed ==> project == old(project) && content == old(content)
      ensures confirmed ==>
        var p := old(project).(sections := Remove(old(project).sections, title));
        var lines := SplitLines(old(content));
        var text := if Edits.FindFrom(lines, 0, Edits.Trimmed("## " + title)) < |lines|
                    then JoinLines(Edits.SectionDeleted(lines, title)) else old(content);
        && project == p
        && content == Saved(text, p, h)
        && !Has(project.sections, title)
      ensures timers == old(timers)
    {
      if confirmed {
        RemoveGet(project.sections, title, title);
        project := project.(sections := Remove(project.sections, title));
        var lines := SplitLines(content);
        var idx := Edits.Find(lines, 0, Edits.Trimmed("## " + title));
        if idx < |lines| {
          var cut := Edits.DeleteSection(lines, title);
          content := JoinLines(cut);
        }
        Save(h);
      }
    }

    /** deleteSection at level 3, once `confirmed`: the subsection leaves
        its parent's map; when a line trims to `### title`, the lines from
        it to the next line starting with `#` leave the text; then the text
        is saved. */
    method DeleteSubsection(parent: string, title: string, confirmed: bool, h: Host)
      requires Has(project.sections, parent)
      modifies this
      ensures !confirmed ==> project == old(project) && content == old(content)
      ensures confirmed ==>
        var p := old(project).(sections := Edits.RemoveSubsectionEntry(old(project).sections, parent, title));
        var lines := SplitLines(old(content));
        var text := if Edits.FindFrom(lines, 0, Edits.Trimmed("### " + title)) < |lines|
                    then JoinLines(Edits.SubsectionDeleted(lines, title)) else old(content);
        && project == p
        && content == Saved(text, p, h)
        && !HasSubsection(project, parent, title)
      ensures timers == old(timers)
    {
      if confirmed {
        Edits.RemoveSubsectionKeepsOthers(project.sections, parent, title);
        project := project.(sections := Edits.RemoveSubsectionEntry(project.sections, parent, title));
        var lines := SplitLines(content);
        var idx := Edits.Find(lines, 0, Edits.Trimmed("### " + title));
        if idx < |lines| {
          var cut := Edits.DeleteSubsection(lines, title);
          content := JoinLines(cut);
        }
        Save(h);
      }
    }

    // ------------------------------------------------------------ notes

    /** The notes of a subsection the map holds. */
    function NotesOf(l2: string, l3: string): seq<NoteItem>
      requires HasSubsection(project, l2, l3)
      reads this
    {
      Get(Get(project.sections, l2).value.subsections, l3).value.oldNotes
    }

    /** The new-card editor losing focus: a non-empty trimmed text becomes
        a card in front of the migrated list, and the text is saved. The
        board keeps the names it was rendered with; when the map no longer
        holds that subsection (it was renamed or deleted since), reading
        its notes throws a TypeError before anything is written, whether
        the text is empty or not. */
    method AddNote(l2: string, l3: string, raw: string, status: string, id: int, timestamp: string, h: Host)
      returns (r: Result<(), string>)
      modifies this
      ensures !old(HasSubsection(project, l2, l3)) ==>
        r == Err("TypeError") && project == old(project) && content == old(content)
      ensures old(HasSubsection(project, l2, l3)) ==>
        && r == Ok(())
        && if Trim(raw) == "" then project == old(project) && content == old(content)
           else
             var card := Note(Trim(raw), timestamp, status, id);
             var p := Parser.SetNotes(old(project), l2, l3, WithNewCard(old(NotesOf(l2, l3)), card, h.clock, h.stamp));
             project == p && content == Saved(old(content), p, h)
      ensures timers == old(timers)
    {
      if !HasSubsection(project, l2, l3) {
        return Err("TypeError");
      }
      var text := Trim(raw);
      if text != "" {
        var notes := WithNewCard(NotesOf(l2, l3), Note(text, timestamp, status, id), h.clock, h.stamp);
        project := Parser.SetNotes(project, l2, l3, notes);
        Save(h);
      }
      r := Ok(());
    }

    /** A card's editor losing focus: a non-empty trimmed text other than
        the card's `current` one goes into the first card with `id`, and
        the text is saved; without such a card nothing changes. Only then
        is the map read, and a subsection it no longer holds throws a
        TypeError before anything is written. */
    method EditNote(l2: string, l3: string, id: int, raw: string, current: string, h: Host)
      returns (r: Result<(), string>)
      modifies this
      ensures var newText := Trim(raw);
        if newText == "" || newText == current then
          r == Ok(()) && project == old(project) && content == old(content)
        else if !old(HasSubsection(project, l2, l3)) then
          r == Err("TypeError") && project == old(project) && content == old(content)
        else if FindId(old(NotesOf(l2, l3)), id) < |old(NotesOf(l2, l3))| then
          var p := Parser.SetNotes(old(project), l2, l3, EditText(old(NotesOf(l2, l3)), id, newText));
          r == Ok(()) && project == p && content == Saved(old(content), p, h)
        else
          r == Ok(()) && project == old(project) && content == old(content)
      ensures timers == old(timers)
    {
      var newText := Trim(raw);
      r := Ok(());
      if newText != "" && newText != current {
        if !HasSubsection(project, l2, l3) {
          return Err("TypeError");
        }
        var notes := NotesOf(l2, l3);
        if FindId(notes, id) < |notes| {
          project := Parser.SetNotes(project, l2, l3, EditText(notes, id, newText));
          Save(h);
        }
      }
    }

    /** A card's delete button, once `confirmed`: every card with `id`
        leaves the list, and the text is saved. A subsection the map no
        longer holds throws a TypeError before anything is written. */
    method DeleteNote(l2: string, l3: string, id: int, confirmed: bool, h: Host)
      returns (r: Result<(), string>)
      modifies this
      ensures !confirmed ==> r == Ok(()) && project == old(project) && content == old(content)
      ensures confirmed && !old(HasSubsection(project, l2, l3)) ==>
        r == Err("TypeError") && project == old(project) && content == old(content)
      ensures confirmed && old(HasSubsection(project, l2, l3)) ==>
        var p := Parser.SetNotes(old(project), l2, l3, WithoutId(old(NotesOf(l2, l3)), id));
        r == Ok(()) && project == p && content == Saved(old(content), p, h)
      ensures timers == old(timers)
    {
      r := Ok(());
      if confirmed {
        if !HasSubsection(project, l2, l3) {
          return Err("TypeError");
        }
        project := Parser.SetNotes(project, l2, l3, WithoutId(NotesOf(l2, l3), id));
        Save(h);
      }
    }

    // ------------------------------------------------------------ timers

    /** createTimerSection: a new widget at 0, not running. */
    method AddTimer(l2: string, l3: string) returns (i: nat)
      requires Valid()
      modifies this
      ensures Valid()
      ensures i == |old(timers).clocks|
      ensures timers == old(timers).(clocks := old(timers).clocks + [Timers.Clock(l2, l3, 0, false)])
      ensures project == old(project) && content == old(content)
    {
      i := |timers.clocks|;
      timers := timers.(clocks := timers.clocks + [Timers.Clock(l2, l3, 0, false)]);
    }

    /** The start button: the running timer, if any, stops without saving,
        and this one runs. */
    method Start(i: nat)
      requires Valid() && i < |timers.clocks|
      modifies this
      ensures Valid()
      ensures timers == Timers.Started(old(timers), i)
      ensures timers.active == Some(i)
      ensures project == old(project) && content == old(content)
    {
      Timers.StartedSingle(timers, i);
      timers := Timers.Started(timers, i);
    }

    /** The pause button, enabled only while its timer runs: the timer
        stops, no timer is active, and the text is saved. */
    method Pause(i: nat, h: Host)
      requires Valid() && i < |timers.clocks| && timers.clocks[i].running
      modifies this
      ensures Valid()
      ensures timers == Timers.Paused(old(timers), i)
      ensures project == old(project) && content == Saved(old(content), project, h)
    {
      Timers.PausedSingle(timers, i);
      timers := Timers.Paused(timers, i);
      Save(h);
    }

    /** The reset button: the counter goes back to 0; a running timer stops,
        stops being active, and the text is saved. */
    method Reset(i: nat, h: Host)
      requires Valid() && i < |timers.clocks|
      modifies this
      ensures Valid()
      ensures timers == Timers.Reset(old(timers), i)
      ensures project == old(project)
      ensures content == if old(timers).clocks[i].running then Saved(old(content), project, h) else old(content)
    {
      var wasRunning := timers.clocks[i].running;
      Timers.ResetSingle(timers, i);
      timers := Timers.Reset(timers, i);
      if wasRunning {
        Save(h);
      }
    }

    /** One second of a running timer: the counters go up by one, and at
        every 900 seconds the timer clicks its own pause button, which
        saves the text. A timer keeps the names it was made with; when the
        map no longer holds its subsection, the widget's own count has
        already gone up when reading the subsection throws a TypeError,
        and the timer keeps running. */
    method Tick(i: nat, h: Host) returns (r: Result<(), string>)
      requires Valid() && i < |timers.clocks| && timers.clocks[i].running
      modifies this
      ensures Valid()
      ensures !old(HasSubsection(project, timers.clocks[i].l2, timers.clocks[i].l3)) ==>
        && r == Err("TypeError") && timers == Timers.Counted(old(timers), i)
        && project == old(project) && content == old(content)
      ensures old(HasSubsection(project, timers.clocks[i].l2, timers.clocks[i].l3)) ==>
        && r == Ok(())
        && timers == Timers.TickedClock(old(timers), i)
        && project == Timers.Ticked(old(project), old(timers).clocks[i].l2, old(timers).clocks[i].l3, h.today)
        && project.totalTime == old(project).totalTime + 1
        && content == if timers.clocks[i].running then old(content) else Saved(old(content), project, h)
    {
      var c := timers.clocks[i];
      if !HasSubsection(project, c.l2, c.l3) {
        timers := Timers.Counted(timers, i);
        return Err("TypeError");
      }
      Timers.TickedSingle(timers, i);
      timers := Timers.TickedClock(timers, i);
      project := Timers.Ticked(project, c.l2, c.l3, h.today);
      r := Ok(());
      if !timers.clocks[i].running {
        Save(h);
      }
    }
  }
}
