/** The subsection timers. Each timer widget counts its own seconds while it
    runs; `activeTimer` holds the stop function of the one that runs, so
    starting a timer first stops the one before it. Every tick adds one
    second to the subsection, its section, the project and today's entry of
    the daily-work map, and every 900 seconds the timer pauses itself. */
module Timers {
  import opened Wrappers
  import opened JsObject
  import opened Model

  /** One timer widget: the subsection it counts for, its `sec` counter and
      its `running` flag. */
  datatype Clock = Clock(l2: string, l3: string, sec: nat, running: bool)

  /** The timer widgets of the page, and the one whose stop function
      `activeTimer` holds, if any. */
  datatype Timers = Timers(clocks: seq<Clock>, active: Option<nat>)

  /** The hand-off rule: the active timer runs, and no other does. */
  predicate SingleActive(t: Timers) {
    && (t.active.Some? ==> t.active.value < |t.clocks| && t.clocks[t.active.value].running)
    && (forall i :: 0 <= i < |t.clocks| && t.clocks[i].running ==> t.active == Some(i))
  }

  /** Under the hand-off rule at most one timer runs. */
  lemma AtMostOneRuns(t: Timers, i: nat, j: nat)
    requires SingleActive(t)
    requires i < |t.clocks| && j < |t.clocks| && t.clocks[i].running && t.clocks[j].running
    ensures i == j
  {
    assert t.active == Some(i) && t.active == Some(j);
  }

  /** `stop()`: the interval is cleared. */
  function Halt(c: Clock): Clock {
    c.(running := false)
  }

  /** `start.onclick`: nothing when already running; otherwise the active
      timer is stopped, this one runs and becomes the active one. */
  function Started(t: Timers, i: nat): Timers
    requires i < |t.clocks|
  {
    if t.clocks[i].running then t
    else
      var cs := if t.active.Some? && t.active.value < |t.clocks|
                then t.clocks[t.active.value := Halt(t.clocks[t.active.value])]
                else t.clocks;
      Timers(cs[i := cs[i].(running := true)], Some(i))
  }

  /** `pause.onclick`: stop, and no timer is active. */
  function Paused(t: Timers, i: nat): Timers
    requires i < |t.clocks|
  {
    Timers(t.clocks[i := Halt(t.clocks[i])], None)
  }

  /** `reset.onclick`: a running timer gives up being active, then it is
      stopped and its counter goes back to 0. */
  function Reset(t: Timers, i: nat): Timers
    requires i < |t.clocks|
  {
    Timers(t.clocks[i := t.clocks[i].(sec := 0, running := false)],
           if t.clocks[i].running then None else t.active)
  }

  /** One interval tick of timer `i`: its counter goes up by one, and at
      every multiple of 900 seconds it clicks its own pause button. */
  function TickedClock(t: Timers, i: nat): Timers
    requires i < |t.clocks|
  {
    var t' := Counted(t, i);
    if t'.clocks[i].sec % 900 == 0 then Paused(t', i) else t'
  }

  /** The first statement of a tick alone: the widget's own count goes up
      by one and nothing else about the timers changes. */
  function Counted(t: Timers, i: nat): (t': Timers)
    requires i < |t.clocks|
    ensures |t'.clocks| == |t.clocks| && t'.active == t.active
    ensures t'.clocks[i] == t.clocks[i].(sec := t.clocks[i].sec + 1)
    ensures forall j :: 0 <= j < |t.clocks| && j != i ==> t'.clocks[j] == t.clocks[j]
    ensures SingleActive(t) ==> SingleActive(t')
  {
    t.(clocks := t.clocks[i := t.clocks[i].(sec := t.clocks[i].sec + 1)])
  }

  /** Starting a timer keeps the rule: afterwards it is the only one running. */
  lemma StartedSingle(t: Timers, i: nat)
    requires SingleActive(t) && i < |t.clocks|
    ensures var t' := Started(t, i);
      && SingleActive(t')
      && t'.active == Some(i)
      && (forall j :: 0 <= j < |t'.clocks| ==> (t'.clocks[j].running <==> j == i))
      && (forall j :: 0 <= j < |t'.clocks| ==> t'.clocks[j].sec == t.clocks[j].sec)
  {
  }

  /** Pausing the running timer leaves none running. The pause button is
      only enabled while its timer runs. */
  lemma PausedSingle(t: Timers, i: nat)
    requires SingleActive(t) && i < |t.clocks| && t.clocks[i].running
    ensures var t' := Paused(t, i);
      && SingleActive(t')
      && (forall j :: 0 <= j < |t'.clocks| ==> !t'.clocks[j].running)
  {
  }

  lemma ResetSingle(t: Timers, i: nat)
    requires SingleActive(t) && i < |t.clocks|
    ensures var t' := Reset(t, i);
      && SingleActive(t')
      && t'.clocks[i].sec == 0 && !t'.clocks[i].running
      && (forall j :: 0 <= j < |t'.clocks| && j != i ==> t'.clocks[j] == t.clocks[j])
  {
  }

  /** A tick counts one second for the running timer and keeps the rule; it
      goes on running unless it has just reached a multiple of 900 seconds. */
  lemma TickedSingle(t: Timers, i: nat)
    requires SingleActive(t) && i < |t.clocks| && t.clocks[i].running
    ensures var t' := TickedClock(t, i);
      && SingleActive(t')
      && t'.clocks[i].sec == t.clocks[i].sec + 1
      && (t'.clocks[i].running <==> t'.clocks[i].sec % 900 != 0)
      && (forall j :: 0 <= j < |t'.clocks| && j != i ==> t'.clocks[j] == t.clocks[j])
  {
  }

  // ---------------------------------------------------------------- the counters


  /** The tick's update of one section: its total and the subsection's go
      up by one. */
  function TickedSection(sec: Section, l3: string): Section
    requires Has(sec.subsections, l3)
  {
    Section(sec.totalTime + 1, sec.color,
            Put(sec.subsections, l3, Bumped(Get(sec.subsections, l3).value)))
  }

  /** `subsection.totalTime++`. */
  function Bumped(sub: Subsection): Subsection {
    Subsection(sub.totalTime + 1, sub.color, sub.oldNotes)
  }

  /** The tick body's counter updates: the subsection's, the section's and
      the project's totals go up by one, and so does today's daily-work
      entry, `(dailyWorkTime[today] || 0) + 1`. */
  function Ticked(p: Project, l2: string, l3: string, today: string): Project
    requires HasSubsection(p, l2, l3)
  {
    Project(Put(p.sections, l2, TickedSection(Get(p.sections, l2).value, l3)),
            p.totalTime + 1,
            Put(p.dailyWork, today, Get(p.dailyWork, today).GetOr(0) + 1),
            p.timeline)
  }

  /** In the section, the subsection's total and the section's go up by
      one, and nothing else of either changes. */
  lemma TickedSectionAddsOne(sec: Section, l3: string)
    requires Has(sec.subsections, l3)
    ensures var sec' := TickedSection(sec, l3);
      && Get(sec'.subsections, l3) == Some(Bumped(Get(sec.subsections, l3).value))
      && sec'.totalTime == sec.totalTime + 1
      && sec'.color == sec.color
  {
  }

  /** The section's other subsections, and the order of all, stay. */
  lemma TickedSectionKeepsOthers(sec: Section, l3: string)
    requires Has(sec.subsections, l3)
    ensures var sec' := TickedSection(sec, l3);
      && (forall k :: k != l3 ==> Get(sec'.subsections, k) == Get(sec.subsections, k))
      && Keys(sec'.subsections) == Keys(sec.subsections)
  {
    PutKeys(sec.subsections, l3, Bumped(Get(sec.subsections, l3).value));
  }

  /** A tick writes the ticking section back under its own key: the other
      sections and the key order stay. */
  lemma TickKeepsSections(p: Project, l2: string, l3: string, today: string)
    requires HasSubsection(p, l2, l3)
    ensures var s' := Ticked(p, l2, l3, today).sections;
      && Get(s', l2) == Some(TickedSection(Get(p.sections, l2).value, l3))
      && (forall k :: k != l2 ==> Get(s', k) == Get(p.sections, k))
      && Keys(s') == Keys(p.sections)
  {
    var sec' := TickedSection(Get(p.sections, l2).value, l3);
    PutKeys(p.sections, l2, sec');
    assert Ticked(p, l2, l3, today).sections == Put(p.sections, l2, sec');
  }

  /** A tick adds one second to today's entry, created at 0 when missing,
      and to no other date. */
  lemma TickCountsToday(p: Project, l2: string, l3: string, today: string)
    requires HasSubsection(p, l2, l3)
    ensures var d' := Ticked(p, l2, l3, today).dailyWork;
      && Get(d', today) == Some(Get(p.dailyWork, today).GetOr(0) + 1)
      && (forall d :: d != today ==> Get(d', d) == Get(p.dailyWork, d))
  {
    assert Ticked(p, l2, l3, today).dailyWork == Put(p.dailyWork, today, Get(p.dailyWork, today).GetOr(0) + 1);
  }

  /** A tick adds exactly one second to the project total and to today's
      entry, updates the ticking section as above, and changes nothing
      else: no other section or date, no key order, not the timeline. */
  lemma TickAddsOne(p: Project, l2: string, l3: string, today: string)
    requires HasSubsection(p, l2, l3)
    ensures var p' := Ticked(p, l2, l3, today);
      && HasSubsection(p', l2, l3)
      && Get(p'.sections, l2) == Some(TickedSection(Get(p.sections, l2).value, l3))
      && p'.totalTime == p.totalTime + 1
      && Get(p'.dailyWork, today) == Some(Get(p.dailyWork, today).GetOr(0) + 1)
      && (forall d :: d != today ==> Get(p'.dailyWork, d) == Get(p.dailyWork, d))
      && (forall k :: k != l2 ==> Get(p'.sections, k) == Get(p.sections, k))
      && Keys(p'.sections) == Keys(p.sections)
      && p'.timeline == p.timeline
  {
    var sec := Get(p.sections, l2).value;
    TickedSectionAddsOne(sec, l3);
    TickKeepsSections(p, l2, l3, today);
    TickCountsToday(p, l2, l3, today);
    assert Has(TickedSection(sec, l3).subsections, l3);
  }
}
