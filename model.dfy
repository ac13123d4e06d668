/** The tracker's in-memory project: what the markdown parser builds and the
    serializer writes back. JavaScript objects used as dictionaries are
    insertion-ordered entry lists; a colour or a date that JavaScript would
    hold as null, undefined or '' is the empty string here. */
module Model {
  import opened JsObject

  /** A kanban card. */
  datatype Note = Note(text: string, timestamp: string, status: string, id: int)

  /** An entry of a subsection's `oldNotes` list: a `- [status] ...` line as
      read from the file, or a card once migrated. */
  datatype NoteItem = Raw(line: string) | Structured(note: Note)

  /** A `###` subsection. */
  datatype Subsection = Subsection(totalTime: int, color: string, oldNotes: seq<NoteItem>)

  /** A `##` section and its subsections in document order. */
  datatype Section = Section(totalTime: int, color: string, subsections: Entries<Subsection>)

  datatype Event = Event(date: string, note: string, id: int)

  datatype Timeline = Timeline(startDate: string, endDate: string, events: seq<Event>)

  /** Section map, project total in seconds, seconds worked per day, timeline. */
  datatype Project = Project(sections: Entries<Section>, totalTime: int, dailyWork: Entries<int>, timeline: Timeline)

  const EmptyTimeline := Timeline("", "", [])

  const EmptyProject := Project([], 0, [], EmptyTimeline)

  /** `projectData[l2][l3]` is defined. */
  predicate HasSubsection(p: Project, l2: string, l3: string) {
    Has(p.sections, l2) && Has(Get(p.sections, l2).value.subsections, l3)
  }
}
