# Project manager: the markdown round trip

This project models the core of a single-page project manager (`script.js`). The tool keeps a project as one markdown file:

- a `# ` title
- a project `Time:` total
- a `Daily Work:` block of hours per date
- a timeline block with start, end and events
- `## ` sections and `### ` subsections, each with its own `Time:` and `Color:` lines
- a `**Notes:**` block of kanban cards, `- [status] text (timestamp)`, under each subsection

The model covers six parts.

- **Parser** (`parseAndRenderMarkdown`). A single-cursor scan over the lines rebuilds the project:
  - the total, the daily-work map and the timeline
  - an insertion-ordered map from section to subsection to time, colour and notes

  It has a five-line look-ahead after headings. Its inner loops over `Daily Work:`, `Timeline Events:` and `**Notes:**` blocks step back with `i--`. After the scan, every board's note lines are migrated into cards.
- **Serializer** (`updateMarkdownContent`). It rewrites the file from its own lines:
  - headings and unrecognised lines are copied verbatim
  - metadata lines are dropped and written again from the project
  - each `###` body is regenerated up to the next line starting with `#`
  - the result is trimmed and given one final newline
- **Note migrator** (`convertNotesToKanban`). The two note regexes are written out as matchers, with the lazy and greedy back-tracking the patterns imply.
- **Structural edits** on the line array and the map:
  - adding a section or a subsection
  - renaming a heading
  - deleting a section or a subsection
  - adding, editing and deleting a note card by id
- **Timers**: the tick body's counters and the rule that one timer at a time is active.
- **Time formatters** `formatTime` and `formatTimeDisplay`.

The files, one module each:

- `text.dfy` (`Text`): JavaScript string operations: `trim`, `split`/`join`, `parseInt(...) || 0`, `String(n)`.
- `jsobject.dfy` (`JsObject`): a JavaScript object as an insertion-ordered list of entries, with `obj[k]`, `obj[k] = v` and `delete obj[k]`.
- `model.dfy` (`Model`): the project, sections, subsections, notes and events.
- `notes.dfy` (`Notes`): the note matchers, the migrator, the card line, and the card edits by id.
- `format.dfy` (`Format`): the two formatters, with read-back functions for their output.
- `jssort.dfy` (`JsSort`): JavaScript's default string order and the descending sort of the daily-work entries.
- `lines.dfy` (`Lines`): the shared "advance while the line matches" loops.
- `parser.dfy` (`Parser`): the scan as a step function with a method that implements it, and the as-written scan of the finding below.
- `serializer.dfy` (`Serializer`): the main loop as a step function, with methods that build the text.
- `edits.dfy` (`Edits`): the line-array edits, the colour choice and the map edits.
- `timer.dfy` (`Timers`): the timer widgets' state and the tick's counter updates.
- `app.dfy` (`App`): the application state as a class `Tracker`. It holds the file text, the project and the timer widgets. Its methods are the handlers that change them and then save or refresh.

Some inputs come from outside: the clock, the locale date string, the random colour draw, and the floating-point conversions between hours and seconds. They are parameters:

- `Parser.Env.toSeconds` stands for `parseFloat(h) * 3600`.
- `Serializer.Context.formatHours` stands for `(s / 3600).toFixed(1)`.
- `clock(i)` is `Date.now()` at element `i` of a migrated list.
- `stamp(i)` is `new Date().toLocaleString()`.
- `draw` is the random index.

In a few places the code does something other than what the tool is commonly taken to do. The model follows the code:

- `Timeline Start: not set` is stored as the string `not set`, not as an absent date.
- Daily-work hours are not rounded.
- Note lines are stored trimmed, not verbatim.
- The daily-work block is ordered by the whole `date,seconds` string, not by date alone.
- A notes block can abort a load (see Findings), although parsing is described as never failing.

## Model

| member | source | states |
|---|---|---|
| Text.Trim | script.js:1103 | the result has no white space at either end and is no longer than the input |
| Text.TrimSlice | script.js:1103 | trimming removes only white space, and only from the two ends |
| Text.TrimFixed | script.js:1103 | a string without white space at either end is its own trim |
| Text.TrimCutsEnd | script.js:1103 | trimming a string that starts with a non-blank keeps a prefix holding every non-blank character |
| Text.Split | script.js:1095 | `split` returns at least one piece, and no piece contains the separator |
| Text.JoinSplit | script.js:1009 | joining the pieces of a split at the same separator gives back the original string |
| Text.SplitJoin | script.js:1039 | splitting the join of separator-free pieces gives back the pieces |
| Text.JoinSplitLines | script.js:1009 | `lines.join('\n')` after `split('\n')` gives back the file text |
| Text.SplitJoinLines | script.js:1039 | `split('\n')` after `join('\n')` gives back the line array |
| Text.NatToString | script.js:1212 | `String(n)` is a non-empty run of decimal digits without a leading zero |
| Text.IntToString | script.js:1212 | `String(n)` for any integer: a `-` before the digits of a negative value; read back by Text.ParseIntOfIntToString |
| Text.DigitRun | script.js:1104 | the longest prefix of digits in the radix |
| Text.ParseIntOr0 | script.js:1104 | `parseInt(s) \|\| 0` without a radix: leading blanks, a sign, `0x` for base 16, the longest digit prefix, and 0 when there is none; its behaviour is stated by Text.ParseIntDigits, Text.ParseIntNonNumeric, Text.ParseMinus and Text.ParseIntOfIntToString |
| Text.ParseIntOfIntToString | script.js:1104 | `parseInt` of `String(n)` gives back `n`, negative values included: written totals read back |
| Text.ParseIntDigits | script.js:1104 | `parseInt` reads the leading decimal digits and ignores what follows a non-digit |
| Text.ParseIntNonNumeric | script.js:1104 | text that does not start with a digit or sign after its blanks gives 0, as `parseInt(...) \|\| 0` does |
| Text.ParseMinus | script.js:1104 | a `-` before a numeral negates the value read |
| JsObject.Keys | script.js:1145 | the keys of an object, in insertion order |
| JsObject.IndexOf | script.js:1145 | the position of the first entry with the key, or the length when absent |
| JsObject.Get | script.js:1155 | `obj[k]` is defined exactly when the key is present |
| JsObject.Put | script.js:1145 | after `obj[k] = v`, `obj[k]` is `v` and every other key reads as before |
| JsObject.PutKeys | script.js:1145 | assigning to a present key keeps the key order, a new key goes last, and the keys stay distinct |
| JsObject.Remove | script.js:1045 | `delete obj[k]` leaves only entries of other keys, each one taken from the object |
| JsObject.RemoveGet | script.js:1045 | after `delete obj[k]`, `obj[k]` is undefined and every other key reads as before |
| JsObject.RemoveUnique | script.js:1045 | deleting a key keeps the keys distinct |
| Notes.StatusHead | script.js:669 | `^-\s*\[([^\]]+)\]` gives a non-empty bracket-free status, found right after the dash and blanks |
| Notes.StampAt | script.js:669 | `\s*\(([^)]+)\)$` gives a non-empty timestamp without `)` that the line ends with in parentheses |
| Notes.LazyText | script.js:669 | the lazy group `(.+?)` gives non-empty text without a line terminator, followed by a timestamp the line ends with |
| Notes.MatchStamped | script.js:669 | a match of the stamped pattern has the head's status, non-empty single-line text and a timestamp the line ends with |
| Notes.PlainTail | script.js:679 | `\s*(.+)$` gives non-empty text without a line terminator |
| Notes.ConvertItem | script.js:666-689 | a card and a line neither pattern accepts are returned unchanged; a matched line becomes a card with id `Date.now() + i` |
| Notes.Migrate | script.js:659-691 | the length is kept; a list starting with a card is returned unchanged; cards and unmatched lines stay in place; with a non-decreasing clock the new ids increase strictly |
| Notes.MigrateIdempotent | script.js:662-664 | migrating a migrated list changes nothing, whatever the clock |
| Notes.RenderNote | script.js:1262-1266 | every saved note line starts with `- [` |
| Notes.LazySkipsText | script.js:669 | on a saved card line the lazy group stops exactly at the end of the card text |
| Notes.StampedTailOfRendered | script.js:669 | the text-and-timestamp tail of a saved card line reads back as that text and timestamp |
| Notes.StatusHeadOfRendered | script.js:669 | the head of a saved card line reads back as its status |
| Notes.NoteRoundTrip | script.js:669-677 | a card with non-empty trimmed single-line text without `(`, a non-empty status without `]` and a non-empty timestamp without `)` is saved and migrated back to the same card with id `clock(i) + i` |
| Notes.NotesRoundTrip | script.js:666-690 | a list of such cards, saved line by line and migrated, comes back in order with fresh ids |
| Notes.FindId | script.js:834 | `notes.find(n => n.id === id)`: the first card carrying the id, or none |
| Notes.FindIdIs | script.js:834 | the first index holding the id is what the search returns |
| Notes.EditText | script.js:833-836 | the first card carrying the id gets the new text, and without one the list is unchanged; the rest is stated by Notes.EditTextKeepsIds |
| Notes.EditTextKeepsIds | script.js:833-836 | an edit changes only the text of the first card with the id; lengths, kinds, ids, statuses, timestamps and every lookup by id stay |
| Notes.WithoutId | script.js:862 | no card with the id remains, and every other item remains |
| Notes.WithoutIdAppend | script.js:862 | the filter keeps order and multiplicity: filtering a join is joining the filtered parts |
| Notes.WithoutIdOne | script.js:862 | one item is kept exactly when it does not carry the id |
| Notes.WithoutAbsentId | script.js:862 | deleting an id no card carries changes nothing |
| Notes.WithNewCard | script.js:770-773 | the new card is first and found by its id, and after it comes the migrated old list |
| Format.JsRem | script.js:182 | JavaScript's `%`: the Euclidean remainder on non-negative values, never positive on negative values |
| Format.Pad2 | script.js:187 | `padStart(2, '0')` keeps a long string and left-fills a short one with zeros |
| Format.FormatTime | script.js:186-187 | `formatTime`: floored hours, then minutes and seconds from JavaScript's remainder, each padded to two digits and joined by `:`; read back by Format.FormatTimeRoundTrip |
| Format.FormatTimeDisplay | script.js:181-184 | `formatTimeDisplay`: `Xh Ym` from an hour on, `Ym` from a minute on, `Ss` below; its cases are Format.DisplayHours, Format.DisplayMinutes, Format.DisplaySeconds and Format.FormatTimeDisplayNegative, and its reading back is Format.FormatTimeDisplayRoundTrip |
| Format.HoursMinutesSeconds | script.js:182 | minutes and seconds are below 60, and the three fields add back up to the total |
| Format.FormatTimeRoundTrip | script.js:186-187 | reading the `hh:mm:ss` face back gives the seconds it was made from |
| Format.FormatTimeDisplayRoundTrip | script.js:181-184 | reading the badge back gives the seconds, rounded down to the minute from a minute on |
| Format.DisplayHours | script.js:183 | from an hour on, the badge is `Xh Ym` and stands for the seconds rounded down to the minute |
| Format.DisplayMinutes | script.js:183 | from a minute to an hour the badge is `Ym` |
| Format.DisplaySeconds | script.js:183 | below a minute the badge is `Ss` |
| Format.FormatTimeDisplayNegative | script.js:181-184 | a negative total shows only its seconds field, `String(s % 60)` with JavaScript's remainder, and an `s`: −61 shows `-1s`, −60 shows `0s` |
| JsSort.BelowIrreflexive | script.js:1217 | no string sorts before itself |
| JsSort.BelowTotal | script.js:1217 | of two different strings one sorts before the other |
| JsSort.BelowTransitive | script.js:1217 | the string order is transitive |
| JsSort.InsertPermutes | script.js:1217 | inserting an entry adds exactly that entry |
| JsSort.InsertSorted | script.js:1217 | inserting into a descending list keeps it descending |
| JsSort.SortDescending | script.js:1217 | `sort().reverse()` on the daily-work entries, as an insertion sort by descending string key; JsSort.SortDescendingCorrect proves it sorted and a permutation |
| JsSort.SortDescendingCorrect | script.js:1217 | `sort().reverse()` orders the entries by descending `date,seconds` string and keeps the same entries |
| Lines.RunEnd | script.js:1118 | the inner loops stop at the first line the test refuses, having accepted every line before it |
| Lines.FoldRun | script.js:1118-1126 | the inner loop stops where RunEnd says and folds exactly the lines it passed over |
| Lines.Advance | script.js:1254 | the cursor stops at the first line the test refuses |
| Parser.DashKey | script.js:1119 | `^-\s*([^:]+):` gives the text between the dash's blanks and the first colon |
| Parser.MatchDaily | script.js:1119 | a daily-work match has a non-empty date without a colon and non-empty hours text |
| Parser.MatchEvent | script.js:1133 | an event match has a non-empty date without a colon and a non-empty note |
| Parser.EventLine | script.js:1133-1136 | the event line the serializer writes reads back as the same date and note |
| Parser.DailyLine | script.js:1119-1121 | the daily-work line the serializer writes reads back as the same date and hours |
| Parser.Window | script.js:1147 | a heading looks at no more than five lines after it |
| Parser.WindowTimeLast | script.js:1148 | the last `Time:` line in the window sets the total |
| Parser.WindowTimeNone | script.js:1148 | without a `Time:` line in the window the total keeps its default |
| Parser.WindowColorLast | script.js:1149 | the last `Color:` line in the window sets the colour |
| Parser.WindowColorNone | script.js:1149 | without a `Color:` line in the window the colour keeps its default |
| Parser.WindowExtend | script.js:1147-1149 | one more line of the window updates total and colour as the loop body does |
| Parser.Classify | script.js:1103-1161 | which branch of the scan a line takes, with the lengths each branch relies on |
| Parser.Step | script.js:1102-1172 | each turn of the scan moves the cursor forward |
| Parser.KeyedLastWins | script.js:1123 | in a keyed fold the last line naming a key decides its value |
| Parser.KeyedUntouched | script.js:1123 | a keyed fold leaves every key no line names unchanged |
| Parser.DailyFoldLastWins | script.js:1118-1126 | after a `Daily Work:` block a date holds the seconds of the last line naming it |
| Parser.DailyFoldUntouched | script.js:1118-1126 | a date no line of the block names keeps its value; lines that do not match change nothing |
| Parser.EventsInSplit | script.js:1132-1140 | events of a block read in two parts are those of the first part, then those of the second |
| Parser.EventLineAdds | script.js:1133-1137 | a matching event line adds exactly its event; any other line adds nothing |
| Parser.NotesInSplit | script.js:1163-1169 | note lines of two runs are collected in document order |
| Parser.TopTimeSetsTotal | script.js:1104 | a trimmed `Time:` line while no section is open sets the project total to its number, or 0 |
| Parser.OtherLinesKeepTotal | script.js:1104 | no other line changes the project total, a `Time:` line under a section included |
| Parser.ScanTotal | script.js:1102-1173 | the loaded total is the initial 0 or the number on some trimmed `Time:` line of the file |
| Parser.DailyBlock | script.js:1115-1128 | `Daily Work:` consumes every following `- ` line; each date holds the seconds of its last matching line, and other dates are untouched |
| Parser.EventsBlockAppends | script.js:1129-1142 | `Timeline Events:` consumes every following `- ` line and appends one event per matching line, in document order |
| Parser.L2HeadingOpens | script.js:1143-1150 | a `## ` line opens the section with the window's last time and colour, or 0 and no colour; other sections keep their values |
| Parser.L2HeadingKeys | script.js:1145 | a new section name goes last; a repeated one keeps its place in the key order |
| Parser.HeadingLooksFiveAhead | script.js:1147 | a heading's effect depends only on the five lines after it |
| Parser.OrphanL3Ignored | script.js:1153 | a `### ` line before any `## ` heading changes nothing |
| Parser.L3HeadingOpens | script.js:1153-1159 | a `### ` line creates the subsection empty unless it exists, keeps its notes, and takes the window's last time and colour over the existing ones; the section's own total and colour and every other subsection and section stay |
| Parser.L3HeadingKeys | script.js:1155 | a `### ` line keeps the section names and their order |
| Parser.NotesBlockReplaces | script.js:1161-1171 | a notes block collects, in order, the trimmed lines starting with `- [`, stops at a line starting with `#` or `**Notes:**`, and replaces the earlier list |
| Parser.IgnoredLine | script.js:1105-1107 | the legacy `DailyWork:` line and every other unrecognised line change nothing |
| Parser.StepConsistent | script.js:1161-1171 | each turn keeps the open section and open subsection present in the map |
| Parser.ScanConsistent | script.js:1102-1173 | over the whole scan, every notes block lands in a subsection the map holds |
| Parser.MigrateAll | script.js:1175-1186 | the pass after the scan keeps the number of sections |
| Parser.MigrateAllKeys | script.js:1175-1186 | the pass keeps the section names and their order |
| Parser.ParseMigratesNotes | script.js:1175-1186 | after a load every board's notes are migrated: migrating them again changes nothing |
| Parser.StepAsWritten | script.js:1161-1171 | the step as written moves the cursor forward when it does not throw |
| Parser.AsWrittenStep | script.js:1161-1171 | the as-written step equals the corrected one except on a notes block for a subsection the map lacks, where it throws |
| Parser.NotesLineKind | script.js:1161 | a bare `**Notes:**` line is a notes block exactly when a subsection name is current |
| Parser.SampleFailsAsWritten | script.js:1143-1171 | as written, `## A`, `### X`, `## B`, `**Notes:**` fails to load with a TypeError |
| Parser.SampleLoads | script.js:1143-1171 | with the current subsection cleared at a new section, the same text loads with sections A and B |
| Parser.StepStaleL3 | script.js:1143-1171 | a turn the source survives keeps its state equal to the corrected scan's but for a stale subsection name that names no subsection of the current section |
| Parser.ScanStaleL3 | script.js:1102-1173 | a scan the source survives ends in the corrected scan's state, but for such a stale name |
| Parser.AsWrittenAgrees | script.js:1094-1189 | every file the source loads without throwing loads to the same project under the corrected scan: the correction changes only the files the source rejects |
| Parser.LookAhead | script.js:1147-1150 | the look-ahead loop computes the window's total and colour |
| Parser.ScanDailyWork | script.js:1115-1128 | the `Daily Work:` branch with its inner loop performs the step |
| Parser.ScanEvents | script.js:1129-1142 | the `Timeline Events:` branch with its inner loop performs the step |
| Parser.ScanNotes | script.js:1161-1171 | the `**Notes:**` branch with its inner loop performs the step |
| Parser.ScanL2Heading | script.js:1143-1152 | the `## ` branch performs the step |
| Parser.ScanL3Heading | script.js:1153-1160 | the `### ` branch performs the step |
| Parser.ScanLine | script.js:1103-1114 | the metadata branches perform the step |
| Parser.MigrateBoard | script.js:1175-1186 | the pass over one section's boards migrates each board |
| Parser.MigrateBoards | script.js:1175-1186 | the pass over all sections migrates every board |
| Parser.ParseDocument | script.js:1094-1189 | the loop and the pass after it build the loaded project |
| Parser.Parse | script.js:1094-1189 | the project a file loads as: the scan from the start state, then the migration pass; Parser.ParseDocument computes it, and Parser.ScanTotal, Parser.ScanConsistent and Parser.ParseMigratesNotes state what it holds |
| Parser.ScanAsWritten | script.js:1102-1173 | the scan as the source writes it, which stops with a TypeError at a notes block for a subsection the map lacks; Parser.AsWrittenStep compares each step with the corrected one |
| Parser.ParseAsWritten | script.js:1094-1189 | the load as the source writes it, failing where the as-written scan fails; Parser.SampleFailsAsWritten gives a file it rejects |
| Serializer.KindOf | script.js:1207-1249 | which branch of the main loop a line takes, with the lengths each branch relies on |
| Serializer.DailyLines | script.js:1217-1220 | one line per daily-work entry |
| Serializer.EventLines | script.js:1230-1233 | one line per event |
| Serializer.NoteLines | script.js:1262-1267 | one line per note |
| Serializer.NextLine | script.js:1238-1274 | each turn of the main loop moves forward |
| Serializer.Piece | script.js:1207-1275 | each turn of the main loop moves forward |
| Serializer.Render | script.js:1276 | the text ends with exactly one newline, with no white space before it |
| Serializer.HeadingsAppend | script.js:1207-1275 | the heading lines of two runs are those of each, in order |
| Serializer.PieceHeadings | script.js:1207-1275 | each turn writes exactly the heading lines of the input lines it consumes |
| Serializer.WalkHeadings | script.js:1207-1275 | the loop from any line on writes the heading lines of the rest of the input, in order |
| Serializer.HeadingsKept | script.js:1207-1275 | every line starting with `#` is written back verbatim and in order, and no generated line starts with `#` |
| Serializer.TitleFirst | script.js:1211-1212 | a file whose first line is a `# ` title is written starting with that line, a blank line and `Time: <project total>` |
| Serializer.TitleWalk | script.js:1211-1212 | the loop's first three lines are the title, a blank line and the project total |
| Serializer.RenderKeepsPrefix | script.js:1276 | trimming and adding the newline keeps a prefix that ends in a non-blank |
| Serializer.ParentIs | script.js:1253 | the parent of a `###` heading is the nearest `##` heading above it |
| Serializer.ParentNone | script.js:1253 | without a `##` heading above, the parent is empty |
| Serializer.L3Body | script.js:1249-1273 | a `###` heading is kept, every line up to the next line starting with `#` is discarded, and the block of the subsection under the nearest parent is written instead |
| Serializer.SubsectionBlockEmpty | script.js:1256-1271 | a subsection the project lacks gets no block; one it has gets its time first |
| Serializer.L2Heading | script.js:1241-1247 | a `##` heading is kept, the metadata lines after it are skipped, and the section's metadata is written |
| Serializer.SectionMetaShape | script.js:1245 | a heading the project lacks gets no metadata; a section gets its time and, when set, its colour |
| Serializer.CopyLine | script.js:1274 | an unrecognised line is copied verbatim |
| Serializer.DropLine | script.js:1209 | metadata lines, the legacy `DailyWork:` line included, and blank lines before the first section are dropped |
| Serializer.DailyBlockOrder | script.js:1215-1222 | the daily-work block is written exactly when some day was worked, listing every entry once in descending order |
| Serializer.TimelineBlockShape | script.js:1225-1236 | the timeline block is written exactly when a start or end is set, with a missing one as `not set`, and events only when there are some |
| Serializer.FindParent | script.js:1253 | the backward loop finds the nearest `##` heading |
| Serializer.SerializeTitle | script.js:1211-1239 | the title branch performs the turn |
| Serializer.SerializeL2 | script.js:1241-1247 | the `##` branch performs the turn |
| Serializer.SerializeL3 | script.js:1249-1273 | the `###` branch performs the turn |
| Serializer.SerializeLine | script.js:1207-1275 | one turn of the main loop |
| Serializer.Serialize | script.js:1191-1277 | the loop and the final trim build the saved text |
| Serializer.Serialized | script.js:1191-1277 | the text `updateMarkdownContent` leaves: the main loop's lines joined and rendered; Serializer.Serialize computes it, and Serializer.HeadingsKept, Serializer.TitleFirst, Serializer.Render and the block lemmas state what it holds |
| Edits.FindFrom | script.js:1011 | `findIndex`: the first matching line from a start, or none |
| Edits.Find | script.js:1019-1024 | the search loop finds the first matching line |
| Edits.FindFromIs | script.js:1011 | the first matching index is what the search returns |
| Edits.RenameSection | script.js:1009-1012 | the level-2 rename loop performs the line rename |
| Edits.RenameSubsection | script.js:1018-1034 | the level-3 rename loops perform the line rename |
| Edits.SectionHeadingTitled | script.js:1011 | a heading written for a trimmed title is found under that title |
| Edits.SubsectionHeadingTitled | script.js:1029 | a subsection heading written for a trimmed title is found under that title and is no section line |
| Edits.SectionRenameChangesOne | script.js:1011-1012 | a level-2 rename changes only the first section line with the old title, which then carries the new one |
| Edits.SectionRenamed | script.js:1009-1012 | the level-2 rename on the lines: the first section line titled with the old name becomes `## ` and the new one; stated by Edits.SectionRenameChangesOne |
| Edits.SubsectionRenamed | script.js:1018-1034 | the level-3 rename on the lines, scoped to the parent's range; stated by Edits.SubsectionRenameScoped and Edits.SubsectionRenameFindsFirst |
| Edits.SubsectionNotSection | script.js:1028-1029 | a `### ` line never ends the parent's range |
| Edits.SubsectionRenameScoped | script.js:1018-1034 | a level-3 rename changes at most one line: the first `### oldT` between the parent's heading and the next section |
| Edits.SubsectionRenameFindsFirst | script.js:1027-1033 | the first `### oldT` line in the parent's range is the one renamed |
| Edits.Splice | script.js:1051-1056 | the splice loop performs the cut |
| Edits.DeleteSection | script.js:1049-1057 | the level-2 text delete performs the section cut |
| Edits.DeleteSubsection | script.js:1058-1066 | the level-3 text delete performs the subsection cut, searching the whole file |
| Edits.CutOneRange | script.js:1051-1055 | a delete removes one contiguous run, from the first start line to the next stop line, and keeps every other line in order; without a start line nothing changes |
| Edits.CutShape | script.js:1053-1055 | cutting a run that a stop line ends keeps the lines before and after it |
| Edits.SectionDeleted | script.js:1049-1057 | the level-2 delete on the lines: from the `## title` line to the next line starting with `## `; stated by Edits.CutOneRange |
| Edits.SubsectionDeleted | script.js:1058-1066 | the level-3 delete on the lines: from the first `### title` line of the file to the next line starting with `#`; stated by Edits.CutOneRange |
| Edits.SubsectionTemplate | script.js:409 | the inserted template has nine lines |
| Edits.AddSubsection | script.js:399-410 | the insertion loop performs the splice |
| Edits.InsertAfterShape | script.js:400-409 | the template goes after the parent heading, before the next section line or at the end, and every other line keeps its order; without the heading nothing changes |
| Edits.InsertShape | script.js:402-409 | inserting at the first section line after the heading keeps the lines around it |
| Edits.SubsectionAdded | script.js:399-410 | addLevel3Section on the lines: the template goes under the parent's heading, before the next section; stated by Edits.InsertAfterShape |
| Edits.SectionAppendedLines | script.js:393 | after text ending in a newline, the new section's heading, `Time: 0` and `Color:` lines follow the old lines |
| Edits.SectionAppended | script.js:393 | addLevel2Section's text: the new heading, `Time: 0` and `Color:` lines are appended to the file; stated by Edits.SectionAppendedLines |
| Edits.UsedColors | script.js:195 | the used colours are exactly the non-empty section colours |
| Edits.Unused | script.js:196 | the available colours are the palette colours not used |
| Edits.UnusedColor | script.js:194-198 | the colour is from the palette, and one no section uses while there is one |
| Edits.SubsectionColor | script.js:405-407 | a subsection colour is variant number (subsection count modulo 10) of the parent's colour; without the parent or its colour there is none |
| Edits.RenameKeyMoves | script.js:1014 | the renamed key holds the old value, the old key is gone, other keys read as before, and a new key goes last |
| Edits.RenameKey | script.js:1014 | `m[newT] = m[oldT]; delete m[oldT]` on the section map; stated by Edits.RenameKeyMoves |
| Edits.RenameSubsectionKeepsOthers | script.js:1036 | a level-3 rename changes only the parent's subsection map, moving the renamed entry |
| Edits.RemoveSubsectionKeepsOthers | script.js:1045 | a level-3 delete drops only that subsection; the other sections and the parent's total and colour stay |
| Edits.AddSubsectionEntryAdds | script.js:412-413 | the parent exists afterwards and the subsection has time 0, the colour and no notes; other sections stay |
| Timers.AtMostOneRuns | script.js:583-586 | under the hand-off rule at most one timer runs |
| Timers.Started | script.js:583-586 | `start.onclick`: nothing when running, else the active timer halts and this one runs and is active; stated by Timers.StartedSingle |
| Timers.Paused | script.js:600 | `pause.onclick`: the timer halts and none is active; stated by Timers.PausedSingle |
| Timers.Reset | script.js:601 | `reset.onclick`: a running timer gives up being active, then it halts at 0; stated by Timers.ResetSingle |
| Timers.TickedClock | script.js:590-596 | the tick's effect on the widgets: one more second, and a pause at every multiple of 900; stated by Timers.TickedSingle |
| Timers.StartedSingle | script.js:583-586 | after a start that timer is the only one running and the active one; no counter changes |
| Timers.PausedSingle | script.js:600 | after a pause no timer runs |
| Timers.ResetSingle | script.js:601 | after a reset the timer is stopped at 0 and the others are unchanged |
| Timers.TickedSingle | script.js:589-596 | a tick counts one second and keeps the rule; the timer goes on unless it reaches a multiple of 900 seconds |
| Timers.TickedSectionAddsOne | script.js:591 | the subsection's and the section's totals go up by one and nothing else of them changes |
| Timers.TickedSectionKeepsOthers | script.js:591 | the section's other subsections and their order stay |
| Timers.Ticked | script.js:591-592 | the tick body's counter updates on the project; stated by Timers.TickAddsOne, Timers.TickCountsToday and Timers.TickKeepsSections |
| Timers.TickKeepsSections | script.js:591 | other sections and the key order stay |
| Timers.TickCountsToday | script.js:592 | today's daily-work entry, created at 0 when missing, goes up by one, and no other date changes |
| Timers.TickAddsOne | script.js:589-592 | subsection, section and project totals and today's entry go up by exactly one, and nothing else changes |
| App.Tracker.Open | script.js:1394-1399 | an opened file is kept as the text and loaded as the project; the timer list starts empty, and the widgets the render creates are added by App.Tracker.AddTimer |
| App.Tracker.Save | script.js:300 | saving rewrites the text from itself and the project |
| App.Tracker.Refresh | script.js:419-434 | refreshing loads the text again, replacing the project, and saves |
| App.Tracker.AddSection | script.js:391-396 | the new section with an unused colour is appended to the text, which is loaded and saved |
| App.Tracker.AddSubsection | script.js:398-417 | with the parent heading present, the template is inserted and the text loaded and saved; otherwise nothing changes |
| App.Tracker.RenameSection | script.js:1008-1016 | the heading line and the map key are renamed and the text is saved |
| App.Tracker.RenameSubsection | script.js:1017-1040 | the heading line in the parent's range and the parent's map key are renamed and the text is saved |
| App.Tracker.DeleteSection | script.js:1043-1057 | once confirmed, the section leaves the map and its range leaves the text, which is saved; otherwise nothing changes |
| App.Tracker.DeleteSubsection | script.js:1043-1069 | once confirmed, the subsection leaves its parent's map and its range leaves the text, which is saved; otherwise nothing changes |
| App.Tracker.AddNote | script.js:761-777 | a non-empty trimmed text becomes a card in front of the migrated list and the text is saved; blank text changes nothing; a subsection the map no longer holds throws a TypeError before anything is written |
| App.Tracker.EditNote | script.js:829-839 | a new non-empty text replaces the text of the card with the id and the text is saved; a subsection the map no longer holds throws a TypeError before anything is written; otherwise nothing changes |
| App.Tracker.DeleteNote | script.js:858-865 | once confirmed, every card with the id leaves the list and the text is saved, or, for a subsection the map no longer holds, a TypeError is thrown before anything is written; unconfirmed, nothing changes |
| App.Tracker.AddTimer | script.js:546-560 | a new widget at 0, not running, is added and nothing else changes |
| App.Tracker.Start | script.js:583-599 | the active timer stops without saving and this one runs and becomes active |
| App.Tracker.Pause | script.js:600 | the timer stops, none is active, and the text is saved |
| App.Tracker.Reset | script.js:601 | the counter goes back to 0; a running timer stops and the text is saved |
| App.Tracker.Tick | script.js:589-597 | the counters go up by one, and at every 900 seconds the timer pauses itself and the text is saved; for a subsection the map no longer holds only the widget's count goes up before a TypeError, and it keeps running |
| Timers.Counted | script.js:590 | `sec++` alone: the widget's count goes up by one, nothing else changes, and the hand-off rule is kept |

## Left out

- Floating-point conversions are parameters: `parseFloat(hours) * 3600` when loading and `(seconds / 3600).toFixed(1)` when saving. So the daily-work round trip is only as exact as those two are.
- The colour maths (`hexToHSL`, `hslToHex`, `generateColorVariants`) is left out. A subsection colour is one of ten opaque variants of the parent's colour, indexed by the number of subsections modulo ten.
- `Date.now()`, `toLocaleString()`, `toISOString()` and `Math.random()` are parameters, not clocks.
- A JavaScript object is modelled as a list of distinct keys in insertion order:
  - Integer-like keys, which JavaScript lists first, are not modelled.
  - A subsection named `totalTime` or `color` would collide with a section's own fields in the source. Here it does not.
  - A name every object inherits, such as `toString` or `constructor`, is read through the prototype in the source. Here every name starts out absent. So with the lines `## A`, `### toString`, `Time: 5`, `## B`, `### toString`, the source finds the inherited function at script.js:1155 and creates no subsection. Its look-ahead at 1157 writes A's `Time: 5` onto that one shared function, and the serializer then writes `Time: 5` under B as well (1256-1258). The model creates an own subsection for each, and B's is written with `Time: 0`.
- Numbers are unbounded integers. In the source, `parseInt` (script.js:1104, 1148, 1157) and the counters are doubles, exact only up to 2^53. So `Time: 9007199254740993` is saved back as `Time: 9007199254740992`, and a total that large stops growing under `++`. Text.ParseIntOr0 and the tick keep exact values.
- The legacy `notes` string field of a subsection is not modelled. It is always empty in what the source creates, and the serializer writes it only when non-empty.
- Strings are sequences of code points. JavaScript compares and indexes UTF-16 code units, which differs outside the Basic Multilingual Plane.
- The DOM is left out: rendering, collapsing, drag and drop, the title and card editors, the confirm pop-ups, the colour picker, and the favicon and audio.
- `moveSection` and `updateSectionOrder` are left out. They swap two headings in the DOM, rebuild the map (or one section's subsection map) in the new DOM order, and save. The text is not reordered: the serializer walks the lines of the text and looks every section up by name, so the saved text does not depend on the order of the map.
- File upload, download and the save picker are left out. The text is a field of the application state.
- Timeline rendering is left out.
- Serializer.Serialize: the text is built from the lines each turn appends, each followed by a newline, then trimmed. The source appends to one string; the result is the same text.
- Edits.SectionAppendedLines: the line view of an appended section is stated only for text that ends in a newline. Saved text always does. Other text would glue the new heading onto its last line.
- App.Tracker.Open: models the first file opened on a page, with no timer widget yet. The render creates one stopped widget at 0 per `### ` heading (script.js:1160, 530, 546); those are left to App.Tracker.AddTimer. Opening another file while a timer runs is not modelled: the upload handler never touches `activeTimer`, so that timer keeps running, stays active and goes on counting into the new project under its old names.
- App.Tracker.Open: loads the text with the corrected parse of the Findings row. On every file the source loads, that is the project the source builds (Parser.AsWrittenAgrees). On a file the source rejects, its upload handler stops at script.js:1399 with a half-built, unmigrated map, while the model opens the corrected project.
- App.Tracker.Refresh: loads with the corrected parse and saves. On a file the source rejects, its `refreshProjectView` stops at script.js:424 with a half-built map and never reaches `saveToFile` at script.js:434, so the text is not rewritten; the model loads the corrected project and saves.
- App.Tracker.AddSection: the appended text is loaded with the corrected parse and saved. When the source's parse rejects that text, its refresh stops before saving (script.js:424, 434), leaving the appended text unsaved and the map half built.
- App.Tracker.AddSubsection: the text with the inserted template is loaded with the corrected parse and saved. When the source's parse rejects that text, its refresh stops before saving (script.js:424, 434), leaving the edited text unsaved and the map half built.
- App.Tracker.AddSection: the source also writes the new section into the map. The refresh rebuilds the map from the text before anything reads it, so the model leaves that write out.
- App.Tracker.Refresh: the timer widgets are unchanged by a refresh. In the source, a refresh re-creates the widgets and the old ones' handlers outlive it; the re-created widgets are not modelled.
- App.Tracker.Pause: requires the timer to be running, because the pause button is disabled otherwise.
- App.Tracker.RenameSection: requires a new title that is non-empty, trimmed and different from the old one, and a section the map holds, which is how the title editor calls it. Otherwise the source writes an `undefined` entry.
- App.Tracker.RenameSubsection: requires the same of the new title and a subsection the map holds.
- App.Tracker.DeleteSubsection: requires the parent section in the map. Without it the source throws a TypeError.
- A board's and a timer's handlers keep the section and subsection names they were rendered with. A rename or delete moves the map key without re-rendering, so those handlers then throw a TypeError on reading the map. The model returns that error as `Err("TypeError")` with the state as the source leaves it. Whatever the DOM shows after the throw is not modelled.
- The `now` field of `Parser.Env`: one value stands for `Date.now()` at every timeline event of a load, so all events read in one load get the same id. The source calls the clock once per event, and the ids can differ by the milliseconds the load takes.
- Parser.MigrateAll: the source also converts a board's notes when it renders the board of a `### ` heading during the scan (script.js:1160, 650-654). That is visible only for a `### ` heading repeating an earlier one of the same section after that one's notes block, with no notes block of its own. The source converts those notes at the repeated heading, with the clock of that moment; the model converts them in the final pass, with the one clock of that pass. Under a `## ` heading with an empty title, which the final pass skips (script.js:1178), the source's notes of such a board end up converted while the model's stay note lines.
- Parser.ParseDocument: the corrected parse does not throw. The thrown TypeError of the source is modelled by Parser.ParseAsWritten.

## Findings

| source | as written | input that shows it | evidently intended | confidence | as-written member | corrected member |
|---|---|---|---|---|---|---|
| script.js:1143-1171 | the subsection name `curL3Name` is never cleared when a new `## ` heading opens a section. So a `**Notes:**` line under a section without its own `###` heading writes to `projectData[curL2Name][curL3Name]`, which is undefined, and the load aborts with a TypeError | the lines `## A`, `### X`, `## B`, `**Notes:**` | a new section clears the current subsection, so the notes line is ignored and the file loads with sections A and B | not executed | Parser.SampleFailsAsWritten | Parser.SampleLoads |
