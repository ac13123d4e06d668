/** Kanban notes: the two note-line patterns of convertNotesToKanban, the
    migration of `- [status] text (timestamp)` lines into cards, the line a
    card is saved as, and the by-id edits of a subsection's note list. */
module Notes {
  import opened Wrappers
  import opened Text
  import opened Model

  predicate NoLineTerminator(s: string) {
    forall k :: 0 <= k < |s| ==> !IsLineTerminator(s[k])
  }

  /** The head `^-\s*\[([^\]]+)\]` the two patterns share: the status group
      and the index just past the closing bracket. Neither quantifier can
      give back characters usefully, so the match is unique. */
  function StatusHead(s: string): (r: Option<(string, nat)>)
    ensures r.Some? ==>
      var (status, q) := r.value;
      && 4 <= q <= |s| && s[0] == '-'
      && |status| >= 1 && ']' !in status && |status| + 3 <= q
      && s[q - 1] == ']' && s[q - 1 - |status|..q - 1] == status && s[q - 2 - |status|] == '['
      && forall k :: 1 <= k < q - 2 - |status| ==> IsSpace(s[k])
  {
    if |s| == 0 || s[0] != '-' then None
    else
      var p := 1 + SpaceRun(s, 1);
      if p >= |s| || s[p] != '[' then None
      else
        var q := IndexOfChar(s, ']', p + 1);
        if q == |s| || q == p + 1 then None
        else Some((s[p + 1..q], q + 1))
  }

  /** `r` ends with `(ts)`. */
  predicate EndsWithStamp(r: string, ts: string) {
    |r| >= |ts| + 2 && r[|r| - |ts| - 2..] == "(" + ts + ")"
  }

  /** `\s*\(([^)]+)\)$` tried at index `e` of `r`: the timestamp group. */
  function StampAt(r: string, e: nat): (ts: Option<string>)
    requires e <= |r|
    ensures ts.Some? ==> |ts.value| >= 1 && ')' !in ts.value && EndsWithStamp(r, ts.value)
  {
    var b := e + SpaceRun(r, e);
    if b < |r| && r[b] == '(' && b + 2 < |r| && r[|r| - 1] == ')' && ')' !in r[b + 1..|r| - 1]
    then
      assert r[b..] == "(" + r[b + 1..|r| - 1] + ")";
      Some(r[b + 1..|r| - 1])
    else None
  }

  /** The lazy group `(.+?)` from index `w`: the shortest text of at least
      `m` characters, none a line terminator, after which StampAt succeeds. */
  function LazyText(r: string, w: nat, m: nat): (g: Option<(string, string)>)
    requires m >= 1 && w + m - 1 <= |r|
    requires NoLineTerminator(r[w..w + m - 1])
    ensures g.Some? ==> && |g.value.0| >= 1 && NoLineTerminator(g.value.0)
                        && |g.value.1| >= 1 && ')' !in g.value.1 && EndsWithStamp(r, g.value.1)
    decreases |r| + 1 - (w + m)
  {
    if w + m > |r| || IsLineTerminator(r[w + m - 1]) then None
    else match StampAt(r, w + m)
      case Some(ts) =>
        assert r[w..w + m] == r[w..w + m - 1] + [r[w + m - 1]];
        Some((r[w..w + m], ts))
      case None =>
        assert r[w..w + m] == r[w..w + m - 1] + [r[w + m - 1]];
        LazyText(r, w, m + 1)
  }

  /** `\s*(.+?)\s*\(([^)]+)\)$` after the head: the greedy `\s*` first takes
      `w` blanks, then gives them back one at a time. */
  function StampedTail(r: string, w: nat): (g: Option<(string, string)>)
    requires w <= |r|
    ensures g.Some? ==> && |g.value.0| >= 1 && NoLineTerminator(g.value.0)
                        && |g.value.1| >= 1 && ')' !in g.value.1 && EndsWithStamp(r, g.value.1)
    decreases w
  {
    match LazyText(r, w, 1)
    case Some(g) => Some(g)
    case None => if w == 0 then None else StampedTail(r, w - 1)
  }

  /** `^-\s*\[([^\]]+)\]\s*(.+?)\s*\(([^)]+)\)$`: status, text, timestamp. */
  function MatchStamped(s: string): (m: Option<(string, string, string)>)
    ensures m.Some? ==>
      var (status, text, ts) := m.value;
      && StatusHead(s).Some? && StatusHead(s).value.0 == status
      && |text| >= 1 && NoLineTerminator(text)
      && |ts| >= 1 && ')' !in ts && EndsWithStamp(s, ts)
  {
    match StatusHead(s)
    case None => None
    case Some((status, q)) =>
      var r := s[q..];
      match StampedTail(r, SpaceRun(r, 0))
      case None => None
      case Some((text, ts)) =>
        assert r[|r| - |ts| - 2..] == s[|s| - |ts| - 2..];
        Some((status, text, ts))
  }

  /** `\s*(.+)$` after the head, with `w` leading blanks first. */
  function PlainTail(r: string, w: nat): (g: Option<string>)
    requires w <= |r|
    ensures g.Some? ==> |g.value| >= 1 && NoLineTerminator(g.value)
    decreases w
  {
    if w < |r| && NoLineTerminator(r[w..]) then Some(r[w..])
    else if w == 0 then None
    else PlainTail(r, w - 1)
  }

  /** `^-\s*\[([^\]]+)\]\s*(.+)$`: status and text. */
  function MatchPlain(s: string): (m: Option<(string, string)>)
  {
    match StatusHead(s)
    case None => None
    case Some((status, q)) =>
      var r := s[q..];
      match PlainTail(r, SpaceRun(r, 0))
      case None => None
      case Some(text) => Some((status, text))
  }

  predicate Unmatched(s: string) {
    MatchStamped(s).None? && MatchPlain(s).None?
  }

  /** One element of the `notes.map` in convertNotesToKanban. The card id is
      `Date.now() + i`, the clock read at element `i` being `clock(i)`; a
      line without timestamp gets the locale date string `stamp(i)`. */
  function ConvertItem(n: NoteItem, i: nat, clock: nat -> int, stamp: nat -> string): (r: NoteItem)
    ensures n.Structured? ==> r == n
    ensures n.Raw? && Unmatched(n.line) ==> r == n
    ensures n.Raw? && !Unmatched(n.line) ==> r.Structured? && r.note.id == clock(i) + i
  {
    match n
    case Structured(_) => n
    case Raw(s) =>
      match MatchStamped(s)
      case Some((status, text, ts)) => Structured(Note(Trim(text), ts, status, clock(i) + i))
      case None =>
        match MatchPlain(s)
        case Some((status, text)) => Structured(Note(Trim(text), stamp(i), status, clock(i) + i))
        case None => n
  }

  ghost predicate Nondecreasing(clock: nat -> int) {
    forall a: nat, b: nat :: a <= b ==> clock(a) <= clock(b)
  }

  /** convertNotesToKanban: an empty list stays empty, a list whose first
      element is already a card is returned as is, and otherwise every line
      is converted in place. */
  function Migrate(notes: seq<NoteItem>, clock: nat -> int, stamp: nat -> string): (r: seq<NoteItem>)
    ensures |r| == |notes|
    ensures |notes| > 0 && notes[0].Structured? ==> r == notes
    ensures forall i :: 0 <= i < |notes| && notes[i].Structured? ==> r[i] == notes[i]
    ensures forall i :: 0 <= i < |notes| && notes[i].Raw? && Unmatched(notes[i].line) ==> r[i] == notes[i]
    ensures Nondecreasing(clock) ==>
      forall i, j :: 0 <= i < j < |notes| && notes[i].Raw? && r[i].Structured? && notes[j].Raw? && r[j].Structured?
                     ==> r[i].note.id < r[j].note.id
  {
    if |notes| == 0 then []
    else if notes[0].Structured? then notes
    else
      var r := seq(|notes|, i requires 0 <= i < |notes| => ConvertItem(notes[i], i, clock, stamp));
      assert Nondecreasing(clock) ==>
        forall i, j :: 0 <= i < j < |notes| && notes[i].Raw? && r[i].Structured? && notes[j].Raw? && r[j].Structured?
                       ==> r[i].note.id < r[j].note.id by {
        if Nondecreasing(clock) {
          forall i, j | 0 <= i < j < |notes| && notes[i].Raw? && r[i].Structured? && notes[j].Raw? && r[j].Structured?
            ensures r[i].note.id < r[j].note.id
          {
            assert clock(i) <= clock(j);
          }
        }
      }
      r
  }

  /** Migrating a migrated list changes nothing: every element is by then
      a card or a line neither pattern accepts. */
  lemma MigrateIdempotent(notes: seq<NoteItem>, clock: nat -> int, stamp: nat -> string,
                          clock': nat -> int, stamp': nat -> string)
    ensures Migrate(Migrate(notes, clock, stamp), clock', stamp') == Migrate(notes, clock, stamp)
  {
    var r := Migrate(notes, clock, stamp);
    if |r| > 0 && r[0].Raw? {
      forall i | 0 <= i < |r|
        ensures ConvertItem(r[i], i, clock', stamp') == r[i]
      {
        if r[i].Raw? {
          assert r[i] == ConvertItem(notes[i], i, clock, stamp);
        }
      }
    }
  }

  /** The line a card is saved as (`formattedNotes` in updateMarkdownContent).
      A card missing its text, status or timestamp, being an object, is written
      as "[object Object]". */
  function RenderNote(n: NoteItem): (line: string)
    ensures StartsWith(line, "- [")
  {
    match n
    case Structured(note) =>
      if note.text != "" && note.status != "" && note.timestamp != ""
      then "- [" + note.status + "] " + note.text + " (" + note.timestamp + ")"
      else "- [todo] [object Object]"
    case Raw(s) => "- [todo] " + s
  }

  /** What a card must satisfy for its saved line to read back as the same card. */
  predicate RoundTrips(n: Note) {
    && n.text != "" && Trim(n.text) == n.text && '(' !in n.text && NoLineTerminator(n.text)
    && n.status != "" && ']' !in n.status
    && n.timestamp != "" && ')' !in n.timestamp
  }

  /** `r` is ` text (ts)`, position by position. */
  predicate TailShape(r: string, text: string, ts: string) {
    && |r| == |text| + |ts| + 4 && r[0] == ' '
    && (forall k :: 1 <= k <= |text| ==> r[k] == text[k - 1])
    && r[1 + |text|] == ' ' && r[2 + |text|] == '('
    && r[3 + |text|..|r| - 1] == ts && r[|r| - 1] == ')'
  }

  lemma TailShapeOf(text: string, ts: string)
    ensures TailShape(" " + text + " (" + ts + ")", text, ts)
  {
    var r := " " + text + " (" + ts + ")";
    assert r[3 + |text|..|r| - 1] == ts;
  }

  lemma TrimFixedEnds(s: string)
    requires s != [] && Trim(s) == s
    ensures !IsSpace(s[0]) && !IsSpace(s[|s| - 1])
  {
  }

  /** After the whole card text, StampAt reads the timestamp. */
  lemma StampAfterText(r: string, text: string, ts: string)
    requires RoundTrips(Note(text, ts, "x", 0)) && TailShape(r, text, ts)
    ensures StampAt(r, 1 + |text|) == Some(ts)
  {
    var e := 1 + |text|;
    assert SpaceRun(r, e + 1) == 0;
    assert SpaceRun(r, e) == 1;
  }

  /** After a proper prefix of the card text, StampAt finds nothing: the
      next non-blank character is still text, and text holds no '('. */
  lemma StampInsideText(r: string, text: string, ts: string, m: nat)
    requires RoundTrips(Note(text, ts, "x", 0)) && TailShape(r, text, ts)
    requires 1 <= m < |text|
    ensures StampAt(r, 1 + m) == None
  {
    TrimFixedEnds(text);
    var e := 1 + m;
    var n := SpaceRun(r, e);
    assert r[|text|] == text[|text| - 1];
    assert e + n <= |text|;
    assert r[e + n] == text[e + n - 1];
  }

  /** The lazy text group, tried from `m` characters on, stops exactly at
      the end of the card text. */
  lemma {:induction false} LazySkipsText(r: string, text: string, ts: string, m: nat)
    requires RoundTrips(Note(text, ts, "x", 0)) && TailShape(r, text, ts)
    requires 1 <= m <= |text|
    requires NoLineTerminator(r[1..m])
    ensures LazyText(r, 1, m) == Some((text, ts))
    decreases |text| - m
  {
    assert r[m] == text[m - 1];
    assert r[1..1 + m] == r[1..m] + [r[m]];
    if m == |text| {
      StampAfterText(r, text, ts);
      assert r[1..1 + m] == text;
    } else {
      StampInsideText(r, text, ts, m);
      LazySkipsText(r, text, ts, m + 1);
    }
  }

  /** The head of a saved card line yields its status. */
  lemma StatusHeadOfRendered(st: string, r: string)
    requires |st| >= 1 && ']' !in st && |r| >= 1
    ensures StatusHead("- [" + st + "]" + r) == Some((st, 4 + |st|))
    ensures ("- [" + st + "]" + r)[4 + |st|..] == r
  {
    var line := "- [" + st + "]" + r;
    assert line[1] == ' ' && line[2] == '[';
    assert SpaceRun(line, 1) == 1 by {
      assert SpaceRun(line, 2) == 0;
    }
    forall j | 3 <= j < 3 + |st|
      ensures line[j] != ']'
    {
      assert line[j] == st[j - 3];
    }
    assert line[3 + |st|] == ']';
    assert IndexOfChar(line, ']', 3) == 3 + |st|;
    assert line[3..3 + |st|] == st;
    assert line[4 + |st|..] == r;
  }

  /** The tail of a saved card line yields its text and timestamp. */
  lemma StampedTailOfRendered(text: string, ts: string)
    requires RoundTrips(Note(text, ts, "x", 0))
    ensures var r := " " + text + " (" + ts + ")";
            StampedTail(r, SpaceRun(r, 0)) == Some((text, ts))
  {
    var r := " " + text + " (" + ts + ")";
    TailShapeOf(text, ts);
    TrimFixedEnds(text);
    assert SpaceRun(r, 0) == 1 by {
      assert SpaceRun(r, 1) == 0;
    }
    LazySkipsText(r, text, ts, 1);
  }

  /** A card satisfying RoundTrips, saved and read back, is the same card;
      only its id is renewed to `clock(i) + i`. */
  lemma {:induction false} NoteRoundTrip(n: Note, i: nat, clock: nat -> int, stamp: nat -> string)
    requires RoundTrips(n)
    ensures ConvertItem(Raw(RenderNote(Structured(n))), i, clock, stamp) == Structured(n.(id := clock(i) + i))
  {
    var line := RenderNote(Structured(n));
    var r := " " + n.text + " (" + n.timestamp + ")";
    assert line == "- [" + n.status + "]" + r;
    StatusHeadOfRendered(n.status, r);
    StampedTailOfRendered(n.text, n.timestamp);
    assert MatchStamped(line) == Some((n.status, n.text, n.timestamp));
  }

  /** A list of such cards, saved line by line and migrated, gives the same
      cards back in the same order with fresh ids. */
  lemma NotesRoundTrip(cards: seq<Note>, lines: seq<NoteItem>, clock: nat -> int, stamp: nat -> string)
    requires |lines| == |cards|
    requires forall k :: 0 <= k < |cards| ==> RoundTrips(cards[k]) && lines[k] == Raw(RenderNote(Structured(cards[k])))
    ensures |Migrate(lines, clock, stamp)| == |cards|
    ensures forall k :: 0 <= k < |cards| ==> Migrate(lines, clock, stamp)[k] == Structured(cards[k].(id := clock(k) + k))
  {
    forall k | 0 <= k < |cards|
      ensures ConvertItem(lines[k], k, clock, stamp) == Structured(cards[k].(id := clock(k) + k))
    {
      NoteRoundTrip(cards[k], k, clock, stamp);
    }
  }

  // ---------------------------------------------------------------- edits by id

  predicate HasId(n: NoteItem, id: int) {
    n.Structured? && n.note.id == id
  }

  /** `notes.find(n => n.id === id)`: index of the first card with `id`, or |notes|. */
  function FindId(notes: seq<NoteItem>, id: int): (k: nat)
    ensures k <= |notes|
    ensures k < |notes| ==> HasId(notes[k], id)
    ensures forall j :: 0 <= j < k ==> !HasId(notes[j], id)
  {
    if notes == [] then 0 else if HasId(notes[0], id) then 0 else 1 + FindId(notes[1..], id)
  }

  lemma {:induction false} FindIdIs(notes: seq<NoteItem>, id: int, k: nat)
    requires k <= |notes|
    requires k < |notes| ==> HasId(notes[k], id)
    requires forall j :: 0 <= j < k ==> !HasId(notes[j], id)
    ensures FindId(notes, id) == k
  {
    if notes != [] && !HasId(notes[0], id) {
      FindIdIs(notes[1..], id, k - 1);
    }
  }

  /** The edit handler: the first card carrying `id` gets the new text. */
  function EditText(notes: seq<NoteItem>, id: int, text: string): (r: seq<NoteItem>)
  {
    var k := FindId(notes, id);
    if k < |notes| then notes[k := Structured(notes[k].note.(text := text))] else notes
  }

  /** Editing keeps every card where it is with the same id, status and
      timestamp; only the first card carrying `id` has the new text, so
      any card is found by id exactly where it was. */
  lemma EditTextKeepsIds(notes: seq<NoteItem>, id: int, text: string)
    ensures var r := EditText(notes, id, text);
      && |r| == |notes|
      && (forall j :: 0 <= j < |r| ==> r[j].Structured? == notes[j].Structured?)
      && (forall j :: 0 <= j < |r| && r[j].Structured? ==> r[j].note.(text := "") == notes[j].note.(text := ""))
      && (forall j :: 0 <= j < |r| && j != FindId(notes, id) ==> r[j] == notes[j])
      && (FindId(notes, id) < |notes| ==> r[FindId(notes, id)].note.text == text)
      && (forall id' :: FindId(r, id') == FindId(notes, id'))
  {
    var r := EditText(notes, id, text);
    forall id' ensures FindId(r, id') == FindId(notes, id') {
      var k := FindId(notes, id');
      FindIdIs(r, id', k);
    }
  }

  /** The delete handler: `oldNotes.filter(n => n.id !== id)`. Lines not yet
      migrated have no id and stay. */
  function WithoutId(notes: seq<NoteItem>, id: int): (r: seq<NoteItem>)
    ensures |r| <= |notes|
    ensures forall j :: 0 <= j < |r| ==> !HasId(r[j], id)
    ensures forall n :: n in r <==> n in notes && !HasId(n, id)
  {
    if notes == [] then []
    else if HasId(notes[0], id) then WithoutId(notes[1..], id)
    else [notes[0]] + WithoutId(notes[1..], id)
  }

  /** The filter keeps the order and the multiplicity of what it keeps:
      filtering two lists one after the other is filtering their join. */
  lemma {:induction false} WithoutIdAppend(a: seq<NoteItem>, b: seq<NoteItem>, id: int)
    ensures WithoutId(a + b, id) == WithoutId(a, id) + WithoutId(b, id)
  {
    if a == [] {
      assert a + b == b;
    } else {
      assert (a + b)[0] == a[0];
      assert (a + b)[1..] == a[1..] + b;
      WithoutIdAppend(a[1..], b, id);
    }
  }

  /** One item is kept exactly when it does not carry the id. */
  lemma WithoutIdOne(n: NoteItem, id: int)
    ensures WithoutId([n], id) == if HasId(n, id) then [] else [n]
  {
    assert [n][1..] == [];
  }

  /** Deleting an id no card carries changes nothing. */
  lemma {:induction false} WithoutAbsentId(notes: seq<NoteItem>, id: int)
    requires FindId(notes, id) == |notes|
    ensures WithoutId(notes, id) == notes
  {
    if notes != [] {
      assert !HasId(notes[0], id);
      FindIdIs(notes[1..], id, |notes| - 1);
      WithoutAbsentId(notes[1..], id);
    }
  }

  /** The new-card handler: the list is migrated and the card goes in front. */
  function WithNewCard(notes: seq<NoteItem>, card: Note, clock: nat -> int, stamp: nat -> string): (r: seq<NoteItem>)
    ensures |r| == |notes| + 1 && r[0] == Structured(card)
    ensures FindId(r, card.id) == 0
    ensures r[1..] == Migrate(notes, clock, stamp)
  {
    [Structured(card)] + Migrate(notes, clock, stamp)
  }
}
