/**
  * The note list of a pipeline card: `parseNotes`, `addNote` and `removeNote`
  * of `src/components/pipeline/NotesSection.tsx`. The list is stored as one
  * JSON string; JSON decoding is a parameter that may fail, and the
  * `onNotesChange` callback is modelled by returning the list it would receive.
  */
module Notes {
  import opened Base
  import opened Text
  import opened Seqs

  datatype Note = Note(id: string, content: string, timestamp: string)

  /** `parseNotes`: no list for `null` or `''`; the decoded list; or the whole text as one legacy note with id '1'. */
  function ParseNotes(stored: Option<string>, decode: string -> Option<seq<Note>>, now: string): (r: seq<Note>)
    ensures stored.None? || stored == Some("") ==> r == []
    ensures stored.Some? && stored.value != "" && decode(stored.value).Some? ==> r == decode(stored.value).value
    ensures stored.Some? && stored.value != "" && decode(stored.value).None? ==>
      r == [Note("1", stored.value, now)]
  {
    match stored
    case None => []
    case Some(text) =>
      if text == "" then []
      else match decode(text)
        case Some(notes) => notes
        case None => [Note("1", text, now)]
  }

  /** The effect of one `addNote` call: the list handed to `onNotesChange`, if any, and the new draft. */
  datatype AddOutcome = AddOutcome(changed: Option<seq<Note>>, draft: string)

  /** `addNote` with draft `draft`, new id `id` and time `now`. */
  function AddNote(existing: seq<Note>, draft: string, id: string, now: string): (r: AddOutcome)
    ensures AllSpace(draft) ==> r == AddOutcome(None, draft)
    ensures !AllSpace(draft) ==> r.draft == "" && r.changed.Some?
    ensures r.changed.Some? ==>
      && |r.changed.value| == |existing| + 1
      && r.changed.value[..|existing|] == existing
      && r.changed.value[|existing|] == Note(id, Trim(draft), now)
  {
    TrimBlank(draft);
    if Trim(draft) == "" then AddOutcome(None, draft)
    else AddOutcome(Some(existing + [Note(id, Trim(draft), now)]), "")
  }

  /** The content of an added note is never blank and carries no surrounding whitespace. */
  lemma AddedNoteIsTrimmed(existing: seq<Note>, draft: string, id: string, now: string)
    requires AddNote(existing, draft, id, now).changed.Some?
    ensures var note := AddNote(existing, draft, id, now).changed.value[|existing|];
      note.content != "" && Trim(note.content) == note.content
  {
    TrimBlank(draft);
    TrimIdempotent(draft);
  }

  /** `removeNote`: drops every note with id `id`. */
  function RemoveNote(existing: seq<Note>, id: string): seq<Note> {
    Filter(existing, (n: Note) => n.id != id)
  }

  /** After removal no note carries the id, every other note survives, and the order is kept. */
  lemma RemoveNoteSpec(existing: seq<Note>, id: string)
    ensures forall i :: 0 <= i < |RemoveNote(existing, id)| ==> RemoveNote(existing, id)[i].id != id
    ensures forall i :: 0 <= i < |existing| && existing[i].id != id ==> existing[i] in RemoveNote(existing, id)
    ensures IsSubsequence(RemoveNote(existing, id), existing)
    ensures |RemoveNote(existing, id)| == |existing| - Count(existing, (n: Note) => n.id == id)
  {
    FilterSpec(existing, (n: Note) => n.id != id);
    FilterIsSubsequence(existing, (n: Note) => n.id != id);
    FilterLength(existing, (n: Note) => n.id != id);
    CountComplement(existing, (n: Note) => n.id != id, (n: Note) => n.id == id);
  }

  /** Elements satisfying a predicate and those satisfying its negation together make up the list. */
  lemma {:induction false} CountComplement<T>(s: seq<T>, p: T -> bool, q: T -> bool)
    requires forall x :: p(x) <==> !q(x)
    ensures Count(s, p) + Count(s, q) == |s|
    decreases |s|
  {
    if s != [] {
      CountComplement(s[1..], p, q);
    }
  }

  /** Removing an id no note carries leaves the list unchanged. */
  lemma RemoveUnknownId(existing: seq<Note>, id: string)
    requires forall i :: 0 <= i < |existing| ==> existing[i].id != id
    ensures RemoveNote(existing, id) == existing
  {
    FilterKeepsAll(existing, (n: Note) => n.id != id);
  }

  /** Removing twice is removing once. */
  lemma RemoveNoteIdempotent(existing: seq<Note>, id: string)
    ensures RemoveNote(RemoveNote(existing, id), id) == RemoveNote(existing, id)
  {
    RemoveNoteSpec(existing, id);
    RemoveUnknownId(RemoveNote(existing, id), id);
  }

  /** Adding a note under a fresh id and then removing that id restores the list. */
  lemma RemoveUndoesAdd(existing: seq<Note>, draft: string, id: string, now: string)
    requires forall i :: 0 <= i < |existing| ==> existing[i].id != id
    requires !AllSpace(draft)
    ensures RemoveNote(AddNote(existing, draft, id, now).changed.value, id) == existing
  {
    var p := (n: Note) => n.id != id;
    var added := Note(id, Trim(draft), now);
    FilterAppend(existing, [added], p);
    FilterKeepsAll(existing, p);
    FilterDropsAll([added], p);
  }
}
