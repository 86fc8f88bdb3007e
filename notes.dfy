/** `NotesViewModel`: notes kept in memory by date, and the note on display. */
module Notes {

  /** `_notes[date] ?: ""`: the stored note, or empty text for a date never saved. */
  function NoteOrEmpty(notes: map<string, string>, date: string): string {
    if date in notes then notes[date] else ""
  }

  class NotesViewModel {
    /** `_notes`, the mutable map from date to note text. */
    var notes: map<string, string>
    /** The value held by `_currentNote` (and published as `currentNote`). */
    var currentNote: string

    constructor ()
      ensures notes == map[] && currentNote == ""
    {
      notes := map[];
      currentNote := "";
    }

    /** Shows the note saved for `date`, or empty text; the map is left alone. */
    method LoadNote(date: string)
      modifies this`currentNote
      ensures notes == old(notes)
      ensures date in notes ==> currentNote == notes[date]
      ensures date !in notes ==> currentNote == ""
    {
      currentNote := NoteOrEmpty(notes, date);
    }

    /** Stores `text` under `date`, replacing any earlier note, and shows it. */
    method SaveNote(date: string, text: string)
      modifies this
      ensures notes.Keys == old(notes).Keys + {date}
      ensures notes[date] == text
      ensures forall d :: d in old(notes) && d != date ==> notes[d] == old(notes)[d]
      ensures currentNote == text
    {
      notes := notes[date := text];
      currentNote := text;
    }
  }

  /** Saving and then loading the same date shows exactly the saved text, empty or not. */
  method SaveThenLoad(vm: NotesViewModel, date: string, text: string)
    modifies vm
    ensures vm.notes == old(vm.notes)[date := text]
    ensures vm.currentNote == text
  {
    vm.SaveNote(date, text);
    vm.LoadNote(date);
  }

  /**
   * On a fresh store, a saved date reads back its text and a date never
   * saved reads back empty text.
   */
  method FreshStoreExample() returns (saved: string, unsaved: string)
    ensures saved == "hello" && unsaved == ""
  {
    var vm := new NotesViewModel();
    vm.SaveNote("2025-07-03", "hello");
    vm.LoadNote("2025-07-03");
    saved := vm.currentNote;
    vm.LoadNote("2025-07-04");
    unsaved := vm.currentNote;
  }
}
