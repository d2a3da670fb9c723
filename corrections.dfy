/** The correction prompt all three pending flows send to the model: the
    original request alone, or followed by the trimmed correction note. */
module Corrections {
  import opened Wrappers
  import opened Text

  /** The prompt for a correction note (blank notes are not sent). */
  function CorrectionPrompt(originalText: string, note: string): (p: string)
  {
    if IsBlank(note) then originalText
    else "Original request: " + originalText + "\nCorrection note: " + Trim(note)
  }

  /** The prompt built from a stored note, present or not. */
  function NotePrompt(originalText: string, note: Option<string>): (p: string)
    ensures note.None? ==> p == originalText
    ensures note.Some? ==> p == CorrectionPrompt(originalText, note.value)
  {
    match note
    case None => originalText
    case Some(v) => CorrectionPrompt(originalText, v)
  }

  /** The prompt always carries the original request; a non-blank note is
      carried trimmed at its end, and a blank one leaves the request alone. */
  lemma {:induction false} CorrectionPromptCarries(originalText: string, note: string)
    ensures Contains(CorrectionPrompt(originalText, note), originalText)
    ensures IsBlank(note) ==> CorrectionPrompt(originalText, note) == originalText
    ensures !IsBlank(note) ==> EndsWith(CorrectionPrompt(originalText, note), Trim(note))
    ensures !IsBlank(note) ==> StartsWith(CorrectionPrompt(originalText, note), "Original request: ")
  {
    var p := CorrectionPrompt(originalText, note);
    if IsBlank(note) {
      ContainsMiddle([], originalText, []);
      assert [] + originalText + [] == originalText;
    } else {
      ContainsMiddle("Original request: ", originalText, "\nCorrection note: " + Trim(note));
      assert p == "Original request: " + originalText + ("\nCorrection note: " + Trim(note));
      assert p == ("Original request: " + originalText + "\nCorrection note: ") + Trim(note);
      assert p[..|"Original request: "|] == "Original request: ";
    }
  }
}
