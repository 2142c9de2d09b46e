/**
 * The undo/redo mediator of the board page: which `keydown` events are the undo and
 * redo chords, and the flash message shown once the mutation history has acted.
 */
module UndoRedo {
  import opened Optional

  /** The fields of a DOM `keydown` event the handler looks at. */
  datatype KeyEvent = KeyEvent(
    targetIsBody: bool,  // the event's target is `document.body`: no input field has focus
    keyCode: int,
    shiftKey: bool,
    ctrlKey: bool,
    metaKey: bool,
    altKey: bool)

  datatype Command = Undo | Redo

  /** Key code of the Z key. */
  const KeyZ := 90

  /** Ctrl+Z or Cmd+Z, with or without Shift, and without Alt. */
  predicate PrimaryZ(e: KeyEvent) {
    e.keyCode == KeyZ && (e.ctrlKey || e.metaKey) && !e.altKey
  }

  /** What the handler does with a key event: undo, redo, or nothing. */
  function Classify(e: KeyEvent): (r: Option<Command>)
    ensures r.Some? <==> e.targetIsBody && PrimaryZ(e)
    ensures r.Some? ==> (r.value == Redo <==> e.shiftKey)
  {
    if !e.targetIsBody then None
    else if e.keyCode == KeyZ && !e.shiftKey && (e.ctrlKey || e.metaKey) && !e.altKey then Some(Undo)
    else if e.keyCode == KeyZ && e.shiftKey && (e.ctrlKey || e.metaKey) && !e.altKey then Some(Redo)
    else None
  }

  /** Adding Shift to the undo chord makes it the redo chord, and taking it away undoes that. */
  lemma ShiftTurnsUndoIntoRedo(e: KeyEvent)
    ensures Classify(e.(shiftKey := false)) == Some(Undo) <==> Classify(e.(shiftKey := true)) == Some(Redo)
  {
  }

  /** Ctrl and Cmd are interchangeable in both chords. */
  lemma CtrlAndMetaAgree(e: KeyEvent)
    ensures Classify(e.(ctrlKey := true, metaKey := false)) == Classify(e.(ctrlKey := false, metaKey := true))
  {
  }

  function Name(c: Command): string {
    match c
    case Undo => "Undo"
    case Redo => "Redo"
  }

  /**
   * The flash message for a command, given the description the mutation history gave
   * before acting: the name alone when the description is missing or empty.
   */
  function FlashText(c: Command, description: Option<string>): (msg: string)
    ensures |msg| >= 4 && msg[..4] == Name(c)
    ensures |msg| == 4 <==> !Truthy(description)
  {
    if Truthy(description) then Name(c) + " " + description.value else Name(c)
  }

  /** The description a flash message carries, normalised as the handler tests it. */
  function Described(description: Option<string>): Option<string> {
    if Truthy(description) then description else None
  }

  /** Reads a flash message back into its command and description. */
  function ParseFlash(msg: string): Option<(Command, Option<string>)> {
    if msg == "Undo" then Some((Undo, None))
    else if msg == "Redo" then Some((Redo, None))
    else if |msg| > 5 && msg[..5] == "Undo " then Some((Undo, Some(msg[5..])))
    else if |msg| > 5 && msg[..5] == "Redo " then Some((Redo, Some(msg[5..])))
    else None
  }

  /** A flash message names its command and carries the description exactly. */
  lemma {:induction false} FlashTextRoundTrip(c: Command, description: Option<string>)
    ensures ParseFlash(FlashText(c, description)) == Some((c, Described(description)))
  {
    var msg := FlashText(c, description);
    if Truthy(description) {
      assert |msg| > 5;
      assert msg[..5] == Name(c) + " ";
      assert msg[5..] == description.value;
      assert c == Redo ==> msg[..5][0] == 'R' != "Undo "[0];
    }
  }

  /** Every message that reads back as a command and description is the one shown for them. */
  lemma {:induction false} ParseFlashSound(msg: string)
    requires ParseFlash(msg).Some?
    ensures FlashText(ParseFlash(msg).value.0, ParseFlash(msg).value.1) == msg
  {
    if |msg| > 5 && msg != "Undo" && msg != "Redo" {
      assert msg == msg[..5] + msg[5..];
    }
  }
}
