/** The popup that asks how many songs to shuffle: the entry text is parsed as an integer and
    passed on only when it lies between 1 and 25; every other input shows an error box and keeps
    the popup open. */
module ShuffleInput {
  import opened PyBuiltins

  /** The largest count accepted. The error text says "less than 25", but 25 itself passes. */
  const MAX_SONGS := 25

  /** The four ways the check can end. (The source also tests the parsed value for `None`,
      which `int()` never returns, so that branch has no counterpart here.) */
  datatype Verdict = NotANumber | NotPositive | TooLarge | Accepted(count: int)

  /** The decision `get_input_popupbox` makes on the entry text. */
  function Classify(text: string): (v: Verdict)
    ensures v == NotANumber <==> ParseInt(text).None?
    ensures v == NotPositive <==> ParseInt(text).Some? && ParseInt(text).value <= 0
    ensures v == TooLarge <==> ParseInt(text).Some? && ParseInt(text).value > MAX_SONGS
    ensures v.Accepted? <==> ParseInt(text).Some? && 1 <= ParseInt(text).value <= MAX_SONGS
    ensures v.Accepted? ==> ParseInt(text) == Some(v.count)
  {
    match ParseInt(text)
    case None => NotANumber
    case Some(n) =>
      if n <= 0 then NotPositive
      else if n > MAX_SONGS then TooLarge
      else Accepted(n)
  }

  /** The text of the error box for each rejection. */
  function ErrorMessage(v: Verdict): string
    requires !v.Accepted?
  {
    match v
    case NotANumber => "Please enter a number into the text box"
    case NotPositive => "Please enter a number greater than 0 into the text box."
    case TooLarge => "Please enter a number less than 25 into the text box."
  }

  /** What typing `str(n)` into the box leads to: the bounds 1 and 25 are both accepted. */
  lemma ClassifyWrittenNumber(n: int)
    requires |Digits(Abs(n))| <= MAX_STR_DIGITS
    ensures Classify(FormatInt(n)) == if n <= 0 then NotPositive
                                      else if n > MAX_SONGS then TooLarge
                                      else Accepted(n)
  {
    ParseFormatInt(n);
  }

  /** An entry of more than `MAX_STR_DIGITS` digits is not read as a (too large) number at all:
      `int()` refuses it, and the popup asks for a number. */
  lemma ClassifyTooManyDigits(text: string)
    requires IsDigitGroup(text) && DigitCount(text) > MAX_STR_DIGITS
    ensures Classify(text) == NotANumber
    ensures ErrorMessage(Classify(text)) == "Please enter a number into the text box"
  {
    TooManyDigits(text);
  }

  /** A number behind the separator U+001C is not read: the popup asks for a number. */
  lemma ClassifySeparator()
    ensures Classify("\U{1c}5") == NotANumber
  {
    SeparatorRefusedByInt();
  }

  /** Whitespace `int()` skips around the number does not change the decision. */
  lemma ClassifyIgnoresSpace(text: string, c: char)
    requires IsIntSpace(c)
    ensures Classify([c] + text) == Classify(text) && Classify(text + [c]) == Classify(text)
  {
    ParseIntIgnoresSpace(text, c);
  }

  /** Side effects of the popup, in order. */
  datatype PopupEvent =
    | ErrorShown(title: string, message: string)
    | FocusForced
    | InputReceived(count: int)
    | WindowDestroyed

  /** How the call `receive_input_popupbox(count)` ends. The callback belongs to the main window,
      which is not part of this model; a `ValueError` it raises is caught by the popup's own
      `except ValueError`. */
  datatype CallbackResult = Returned | RaisedValueError

  class ShuffleInputPopupBox {
    var entryText: string
    var events: seq<PopupEvent>

    constructor (entryText: string)
      ensures this.entryText == entryText && events == []
    {
      this.entryText, events := entryText, [];
    }

    /** `get_input_popupbox`: on an accepted count, one call of `receive_input_popupbox` with it
        and then the window is destroyed; otherwise an error box and the focus back on the
        popup, and the callback is not called. A `ValueError` from the callback is handled like
        text that is not a number, and the window stays open. */
    method GetInputPopupbox(callback: CallbackResult)
      modifies this
      ensures entryText == old(entryText)
      ensures var v := Classify(entryText);
              if !v.Accepted? then
                events == old(events) + [ErrorShown("Invalid Input", ErrorMessage(v)), FocusForced]
              else if callback == Returned then
                events == old(events) + [InputReceived(v.count), WindowDestroyed]
              else
                events == old(events) + [InputReceived(v.count),
                                         ErrorShown("Invalid Input", ErrorMessage(NotANumber)), FocusForced]
    {
      var verdict := Classify(entryText);
      if !verdict.Accepted? {
        events := events + [ErrorShown("Invalid Input", ErrorMessage(verdict)), FocusForced];
        return;
      }
      events := events + [InputReceived(verdict.count)];
      if callback == RaisedValueError {
        events := events + [ErrorShown("Invalid Input", ErrorMessage(NotANumber)), FocusForced];
        return;
      }
      events := events + [WindowDestroyed];
    }
  }
}
