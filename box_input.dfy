/**
 * The boxed text input with a floating label (src/components/input/BoxStringInput.js).
 * The label is raised (`active`) while the input has focus or holds text.
 */
module BoxStringInput {
  import opened Wrappers
  import opened Text

  const MaxLines := 3

  /** What the input hands to `onChangeText`: the edit, cut to `maxLength` when one is given. */
  function Typed(newText: string, maxLength: Option<nat>): (typed: string)
    ensures maxLength.None? ==> typed == newText
    ensures maxLength.Some? ==> |typed| <= maxLength.value && |typed| <= |newText| && typed == newText[..|typed|]
  {
    match maxLength
    case None => newText
    case Some(n) => CapLength(newText, n)
  }

  class Input {
    var text: string
    var active: bool
    const maxLength: Option<nat>

    /** The mount effect raises the label iff the initial text is non-empty. */
    constructor(text: string, maxLength: Option<nat>)
      ensures this.text == text && this.maxLength == maxLength
      ensures active <==> |text| > 0
    {
      this.text := text;
      this.maxLength := maxLength;
      active := |text| > 0;
    }

    /** `onChangeText(newText)`: text of at most 3 lines is accepted, anything longer is dropped. */
    method OnChangeText(newText: string)
      modifies this
      ensures LineCount(Typed(newText, maxLength)) <= MaxLines ==> text == Typed(newText, maxLength)
      ensures LineCount(Typed(newText, maxLength)) > MaxLines ==> text == old(text)
      ensures LineCount(old(text)) <= MaxLines ==> LineCount(text) <= MaxLines
      ensures active == old(active)
    {
      var numLines := LineCount(Typed(newText, maxLength));
      if numLines <= MaxLines {
        text := Typed(newText, maxLength);
      }
    }

    /** `onFocus` */
    method Focus()
      modifies this
      ensures active && text == old(text)
    {
      if !active {
        active := true;
      }
    }

    /** `onBlur`, that is `checkInput()`: the label drops iff the input is empty. */
    method Blur()
      modifies this
      ensures active <==> old(active) && |text| > 0
      ensures text == old(text)
    {
      var s := text;
      if |s| == 0 {
        if active {
          active := false;
        }
      }
    }

    /** Focusing and then leaving the input leaves the label raised iff it holds text. */
    method FocusThenBlur()
      modifies this
      ensures active <==> |text| > 0
      ensures text == old(text)
    {
      Focus();
      Blur();
    }
  }
}
