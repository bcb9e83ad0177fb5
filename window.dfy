/**
 * The Telegraph window: two linked text buffers kept in sync through the
 * guard of module Guard, and the two copy buttons.
 */
module Telegraph {
  import opened Wrappers
  import opened Guard

  /** What pressing a copy button produces: nothing, or the clipboard text and the toast's title. */
  datatype CopyOutcome = NothingCopied | Copied(clipboard: string, toastTitle: string)

  class TelegraphWindow {
    var message: string
    var morse: string
    var timeoutBuffer: nat
    var updatedBuffer: Option<Slot>
    var messageCopyEnabled: bool
    var morseCopyEnabled: bool
    const codec: Codec

    /** Every programmatic `set_text` the window has performed, in order. */
    ghost var writes: seq<(Slot, string)>

    /** The window's fields as a value of the specification. */
    function State(): WindowState
      reads this
    {
      WindowState(message, morse, timeoutBuffer, updatedBuffer, messageCopyEnabled, morseCopyEnabled)
    }

    ghost predicate Valid()
      reads this
    {
      Inv(State())
    }

    /** Both buffers start empty, and no suppression is pending. */
    constructor (codec: Codec)
      ensures Valid() && Idle(State()) && this.codec == codec
      ensures message == "" && morse == ""
      ensures !messageCopyEnabled && !morseCopyEnabled
      ensures writes == []
    {
      this.codec := codec;
      message, morse := "", "";
      updatedBuffer := None;
      timeoutBuffer := 0;
      messageCopyEnabled, morseCopyEnabled := false, false;
      writes := [];
    }

    /** The buffer's `set_text`: replaces one slot's text; its notifications are delivered by the caller. */
    method SetText(s: Slot, t: string)
      modifies this
      ensures State() == WithText(old(State()), s, t)
      ensures writes == old(writes) + [(s, t)]
    {
      if s == Message {
        message := t;
      } else {
        morse := t;
      }
      writes := writes + [(s, t)];
    }

    /** The early-return branch of the handler: an echo of the window's own write is absorbed. */
    method Echo(s: Slot)
      requires IsEcho(State(), s)
      modifies this
      ensures State() == Absorb(old(State()))
      ensures writes == old(writes)
    {
      timeoutBuffer := timeoutBuffer - 1;
      updatedBuffer := if timeoutBuffer == 0 then None else updatedBuffer;
    }

    /** Each copy button is made sensitive exactly when its buffer holds text. */
    method RefreshCopyButtons()
      modifies this
      ensures State() == Refresh(old(State()))
      ensures writes == old(writes)
    {
      var morseOutput := morse;
      var textOutput := message;
      if |textOutput| == 0 {
        messageCopyEnabled := false;
      } else {
        messageCopyEnabled := true;
      }
      if |morseOutput| == 0 {
        morseCopyEnabled := false;
      } else {
        morseCopyEnabled := true;
      }
    }

    /**
     * The `changed` handler for slot `s`. An echo is absorbed; a genuine
     * change is translated, suppression is armed for the other slot, the
     * translation is written there and the write's echoes arrive, and then
     * the copy buttons are recomputed.
     */
    method OnChanged(s: Slot)
      requires Valid()
      modifies this
      ensures Valid()
      ensures State() == Changed(codec, old(State()), s)
      ensures writes == old(writes) +
        if IsEcho(old(State()), s) then [] else [(Other(s), Output(codec, old(State()), s))]
    {
      if timeoutBuffer > 0 && updatedBuffer == Some(s) {
        Echo(s);
        return;
      }
      var text := if s == Message then message else morse;
      var target := Other(s);
      var output := Translate(codec, s, text);
      timeoutBuffer := EchoesPerWrite;
      updatedBuffer := Some(target);
      SetText(target, output);
      ghost var written := State();
      assert written == Written(codec, old(State()), s);
      var delivered := 0;
      while delivered < EchoesPerWrite
        invariant delivered <= EchoesPerWrite
        invariant State() == DeliverEchoes(written, target, delivered)
        invariant writes == old(writes) + [(target, output)]
      {
        Echo(target);
        delivered := delivered + 1;
      }
      RefreshCopyButtons();
    }

    /** The user replaces the text of slot `s`; the buffer fires one notification. */
    method UserEdit(s: Slot, text: string)
      requires Valid()
      modifies this
      ensures Valid()
      ensures State() == ApplyEdit(codec, old(State()), Edit(s, text))
      ensures Idle(old(State())) ==> Settled(codec, State(), Edit(s, text))
      ensures Idle(old(State())) ==> writes == old(writes) + [(Other(s), Translate(codec, s, text))]
    {
      if s == Message {
        message := text;
      } else {
        morse := text;
      }
      OnChanged(s);
    }

    /** The title of the toast shown after copying slot `s`. */
    static function ToastTitle(s: Slot): string
    {
      if s == Message then "Message copied" else "Morse code copied"
    }

    /** A copy button: an empty buffer copies nothing; otherwise its full text goes to the clipboard, with a toast. */
    method Copy(s: Slot) returns (r: CopyOutcome)
      ensures r == NothingCopied <==> Text(State(), s) == ""
      ensures r != NothingCopied ==> r.clipboard == Text(State(), s) && r.toastTitle == ToastTitle(s)
    {
      var title := ToastTitle(s);
      var output := if s == Message then message else morse;
      if |output| == 0 {
        return NothingCopied;
      }
      r := Copied(output, title);
    }
  }
}
