/**
 * The two-way synchronisation guard of the Telegraph window, as values.
 *
 * The window holds two linked text buffers (the plain message and its Morse
 * rendering). Every change of either buffer fires a `changed` notification.
 * A genuine change is translated into the other buffer; the notifications
 * that this programmatic write fires in its turn are "echoes" and must be
 * swallowed, otherwise the translation would bounce back into the edited
 * buffer. The guard is a counter (`timeoutBuffer`) and the slot whose next
 * notifications are suppressed (`updatedBuffer`).
 *
 * This module gives the meaning of one notification as a function on a
 * `WindowState` value; the class in window.dfy is proved against it.
 */
module Guard {
  import opened Wrappers

  /** The two text buffers of the window. */
  datatype Slot = Message | Morse

  /**
   * How many `changed` notifications the window assumes one programmatic
   * `set_text` fires: it arms its counter with this value before every write.
   */
  const EchoesPerWrite: nat := 2

  /**
   * The text codec, `translate_to` (plain text to Morse) and
   * `translate_from` (Morse to plain text). Its definition is not part of
   * this model: any pair of total functions will do.
   */
  datatype Codec = Codec(translateTo: string -> string, translateFrom: string -> string)

  /** What the handler reads and writes: both buffers, the guard, both copy buttons. */
  datatype WindowState = WindowState(
    message: string,
    morse: string,
    timeoutBuffer: nat,
    updatedBuffer: Option<Slot>,
    messageCopyEnabled: bool,
    morseCopyEnabled: bool)

  /** The slot a change of `s` is translated into. */
  function Other(s: Slot): (o: Slot)
    ensures o != s
  {
    if s == Message then Morse else Message
  }

  /** The current text of a slot. */
  function Text(w: WindowState, s: Slot): string
  {
    if s == Message then w.message else w.morse
  }

  /** `translate_to` for a change of the message, `translate_from` for a change of the Morse text. */
  function Translate(c: Codec, s: Slot, text: string): string
  {
    if s == Message then c.translateTo(text) else c.translateFrom(text)
  }

  /** The guard invariant: the counter is at most one write's echoes, and it is zero exactly when no slot is suppressed. */
  predicate Inv(w: WindowState)
  {
    w.timeoutBuffer <= EchoesPerWrite &&
    (w.timeoutBuffer == 0 <==> w.updatedBuffer == None)
  }

  /** No suppression is pending. */
  predicate Idle(w: WindowState)
  {
    w.timeoutBuffer == 0 && w.updatedBuffer == None
  }

  /** A notification on `s` is an echo of the window's own write. */
  predicate IsEcho(w: WindowState, s: Slot)
  {
    w.timeoutBuffer > 0 && w.updatedBuffer == Some(s)
  }

  /** Each copy button is enabled exactly when its own slot holds some text. */
  predicate CopyButtonsMatch(w: WindowState)
  {
    (w.messageCopyEnabled <==> w.message != "") &&
    (w.morseCopyEnabled <==> w.morse != "")
  }

  /** Replace the text of slot `s`, leaving everything else as it was. */
  function WithText(w: WindowState, s: Slot, t: string): (r: WindowState)
    ensures Text(r, s) == t && Text(r, Other(s)) == Text(w, Other(s))
    ensures r.timeoutBuffer == w.timeoutBuffer && r.updatedBuffer == w.updatedBuffer
    ensures r.messageCopyEnabled == w.messageCopyEnabled && r.morseCopyEnabled == w.morseCopyEnabled
  {
    if s == Message then w.(message := t) else w.(morse := t)
  }

  /**
   * The early-return branch: one echo absorbed. The counter drops by one and
   * the suppressed slot is forgotten when it reaches zero; no text and no
   * copy button is touched.
   */
  function Absorb(w: WindowState): (r: WindowState)
    requires w.timeoutBuffer > 0
    ensures r.timeoutBuffer + 1 == w.timeoutBuffer
    ensures r.updatedBuffer == (if r.timeoutBuffer == 0 then None else w.updatedBuffer)
    ensures r.message == w.message && r.morse == w.morse
    ensures r.messageCopyEnabled == w.messageCopyEnabled && r.morseCopyEnabled == w.morseCopyEnabled
    ensures Inv(w) ==> Inv(r)
  {
    var n := w.timeoutBuffer - 1;
    w.(timeoutBuffer := n, updatedBuffer := if n == 0 then None else w.updatedBuffer)
  }

  /** Suppression armed for the slot about to be written: a full write's echoes are pending on it. */
  function Arm(w: WindowState, target: Slot): (r: WindowState)
    ensures Inv(r) && IsEcho(r, target) && r.timeoutBuffer == EchoesPerWrite
    ensures r.message == w.message && r.morse == w.morse
    ensures r.messageCopyEnabled == w.messageCopyEnabled && r.morseCopyEnabled == w.morseCopyEnabled
  {
    w.(timeoutBuffer := EchoesPerWrite, updatedBuffer := Some(target))
  }

  /**
   * The first `n` echoes of a write into `target`, each absorbed by the
   * guard: the counter drops by `n`, the target is cleared when the counter
   * reaches zero, and nothing else changes.
   */
  function DeliverEchoes(w: WindowState, target: Slot, n: nat): (r: WindowState)
    requires n <= w.timeoutBuffer && (n > 0 ==> w.updatedBuffer == Some(target))
    ensures r == w.(timeoutBuffer := w.timeoutBuffer - n,
                    updatedBuffer := if n > 0 && n == w.timeoutBuffer then None else w.updatedBuffer)
    decreases n
  {
    if n == 0 then w else DeliverEchoes(Absorb(w), target, n - 1)
  }

  /** The copy buttons recomputed from the current texts. */
  function Refresh(w: WindowState): (r: WindowState)
    ensures CopyButtonsMatch(r)
    ensures r.message == w.message && r.morse == w.morse
    ensures r.timeoutBuffer == w.timeoutBuffer && r.updatedBuffer == w.updatedBuffer
  {
    w.(messageCopyEnabled := w.message != "", morseCopyEnabled := w.morse != "")
  }

  /** What a genuine change of `s` writes into the other slot. */
  function Output(c: Codec, w: WindowState, s: Slot): string
  {
    Translate(c, s, Text(w, s))
  }

  /** The state right after the translated text was written into the other slot, before its echoes arrive. */
  function Written(c: Codec, w: WindowState, s: Slot): (r: WindowState)
    ensures Inv(r) && IsEcho(r, Other(s)) && r.timeoutBuffer == EchoesPerWrite
    ensures Text(r, s) == Text(w, s) && Text(r, Other(s)) == Output(c, w, s)
  {
    WithText(Arm(w, Other(s)), Other(s), Output(c, w, s))
  }

  /**
   * A genuine change of `s`: translate its text, arm the guard for the other
   * slot, write the translation there (its echoes are absorbed during the
   * write), then recompute the copy buttons from the texts after the write.
   */
  function Propagate(c: Codec, w: WindowState, s: Slot): (r: WindowState)
    ensures Idle(r) && Inv(r)
    ensures Text(r, s) == Text(w, s)
    ensures Text(r, Other(s)) == Translate(c, s, Text(w, s))
    ensures CopyButtonsMatch(r)
  {
    Refresh(DeliverEchoes(Written(c, w, s), Other(s), EchoesPerWrite))
  }

  /** One `changed` notification on slot `s`, as the window's handler treats it. */
  function Changed(c: Codec, w: WindowState, s: Slot): (r: WindowState)
    ensures Inv(w) ==> Inv(r)
    ensures IsEcho(w, s) ==>
      r.timeoutBuffer + 1 == w.timeoutBuffer &&
      r.updatedBuffer == (if r.timeoutBuffer == 0 then None else Some(s)) &&
      r.message == w.message && r.morse == w.morse &&
      r.messageCopyEnabled == w.messageCopyEnabled && r.morseCopyEnabled == w.morseCopyEnabled
    ensures !IsEcho(w, s) ==>
      Idle(r) && Text(r, s) == Text(w, s) &&
      Text(r, Other(s)) == Translate(c, s, Text(w, s)) && CopyButtonsMatch(r)
  {
    if IsEcho(w, s) then Absorb(w) else Propagate(c, w, s)
  }

  /** A sequence of notifications, handled one after the other. */
  function Replay(c: Codec, w: WindowState, slots: seq<Slot>): WindowState
    decreases |slots|
  {
    if slots == [] then w else Replay(c, Changed(c, w, slots[0]), slots[1..])
  }

  /** A user edit: the user replaces the text of a slot. */
  datatype Edit = Edit(slot: Slot, text: string)

  /** The user's edit lands in its slot and fires one notification there. */
  function ApplyEdit(c: Codec, w: WindowState, e: Edit): WindowState
  {
    Changed(c, WithText(w, e.slot, e.text), e.slot)
  }

  /** A sequence of user edits, each propagated in full before the next. */
  function Session(c: Codec, w: WindowState, edits: seq<Edit>): WindowState
    decreases |edits|
  {
    if edits == [] then w else Session(c, ApplyEdit(c, w, edits[0]), edits[1..])
  }

  /** The window shows the edit `e` and its translation, with no suppression pending. */
  predicate Settled(c: Codec, w: WindowState, e: Edit)
  {
    Idle(w) && Text(w, e.slot) == e.text &&
    Text(w, Other(e.slot)) == Translate(c, e.slot, e.text) &&
    CopyButtonsMatch(w)
  }

  /** Whatever notifications arrive, in whatever order, the guard invariant holds after each. */
  lemma {:induction false} ReplayPreservesInv(c: Codec, w: WindowState, slots: seq<Slot>)
    requires Inv(w)
    ensures Inv(Replay(c, w, slots))
    decreases |slots|
  {
    if slots != [] {
      ReplayPreservesInv(c, Changed(c, w, slots[0]), slots[1..]);
    }
  }

  /**
   * Notifications on the suppressed slot, no more than the counter, all take
   * the early-return branch of the handler: replaying them through the full
   * handler is the same as absorbing them one by one.
   */
  lemma {:induction false} EchoesAreAbsorbed(c: Codec, w: WindowState, target: Slot, slots: seq<Slot>)
    requires |slots| <= w.timeoutBuffer && (|slots| > 0 ==> w.updatedBuffer == Some(target))
    requires forall i | 0 <= i < |slots| :: slots[i] == target
    ensures Replay(c, w, slots) == DeliverEchoes(w, target, |slots|)
    decreases |slots|
  {
    if slots != [] {
      assert IsEcho(w, slots[0]);
      EchoesAreAbsorbed(c, Absorb(w), target, slots[1..]);
    }
  }

  /**
   * After a genuine change of `s`, the write into the other slot and exactly
   * its echoes leave the guard idle, with the written slot holding the
   * translation and the edited slot holding the user's text: the
   * translation is never carried back into `s`.
   */
  lemma {:induction false} WriteEchoesNotRetranslated(c: Codec, w: WindowState, s: Slot)
    ensures var after := Replay(c, Written(c, w, s), seq(EchoesPerWrite, _ => Other(s)));
      Idle(after) && Text(after, s) == Text(w, s) && Text(after, Other(s)) == Output(c, w, s)
  {
    var echoes := seq(EchoesPerWrite, _ => Other(s));
    EchoesAreAbsorbed(c, Written(c, w, s), Other(s), echoes);
  }

  /**
   * A notification on the slot that is not the suppressed one is a genuine
   * change even while echoes are pending on the other slot: the pending
   * counter and target are overwritten and the change is propagated.
   */
  lemma PendingOnOtherSlotIsOverridden(c: Codec, w: WindowState, s: Slot)
    requires Inv(w) && w.updatedBuffer == Some(Other(s))
    ensures !IsEcho(w, s)
    ensures var r := Changed(c, w, s);
      Idle(r) && Text(r, s) == Text(w, s) && Text(r, Other(s)) == Translate(c, s, Text(w, s))
  {
  }

  /**
   * From an idle window, after any non-empty sequence of user edits, the
   * window is idle again and shows the last edit next to its translation,
   * with the copy buttons matching the texts.
   */
  lemma {:induction false} SessionSettles(c: Codec, w: WindowState, edits: seq<Edit>)
    requires Idle(w) && edits != []
    ensures Settled(c, Session(c, w, edits), edits[|edits| - 1])
    decreases |edits|
  {
    var next := ApplyEdit(c, w, edits[0]);
    assert Settled(c, next, edits[0]);
    if |edits| > 1 {
      SessionSettles(c, next, edits[1..]);
    }
  }

  /**
   * Why the counter must equal the number of echoes a write fires: if a
   * write fired only one notification, suppression would stay pending on
   * the written slot, and the user's next change there would be swallowed
   * without being translated.
   */
  lemma {:induction false} ShortEchoSwallowsNextEdit(c: Codec, w: WindowState, s: Slot, text: string)
    ensures var afterOne := Replay(c, Written(c, w, s), [Other(s)]);
      !Idle(afterOne) && IsEcho(afterOne, Other(s)) &&
      var swallowed := ApplyEdit(c, afterOne, Edit(Other(s), text));
      Text(swallowed, s) == Text(w, s) && Text(swallowed, Other(s)) == text
  {
    var written := Written(c, w, s);
    EchoesAreAbsorbed(c, written, Other(s), [Other(s)]);
  }
}
