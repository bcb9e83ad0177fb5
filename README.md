# Telegraph: the two-way sync guard

Telegraph is a desktop application that translates between plain text and
Morse code. Its window shows two editable text buffers, the message and
its Morse rendering. Editing either one retranslates it into the other.
Every change of a buffer fires a `changed` notification, including the
window's own programmatic writes. So the handler `__on_input_changed`
carries a small re-entrancy guard that swallows the notifications of its
own write:

- a counter, `timeout_buffer`;
- the slot whose notifications are suppressed, `updated_buffer`.

This project models that guard, the copy buttons' enabled flags that the
handler recomputes, and the empty-buffer rule of the copy action.

- `wrappers.dfy`: module `Wrappers`, the `Option` type used for `updated_buffer`.
- `guard.dfy`: module `Guard`, the specification as values. A
  `WindowState` holds both texts, the guard and both copy flags. `Changed`
  is the effect of one notification. `Replay` and `Session` are sequences
  of notifications and of user edits. The lemmas prove the guard's
  properties about these functions.
- `window.dfy`: module `Telegraph`, the class `TelegraphWindow`. It has
  the window's fields and methods that update them in place. Each method
  is proved against the matching function of `Guard`, and a ghost field
  `writes` logs every programmatic `set_text`.

The codec (`Utils.translate_to`, `Utils.translate_from`) is not part of
this model. It is a `Codec` value holding two arbitrary total functions
on strings, fixed when the window is constructed. Every property therefore
holds for any codec.

`EchoesPerWrite` (2) is the number of `changed` notifications the
handler assumes one `set_text` fires: it arms its counter with this value
before every write (src/window.py:67 and :74). In the application these
echoes run the handler re-entrantly from inside `set_text`. The model
delivers exactly `EchoesPerWrite` of them from `OnChanged` right after the
write, through the non-recursive `Echo` step, and before the copy flags
are recomputed. `Guard.EchoesAreAbsorbed` proves that running the full
handler on those notifications gives the same state.

An echo returns before the copy flags are recomputed (src/window.py:59),
so they keep their values; the model does the same.

## Model

| member | source | states |
|---|---|---|
| Guard.Absorb | src/window.py:56-59 | an echo drops the counter by exactly one and clears the suppressed slot when the counter reaches zero; it changes no text and no copy flag, and it preserves the guard invariant |
| Guard.Arm | src/window.py:67-68 | arming for the slot about to be written sets the counter to a full write's echoes with that slot as target, establishing the invariant; texts and flags are untouched |
| Guard.DeliverEchoes | src/window.py:56-59 | absorbing n echoes on the suppressed slot lowers the counter by n, clears the target exactly when the counter reaches zero, and changes nothing else |
| Guard.Refresh | src/window.py:78-92 | each copy flag is set to whether its own slot's current text is non-empty; texts and guard are untouched |
| Guard.Written | src/window.py:64-76 | just after a genuine change of s, the other slot holds s's translation (translate_to from the message, translate_from from Morse), s is unchanged, and suppression is armed for the other slot with a full counter |
| Guard.Propagate | src/window.py:61-92 | a genuine change of s ends idle, with s unchanged, the other slot holding the translation of s's text, and the copy flags matching the texts read after the write |
| Guard.Changed | src/window.py:55-92 | one notification preserves the guard invariant; an echo decrements the counter by one, keeps the same slot suppressed until the counter reaches zero and then clears it, and touches no text and no flag; any other notification leaves s unchanged, writes its translation into the other slot, ends idle and recomputes the flags |
| Guard.ReplayPreservesInv | src/window.py:55-76 | for any sequence of notifications from a state satisfying the invariant, the counter stays within 0..2 and is zero exactly when no slot is suppressed |
| Guard.EchoesAreAbsorbed | src/window.py:56-59 | notifications on the suppressed slot, no more than the counter, all take the early-return branch: replaying them through the full handler equals absorbing them |
| Guard.WriteEchoesNotRetranslated | src/window.py:64-76 | after a genuine change, the write and exactly its two echoes leave the guard idle, the written slot holding the translation and the edited slot still holding the user's text |
| Guard.PendingOnOtherSlotIsOverridden | src/window.py:56-76 | a notification on the slot that is not suppressed is genuine even while echoes are pending elsewhere; it overwrites the pending guard and propagates |
| Guard.SessionSettles | src/window.py:55-92 | from idle, after any non-empty sequence of user edits, the guard is idle again, the last edited slot holds its text, the other slot holds its translation, and the copy flags match |
| Guard.ShortEchoSwallowsNextEdit | src/window.py:56-59 | if a write fired one notification instead of two, suppression would stay pending on the written slot, and the user's next change there would not be translated |
| Telegraph.TelegraphWindow.constructor | src/window.py:48-49 | the window starts idle: no suppressed slot, counter zero, both buffers empty |
| Telegraph.TelegraphWindow.SetText | src/window.py:69 | a programmatic write replaces exactly one slot's text and is logged; nothing else changes |
| Telegraph.TelegraphWindow.Echo | src/window.py:56-59 | the early-return branch leaves the state equal to Guard.Absorb of the previous state and performs no write |
| Telegraph.TelegraphWindow.RefreshCopyButtons | src/window.py:78-92 | the new state is Guard.Refresh of the previous one |
| Telegraph.TelegraphWindow.OnChanged | src/window.py:55-92 | the handler keeps the invariant, its new state is Guard.Changed of the old one, and it performs exactly one write, to the opposite slot, on a genuine change and none on an echo |
| Telegraph.TelegraphWindow.UserEdit | src/window.py:39-43 | a user edit followed by its notification; from idle it settles with the user's text kept, the translation in the other slot, and exactly one write |
| Telegraph.TelegraphWindow.Copy | src/window.py:99-118 | copying an empty slot produces nothing (no clipboard value, no toast); otherwise the clipboard gets the slot's full text and the toast the slot's title |

## Left out

- The Morse codec (`Utils.translate_to`, `Utils.translate_from`): src/utils.py is not part of this model, so the codec is an arbitrary pair of functions.
- GTK/Adwaita wiring: template children, `connect` calls, `get_bounds`/`get_text`, and the toolkit's own emission of `changed`. The number of notifications per `set_text` appears only as the constant `EchoesPerWrite`.
- A write that fires fewer `changed` notifications than `EchoesPerWrite` (a write into an empty buffer, or of empty text, may fire only one): the model always delivers exactly `EchoesPerWrite` echoes. `Guard.ShortEchoSwallowsNextEdit` shows what happens then: suppression stays pending and the next edit of the written slot is not translated.
- Settings persistence through `Gio.Settings` (src/window.py:121-130): I/O.
- Clipboard and toast presentation (src/window.py:100-118): `Copy` returns the text and the toast's title instead of performing them. The titles are not passed through gettext.
- `__on_copy_button_clicked` (src/window.py:95-96) only forwards to `copy`. The button is given to `Copy` as the `Slot` it belongs to.
- Window set-up (src/window.py:28-37, 51-52): the devel CSS class, the size request, the initial "SOS" text and the focus grab. This is UI set-up, not logic.
- Telegraph.TelegraphWindow.constructor: sets both copy flags to false. Their initial sensitivity comes from the UI template, which is not part of this model.
- The case of a notification from a buffer that is neither of the two (src/window.py:64-76 falls through): `Slot` has exactly two values, so it cannot arise.
