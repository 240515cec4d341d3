# IdeaVim-EasyMotion handler state machine, in Dafny

IdeaVim-EasyMotion binds the Vim emulation's easymotion commands to the AceJump
jump-session engine. Each command is a handler (`EasyHandlerBase`, configured
by its processor's `MotionType`). One invocation goes through these steps:

1. `beforeAction` captures the visual-mode anchor and the caret offset.
2. The AceJump session starts.
3. `rightAfterAction` saves a jump-list entry and registers a temporary reset
   key binding.
4. When the session finishes, `finish` runs. It rebuilds the visual selection
   from the anchor. In operator-pending mode it turns the jump into a
   character-wise or line-wise range, or none, depending on the motion type and
   the direction of the jump. It decides whether the jump entry should be rolled
   back. Then it unregisters the binding and clears the captured caret.

The project has four modules:

- `Wrappers` (wrappers.dfy): `Option`, which stands for Kotlin's nullable `Int?`.
- `HostEditor` (host_editor.dfy): the editor state that the handler reads and
  writes. It is a value type `Host` plus a class `Editor` with one method per
  host call. Those methods are `vimSetSelection`, `enterVisualMode`,
  `saveJumpLocation`, `ResetAction.register`/`unregister`, and the caret
  landing at the end of a session.
- `Processors` (processors.dfy): `MotionType` and the handler. The steps are
  pure functions (`Capture`, `SaveAndRegister`, `OperatorSelectionType`,
  `FinishStep`, `Invoke`) whose contracts state what the handler promises.
  Class `EasyHandler` performs the same steps on an `Editor`, statement by
  statement, and is proved to agree with those functions.
- `JumpHistory` (jump_history.dfy): the jump list over a series of invocations.
  This module holds the finding below.

Document offsets are unbounded `int`s. The source's `Int` offsets are only
compared and never computed with, so no overflow can arise. There is a single
caret, so `caretModel.offset` and `currentCaret.offset` are the same value.

The program's own intent and its code disagree on one point. The comment at
src/main/kotlin/org/jetbrains/plugins/extension/easymotion/Processors.kt:137
says the position is removed from the jump list when the caret has not moved.
The cancel test at
src/test/kotlin/org/jetbrains/plugins/extension/easymotion/EasyMotionJumpTest.kt:55-75
expects no stray entry: three entries after four invocations, one of them
cancelled. But the code at Processors.kt:139 calls `dropLast(1)`, which
returns a new list and discards it. The model follows the code.
`EasyHandler.Finish` returns the rollback decision and leaves the jump list
unchanged. The intended removal is modelled separately (see "## Findings").

## Model

| member | source | states |
|---|---|---|
| `HostEditor.Editor.SetSelection` | src/main/kotlin/org/jetbrains/plugins/extension/easymotion/Processors.kt:117 | `vimSetSelection(start, end, moveCaret)` anchors the selection at `start`, spans it to `end`, and moves the caret to `end` only when asked |
| `HostEditor.Editor.EnterVisualMode` | src/main/kotlin/org/jetbrains/plugins/extension/easymotion/Processors.kt:132 | entering visual mode sets the sub-mode and nothing else |
| `HostEditor.Editor.SaveJumpLocation` | src/main/kotlin/org/jetbrains/plugins/extension/easymotion/Processors.kt:108-109 | saving a jump location appends the current caret offset to the jump list and changes nothing else |
| `HostEditor.Editor.RegisterReset` | src/main/kotlin/org/jetbrains/plugins/extension/easymotion/Processors.kt:111 | the reset binding is registered and nothing else changes |
| `HostEditor.Editor.UnregisterReset` | src/main/kotlin/org/jetbrains/plugins/extension/easymotion/Processors.kt:142 | the reset binding is unregistered and nothing else changes |
| `HostEditor.Editor.Land` | src/main/kotlin/org/jetbrains/plugins/extension/easymotion/Processors.kt:55-61 | a completed session leaves the caret on the chosen target, and a cancelled one leaves it where it was |
| `Processors.Capture` | src/main/kotlin/org/jetbrains/plugins/extension/easymotion/Processors.kt:102-105 | the start selection is the caret's anchor exactly when the editor is in visual mode, and null otherwise; the initial offset is always the caret offset |
| `Processors.SaveAndRegister` | src/main/kotlin/org/jetbrains/plugins/extension/easymotion/Processors.kt:107-112 | exactly one jump entry is appended, holding the current caret; the reset binding is registered; nothing else changes |
| `Processors.OperatorSelectionType` | src/main/kotlin/org/jetbrains/plugins/extension/easymotion/Processors.kt:123-130 | LINE gives line-wise; INCLUSIVE gives character-wise; BIDIRECTIONAL_INCLUSIVE gives character-wise iff the jump goes strictly forward; EXCLUSIVE, a backward jump or no movement give none (each as an if-and-only-if) |
| `Processors.FinishStep` | src/main/kotlin/org/jetbrains/plugins/extension/easymotion/Processors.kt:114-145 | `finish` never moves the caret and never touches the jump list; it always unregisters the binding and clears the initial offset while keeping the start selection. With no initial offset or no pending operator there is no operator range. Otherwise the motion-type/direction table picks the range, which enters that visual mode and selects from the initial offset to the caret. Without a range, a start selection is re-selected up to the caret and the mode is kept. Rollback is requested iff the initial offset is non-null and equals the caret |
| `Processors.Invoke` | src/main/kotlin/org/jetbrains/plugins/extension/easymotion/Processors.kt:51-65 | a whole invocation adds exactly one jump entry (the starting caret) and leaves the caret on the target; it ends with the binding unregistered and no initial offset. It requests rollback iff the session was cancelled or landed on the starting caret. Its operator range follows the table for a jump from the starting caret to the target |
| `Processors.CancelledOperatorInvocation` | src/main/kotlin/org/jetbrains/plugins/extension/easymotion/Processors.kt:122-134 | a cancelled invocation in operator-pending mode still goes through the table with no movement. LINE gives a line-wise range and INCLUSIVE a character-wise one, both selecting the empty span at the starting caret. EXCLUSIVE and BIDIRECTIONAL_INCLUSIVE give no range; the rollback is requested in every case |
| `Processors.FinishTwice` | src/main/kotlin/org/jetbrains/plugins/extension/easymotion/Processors.kt:114-145 | a second `finish` without a fresh `beforeAction` applies no operator range and requests no rollback, but re-applies the start-selection span up to the caret |
| `Processors.EasyHandler.constructor` | src/main/kotlin/org/jetbrains/plugins/extension/easymotion/Processors.kt:97-100 | a new handler keeps its processor's motion type and starts with both fields null |
| `Processors.EasyHandler.BeforeAction` | src/main/kotlin/org/jetbrains/plugins/extension/easymotion/Processors.kt:102-105 | the handler fields become `Capture` of the editor, and the editor is not modified |
| `Processors.EasyHandler.RightAfterAction` | src/main/kotlin/org/jetbrains/plugins/extension/easymotion/Processors.kt:107-112 | the editor becomes `SaveAndRegister` of its previous state |
| `Processors.EasyHandler.Finish` | src/main/kotlin/org/jetbrains/plugins/extension/easymotion/Processors.kt:114-145 | the handler fields, the editor, the returned operator range and the returned rollback decision are exactly those of `FinishStep` on the previous state |
| `Processors.EasyHandler.Execute` | src/main/kotlin/org/jetbrains/plugins/extension/easymotion/Processors.kt:51-65 | `beforeAction`, `rightAfterAction`, the landing and `finish` in that order produce exactly `Invoke` of the previous editor state |
| `JumpHistory.RunJumps` | src/main/kotlin/org/jetbrains/plugins/extension/easymotion/Processors.kt:107-112 | as written, any series of invocations appends one entry per invocation, at the caret that invocation started from, cancelled or not. The caret ends on the last landing, and the binding is unregistered afterwards |
| `JumpHistory.CancelAfterJump` | src/main/kotlin/org/jetbrains/plugins/extension/easymotion/Processors.kt:137-140 | after a jump from p0 to p1 and then a cancelled session, the list as written holds [p0, p1], with `saveJumpLocation` modelled as a plain append; with the rollback carried out it holds [p0] |
| `JumpHistory.CancelLeavesStrayEntry` | src/main/kotlin/org/jetbrains/plugins/extension/easymotion/Processors.kt:137-140 | as written, a cancelled invocation requests the rollback but still leaves its jump entry |
| `JumpHistory.DropRolledBack` | src/main/kotlin/org/jetbrains/plugins/extension/easymotion/Processors.kt:137-139 | `dropLast(1)` with its result kept: what remains is a prefix of the jump list, one entry shorter exactly when a rollback was requested and the list was not empty |
| `JumpHistory.InvokeIntended` | src/main/kotlin/org/jetbrains/plugins/extension/easymotion/Processors.kt:137-140 | with the rollback carried out, an invocation adds the starting caret to the jump list iff the caret moved; every other part of the outcome equals `Invoke` |
| `JumpHistory.RunIntendedJumps` | src/main/kotlin/org/jetbrains/plugins/extension/easymotion/Processors.kt:137-140 | with the rollback carried out, any series of invocations adds exactly the starting carets of the invocations that moved, in order. No cancelled session leaves an entry |
| `JumpHistory.SkippingScenario` | src/test/kotlin/org/jetbrains/plugins/extension/easymotion/EasyMotionJumpTest.kt:48-85 | four invocations, one of them cancelled, leave exactly three entries at p0, p1, p2 when the rollback is carried out, as the test asserts. As written, with `saveJumpLocation` modelled as a plain append, they leave four (p0, p1, p1, p2) |

## Left out

- The AceJump session (`SessionManager.start`, `Session`, listener registration and removal, Processors.kt:55-62) is an external engine. It is reduced to where the caret lands: a target offset, or none on cancel. The mark and query strings it passes to `finished` are not modelled.
- The processor hooks `customization` and `onFinish` have empty default bodies. They are modelled as no-ops, so `finish`'s `query` argument has no effect and is not a parameter.
- The internals of the host calls (`vimSetSelection`, `enterVisualMode`, `saveJumpLocation`, `CommandState`, `ResetAction`) are foreign code. Each is an abstract state update. In particular, any de-duplication that `saveJumpLocation` performs is not modelled: it always appends.
- `TestObject` / `TestHandler` (Processors.kt:69-95) is test scaffolding that pumps the IDE event queue. It is not part of this model.
- src/test/kotlin/org/jetbrains/AceExtensionTest.kt is an IDE test harness (key dispatch, event-queue flushing, timed waits). It is not part of this model.
- Processors.Invoke: what the temporary reset binding (registered at Processors.kt:111) does when the user cancels a session is not modelled. A cancel only leaves the caret where it was and keeps the operator-pending flag. So in this model a cancelled operator-pending LINE or INCLUSIVE invocation still applies a range at the starting caret, as the code at Processors.kt:122-134 reads (see `CancelledOperatorInvocation`). The host may leave operator-pending mode on that key first, and then no range would be applied.
- Multiple carets, the UI thread and IDE actions are out of scope. The handler runs on one thread, one step after another.

## Findings

| source | as written | input that shows it | evidently intended | confidence | as-written member | corrected member |
|---|---|---|---|---|---|---|
| src/main/kotlin/org/jetbrains/plugins/extension/easymotion/Processors.kt:137-140 | `jumps.dropLast(1)` returns a new list and discards it, so the entry saved at line 109 stays even when the caret did not move | a jump from p0 to p1, then a cancelled session at p1: straight after the cancel the jump list is [p0, p1] instead of the intended [p0] (with `saveJumpLocation` modelled as a plain append; a later save on the same line may replace the stray entry in the host, which is how the skipping test still sees three entries) | remove the entry just saved when the caret did not move, so a cancelled session leaves no stray entry | high that the call has no effect (Kotlin's `dropLast` does not mutate); the host's same-line de-duplication in `saveJumpLocation` is outside this model; not executed | `JumpHistory.CancelAfterJump` | `JumpHistory.RunIntendedJumps` |
