/**
 * The host editor as the easymotion handler sees it: one caret, the Vim
 * emulation's visual mode and operator-pending flag, the caret's selection
 * and its anchor, the jump list and the temporary reset key binding.
 *
 * The host's own implementations (IdeaVim's `vimSetSelection`,
 * `enterVisualMode`, `saveJumpLocation`, `ResetAction`) are not part of this
 * model; each is reduced to the state update it makes visible to the handler.
 */
module HostEditor {
  import opened Wrappers

  /** The visual sub-mode a selection is made in. */
  datatype SubMode = VisualCharacter | VisualLine

  /** A selection from `start` to `end` (document offsets). */
  datatype Span = Span(start: int, end: int)

  /** A snapshot of the editor state the handler reads and writes. */
  datatype Host = Host(
    caret: int,
    visual: Option<SubMode>,
    anchor: int,
    operatorPending: bool,
    selection: Option<Span>,
    jumps: seq<int>,
    resetRegistered: bool)

  /** The effect of `vimSetSelection(start, end, moveCaret)` on the caret. */
  function WithSelection(e: Host, start: int, end: int, moveCaret: bool): Host {
    e.(anchor := start, selection := Some(Span(start, end)),
       caret := if moveCaret then end else e.caret)
  }

  class Editor {
    var caret: int
    var visual: Option<SubMode>
    /** The caret's visual selection start (`vimSelectionStart`). */
    var anchor: int
    var operatorPending: bool
    var selection: Option<Span>
    /** Caret offsets saved in the jump list, oldest first. */
    var jumps: seq<int>
    var resetRegistered: bool

    function View(): Host
      reads this
    {
      Host(caret, visual, anchor, operatorPending, selection, jumps, resetRegistered)
    }

    constructor (initial: Host)
      ensures View() == initial
    {
      caret := initial.caret;
      visual := initial.visual;
      anchor := initial.anchor;
      operatorPending := initial.operatorPending;
      selection := initial.selection;
      jumps := initial.jumps;
      resetRegistered := initial.resetRegistered;
    }

    /** `vimSetSelection`: anchors the selection at `start`, spans it to `end`. */
    method SetSelection(start: int, end: int, moveCaret: bool)
      modifies this
      ensures View() == WithSelection(old(View()), start, end, moveCaret)
      ensures selection == Some(Span(start, end)) && anchor == start
      ensures caret == (if moveCaret then end else old(caret))
    {
      anchor := start;
      selection := Some(Span(start, end));
      if moveCaret {
        caret := end;
      }
    }

    /** `enterVisualMode`: switches to visual mode of the given kind. */
    method EnterVisualMode(mode: SubMode)
      modifies this
      ensures View() == old(View()).(visual := Some(mode))
    {
      visual := Some(mode);
    }

    /** `saveJumpLocation`: appends the current caret offset to the jump list. */
    method SaveJumpLocation()
      modifies this
      ensures View() == old(View()).(jumps := old(jumps) + [old(caret)])
    {
      jumps := jumps + [caret];
    }

    /** `ResetAction.register`: installs the temporary reset key binding. */
    method RegisterReset()
      modifies this
      ensures View() == old(View()).(resetRegistered := true)
    {
      resetRegistered := true;
    }

    /** `ResetAction.unregister`: removes the temporary reset key binding. */
    method UnregisterReset()
      modifies this
      ensures View() == old(View()).(resetRegistered := false)
    {
      resetRegistered := false;
    }

    /**
     * The jump session's only effect on the editor: the caret lands on the
     * chosen target, or stays where it is when the session is cancelled.
     */
    method Land(target: Option<int>)
      modifies this
      ensures View() == old(View()).(caret := target.GetOr(old(caret)))
    {
      if target.Some? {
        caret := target.value;
      }
    }
  }
}
