/**
 * The per-invocation state machine of an easymotion handler
 * (`EasyHandlerBase`): capture the caret before the jump, save a jump and
 * register the reset binding right after the session starts, and on
 * completion rebuild the visual selection, turn the jump into an operator
 * range according to the processor's `MotionType`, decide whether the jump
 * entry should be rolled back, unregister the binding and clear the state.
 *
 * The pure functions below describe each step on values; the class
 * `EasyHandler` performs the same steps on an `Editor` and is proved to agree
 * with them.
 */
module Processors {
  import opened Wrappers
  import opened HostEditor

  /** How a completed jump becomes a selection in operator-pending mode. */
  datatype MotionType = Inclusive | Exclusive | BidirectionalInclusive | Line

  /** The handler's two fields: the visual anchor and the pre-jump caret. */
  datatype HandlerState = HandlerState(startSelection: Option<int>, initialOffset: Option<int>)

  /**
   * What `finish` leaves behind: the handler fields, the editor, the
   * selection kind applied as an operator range (None when none is), and
   * whether it asked for the jump entry to be removed.
   */
  datatype Finished = Finished(
    handler: HandlerState,
    host: Host,
    operatorRange: Option<SubMode>,
    rollback: bool)

  /** `beforeAction`: the handler fields captured from the editor. */
  function Capture(e: Host): (h: HandlerState)
    ensures h.initialOffset == Some(e.caret)
    ensures h.startSelection.Some? <==> e.visual.Some?
    ensures e.visual.Some? ==> h.startSelection == Some(e.anchor)
  {
    HandlerState(if e.visual.Some? then Some(e.anchor) else None, Some(e.caret))
  }

  /**
   * `rightAfterAction`: one jump entry at the current caret, then the reset
   * binding; nothing else in the editor changes (the customization hook is a
   * no-op).
   */
  function SaveAndRegister(e: Host): (r: Host)
    ensures |r.jumps| == |e.jumps| + 1
    ensures r.jumps[..|e.jumps|] == e.jumps && r.jumps[|e.jumps|] == e.caret
    ensures r.resetRegistered
    ensures r.(jumps := e.jumps, resetRegistered := e.resetRegistered) == e
  {
    e.(jumps := e.jumps + [e.caret]).(resetRegistered := true)
  }

  /**
   * The selection kind an operator-pending jump from `initial` to `final`
   * produces: line-wise for LINE, character-wise for INCLUSIVE and for a
   * strictly forward BIDIRECTIONAL_INCLUSIVE jump, none otherwise.
   */
  function OperatorSelectionType(m: MotionType, initial: int, final: int): (r: Option<SubMode>)
    ensures r == Some(VisualLine) <==> m == Line
    ensures r == Some(VisualCharacter) <==> m == Inclusive || (m == BidirectionalInclusive && initial < final)
    ensures r == None <==> m == Exclusive || (m == BidirectionalInclusive && final <= initial)
  {
    match m
    case Line => Some(VisualLine)
    case Inclusive => Some(VisualCharacter)
    case BidirectionalInclusive => if initial < final then Some(VisualCharacter) else None
    case Exclusive => None
  }

  /**
   * `finish`, after the session has moved the caret (or not). Its contract is
   * the decision table and the bookkeeping the handler promises.
   */
  function FinishStep(m: MotionType, h: HandlerState, e: Host): (o: Finished)
    // the handler forgets the pre-jump caret but keeps the visual anchor
    ensures o.handler == HandlerState(h.startSelection, None)
    // the caret, the jump list and the operator-pending flag are left alone,
    // and the reset binding is always gone
    ensures o.host.caret == e.caret && o.host.jumps == e.jumps
    ensures o.host.operatorPending == e.operatorPending && !o.host.resetRegistered
    // no operator range without a captured caret and a pending operator
    ensures h.initialOffset.None? || !e.operatorPending ==> o.operatorRange.None?
    // the decision table over the motion type and the direction of the jump
    ensures h.initialOffset.Some? && e.operatorPending ==>
      && (o.operatorRange == Some(VisualLine) <==> m == Line)
      && (o.operatorRange == Some(VisualCharacter) <==>
            m == Inclusive || (m == BidirectionalInclusive && h.initialOffset.value < e.caret))
    // a chosen kind is entered and selects from the pre-jump caret to the caret
    ensures o.operatorRange.Some? ==>
      && h.initialOffset.Some?
      && o.host.visual == o.operatorRange
      && o.host.selection == Some(Span(h.initialOffset.value, e.caret))
      && o.host.anchor == h.initialOffset.value
    // otherwise the mode is unchanged and a visual anchor is re-selected up to the caret
    ensures o.operatorRange.None? ==>
      && o.host.visual == e.visual
      && (h.startSelection.Some? ==>
            o.host.selection == Some(Span(h.startSelection.value, e.caret))
            && o.host.anchor == h.startSelection.value)
      && (h.startSelection.None? ==> o.host.selection == e.selection && o.host.anchor == e.anchor)
    // the jump entry is to be removed exactly when the caret did not move
    ensures o.rollback <==> h.initialOffset == Some(e.caret)
  {
    var e1 := if h.startSelection.Some? then WithSelection(e, h.startSelection.value, e.caret, false) else e;
    var range :=
      if h.initialOffset.Some? && e1.operatorPending
      then OperatorSelectionType(m, h.initialOffset.value, e1.caret)
      else None;
    var e2 :=
      if range.Some?
      then WithSelection(e1.(visual := range), h.initialOffset.value, e1.caret, true)
      else e1;
    var rollback := h.initialOffset.Some? && h.initialOffset.value == e2.caret;
    Finished(HandlerState(h.startSelection, None), e2.(resetRegistered := false), range, rollback)
  }

  /**
   * One whole invocation of a standard handler: `beforeAction`, session
   * start, `rightAfterAction`, the caret landing on `target` (None: the
   * session was cancelled), then `finish`.
   */
  function Invoke(m: MotionType, e: Host, target: Option<int>): (o: Finished)
    ensures o.host.caret == target.GetOr(e.caret)
    ensures o.host.jumps == e.jumps + [e.caret]
    ensures !o.host.resetRegistered && o.handler.initialOffset.None?
    ensures o.handler.startSelection == (if e.visual.Some? then Some(e.anchor) else None)
    ensures o.rollback <==> target.None? || target == Some(e.caret)
    ensures !e.operatorPending ==> o.operatorRange.None?
    ensures e.operatorPending ==> o.operatorRange == OperatorSelectionType(m, e.caret, o.host.caret)
  {
    var h := Capture(e);
    var e1 := SaveAndRegister(e);
    FinishStep(m, h, e1.(caret := target.GetOr(e1.caret)))
  }

  /**
   * A cancelled session in operator-pending mode is, to `finish`, a jump
   * that did not move: LINE and INCLUSIVE still apply a range over the empty
   * span at the starting caret, while EXCLUSIVE and BIDIRECTIONAL_INCLUSIVE
   * apply none. The rollback is requested either way.
   */
  lemma CancelledOperatorInvocation(m: MotionType, e: Host)
    requires e.operatorPending
    ensures var o := Invoke(m, e, None);
            && o.rollback
            && o.host.caret == e.caret
            && (m == Line ==> o.operatorRange == Some(VisualLine))
            && (m == Inclusive ==> o.operatorRange == Some(VisualCharacter))
            && (m == Exclusive || m == BidirectionalInclusive ==> o.operatorRange.None?)
            && (o.operatorRange.Some? ==> o.host.selection == Some(Span(e.caret, e.caret)))
  {
  }

  /**
   * A second `finish` without a fresh `beforeAction` applies no operator
   * range and asks for no rollback, but re-selects from the visual anchor.
   */
  lemma FinishTwice(m: MotionType, h: HandlerState, e: Host)
    ensures var o1 := FinishStep(m, h, e);
            var o2 := FinishStep(m, o1.handler, o1.host);
            && o2.operatorRange.None? && !o2.rollback
            && o2.handler == o1.handler
            && o2.host.jumps == e.jumps && o2.host.caret == e.caret
            && (h.startSelection.Some? ==> o2.host.selection == Some(Span(h.startSelection.value, e.caret)))
  {
  }

  /** The handler object; `motionType` is its processor's. */
  class EasyHandler {
    const motionType: MotionType
    var startSelection: Option<int>
    var initialOffset: Option<int>

    function State(): HandlerState
      reads this
    {
      HandlerState(startSelection, initialOffset)
    }

    constructor (motionType: MotionType)
      ensures this.motionType == motionType
      ensures State() == HandlerState(None, None)
    {
      this.motionType := motionType;
      startSelection := None;
      initialOffset := None;
    }

    method BeforeAction(editor: Editor)
      modifies this
      ensures State() == Capture(editor.View())
    {
      startSelection := if editor.visual.Some? then Some(editor.anchor) else None;
      initialOffset := Some(editor.caret);
    }

    method RightAfterAction(editor: Editor)
      modifies editor
      ensures editor.View() == SaveAndRegister(old(editor.View()))
    {
      editor.SaveJumpLocation();
      editor.RegisterReset();
    }

    /**
     * Returns the operator range it applied and whether it asked for the
     * jump entry to be removed; the jump list itself is not changed.
     */
    method Finish(editor: Editor) returns (operatorRange: Option<SubMode>, rollback: bool)
      modifies this, editor
      ensures var o := FinishStep(motionType, old(State()), old(editor.View()));
              && State() == o.handler && editor.View() == o.host
              && operatorRange == o.operatorRange && rollback == o.rollback
    {
      if startSelection.Some? {
        editor.SetSelection(startSelection.value, editor.caret, false);
      }
      var myInitialOffset := initialOffset;
      operatorRange := None;
      if myInitialOffset.Some? && editor.operatorPending {
        operatorRange := OperatorSelectionType(motionType, myInitialOffset.value, editor.caret);
        if operatorRange.Some? {
          editor.EnterVisualMode(operatorRange.value);
          editor.SetSelection(myInitialOffset.value, editor.caret, true);
        }
      }
      rollback := myInitialOffset.Some? && myInitialOffset.value == editor.caret;
      editor.UnregisterReset();
      initialOffset := None;
    }

    /**
     * A standard handler's `execute` followed by the session's completion,
     * with the session reduced to where the caret lands.
     */
    method Execute(editor: Editor, target: Option<int>) returns (operatorRange: Option<SubMode>, rollback: bool)
      modifies this, editor
      ensures var o := Invoke(motionType, old(editor.View()), target);
              && State() == o.handler && editor.View() == o.host
              && operatorRange == o.operatorRange && rollback == o.rollback
    {
      BeforeAction(editor);
      RightAfterAction(editor);
      editor.Land(target);
      operatorRange, rollback := Finish(editor);
    }
  }
}
