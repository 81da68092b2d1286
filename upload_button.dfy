/**
 * The upload dialog's open state (src/components/UploadButton.tsx): one boolean
 * that the trigger sets and that the dialog's own close requests clear. Requests
 * from the dialog to open are ignored.
 */
module UploadButton {

  datatype DialogEvent =
    | TriggerClick                // the "Upload PDF" button
    | OpenChange(visible: bool)   // the dialog asks to be shown or hidden

  /** The trigger's `onClick`: open, whatever the state was. */
  function AfterTrigger(isOpen: bool): (r: bool)
    ensures r
  {
    true
  }

  /** The filtered `onOpenChange`: only a request to hide is honoured. */
  function AfterOpenChange(isOpen: bool, visible: bool): (r: bool)
    ensures !visible ==> !r
    ensures visible ==> r == isOpen
  {
    if !visible then visible else isOpen
  }

  function Step(isOpen: bool, e: DialogEvent): bool {
    match e
    case TriggerClick => AfterTrigger(isOpen)
    case OpenChange(visible) => AfterOpenChange(isOpen, visible)
  }

  function Run(isOpen: bool, es: seq<DialogEvent>): bool
    decreases |es|
  {
    if es == [] then isOpen else Run(Step(isOpen, es[0]), es[1..])
  }

  lemma {:induction false} RunAppend(isOpen: bool, a: seq<DialogEvent>, b: seq<DialogEvent>)
    ensures Run(isOpen, a + b) == Run(Run(isOpen, a), b)
    decreases |a|
  {
    if a != [] {
      assert (a + b)[0] == a[0] && (a + b)[1..] == a[1..] + b;
      RunAppend(Step(isOpen, a[0]), a[1..], b);
    } else {
      assert a + b == b;
    }
  }

  /** Without a click on the trigger the dialog never opens. */
  lemma {:induction false} OpensOnlyViaTrigger(isOpen: bool, es: seq<DialogEvent>)
    requires TriggerClick !in es
    ensures Run(isOpen, es) ==> isOpen
    decreases |es|
  {
    if es != [] {
      assert es[0] != TriggerClick;
      assert TriggerClick !in es[1..] by {
        forall i | 0 <= i < |es[1..]| ensures es[1..][i] != TriggerClick {
          assert es[1..][i] == es[i + 1];
        }
      }
      OpensOnlyViaTrigger(Step(isOpen, es[0]), es[1..]);
    }
  }

  /** After a click on the trigger, the dialog is open until it asks to be hidden. */
  lemma {:induction false} OpenUntilHidden(isOpen: bool, es: seq<DialogEvent>)
    requires OpenChange(false) !in es
    ensures Run(isOpen, [TriggerClick] + es)
    decreases |es|
  {
    if es != [] {
      assert ([TriggerClick] + es)[1..] == es;
      assert es[0] != OpenChange(false);
      assert Run(true, es) by {
        assert OpenChange(false) !in es[1..] by {
          forall i | 0 <= i < |es[1..]| ensures es[1..][i] != OpenChange(false) {
            assert es[1..][i] == es[i + 1];
          }
        }
        OpenUntilHidden(true, es[1..]);
        assert ([TriggerClick] + es[1..])[1..] == es[1..];
      }
    }
  }

  /** Whatever came before, a request to hide leaves the dialog closed, and a second one changes nothing. */
  lemma HideIsIdempotent(isOpen: bool, es: seq<DialogEvent>)
    ensures !Run(isOpen, es + [OpenChange(false)])
    ensures Run(isOpen, es + [OpenChange(false), OpenChange(false)]) == Run(isOpen, es + [OpenChange(false)])
  {
    RunAppend(isOpen, es, [OpenChange(false)]);
    RunAppend(isOpen, es, [OpenChange(false), OpenChange(false)]);
  }

  /** The component: `isOpen` becomes a field, its two handlers methods. */
  class UploadDialog {
    var isOpen: bool

    constructor ()
      ensures !isOpen
    {
      isOpen := false;
    }

    /** The trigger's `onClick`. */
    method ClickTrigger()
      modifies this
      ensures isOpen
      ensures isOpen == AfterTrigger(old(isOpen))
    {
      isOpen := true;
    }

    /** The dialog's `onOpenChange`. */
    method OnOpenChange(visible: bool)
      modifies this
      ensures !visible ==> !isOpen
      ensures visible ==> isOpen == old(isOpen)
      ensures isOpen == AfterOpenChange(old(isOpen), visible)
    {
      if !visible {
        isOpen := visible;
      }
    }

    /** Dispatches one event to its handler. */
    method Handle(e: DialogEvent)
      modifies this
      ensures isOpen == Step(old(isOpen), e)
    {
      match e
      case TriggerClick => ClickTrigger();
      case OpenChange(visible) => OnOpenChange(visible);
    }
  }
}
