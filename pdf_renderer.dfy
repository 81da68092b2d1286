/**
 * The page-navigation state of the PDF viewer widget (src/components/PdfRenderer.tsx).
 *
 * The widget's React state (`numPages`, `currPage`, the page input of the form,
 * the form's error for that input) is gathered into one `ViewerState` value, and
 * every event handler becomes a transition function on it. Rendering, the pdf.js
 * worker and the container width are not modelled; loading is an external event
 * that delivers a page count or an error.
 */
module PdfRenderer {
  import opened Wrappers
  import opened JsNumber

  datatype ViewerState = ViewerState(
    numPages: Option<nat>,  // unknown until the document has loaded
    currPage: int,          // the page handed to the page renderer
    pageText: string,       // the text in the page input box
    pageError: bool,        // the form holds a validation error for the page input
    errorToasts: nat)       // how many "Error loading PDF" notifications were emitted

  datatype ViewerEvent =
    | LoadSuccess(pages: nat)   // the document reports its page count
    | LoadError                 // the document failed to load
    | ClickForward              // the ChevronDown button
    | ClickBackward             // the ChevronUp button
    | Edit(text: string)        // the input box's text changes
    | KeyDown(key: string)      // a key goes down in the input box

  /** What one render of the widget shows. */
  datatype View = View(
    pageNumber: int,          // the page the page renderer is asked for
    pageCountLabel: string,   // the text after the "/" beside the input
    forwardDisabled: bool,
    backwardDisabled: bool,
    inputFlagged: bool)       // the input shows the red focus ring

  /** The navigation invariant: page 1 before the count is known, a real page after. */
  predicate Inv(s: ViewerState) {
    && 1 <= s.currPage
    && (s.numPages.None? ==> s.currPage == 1)
    && (s.numPages.Some? ==> s.currPage <= s.numPages.value)
  }

  /** The state at mount: no page count, page 1, input "1", no error. */
  function Initial(): (s: ViewerState)
    ensures Inv(s)
    ensures s.numPages == None && s.currPage == 1 && s.pageText == "1"
    ensures !s.pageError && s.errorToasts == 0
  {
    ViewerState(None, 1, "1", false, 0)
  }

  /**
   * The refinement on the form's `page` field: its number is above 0 and at most
   * the page count. A comparison with an unknown count, or with NaN, is false.
   */
  function ValidPageInput(text: string, numPages: Option<nat>): (ok: bool)
    ensures numPages.None? ==> !ok
    ensures ok ==> text != "" && text[0] != '-'
    ensures ok ==> NumberOf(text).Some? && 1 <= NumberOf(text).value <= numPages.value
  {
    match NumberOf(text)
    case None => false
    case Some(v) => 0 < v && numPages.Some? && v <= numPages.value
  }

  /** The `disabled` expression of the forward button. */
  function ForwardDisabled(s: ViewerState): (d: bool)
    ensures Inv(s) ==> (d <==> s.numPages.None? || s.currPage >= s.numPages.value)
  {
    s.numPages.None? || s.currPage == s.numPages.value
  }

  /** The `disabled` expression of the backward button. */
  function BackwardDisabled(s: ViewerState): (d: bool)
    ensures Inv(s) ==> (d <==> s.currPage == 1)
  {
    s.currPage <= 1
  }

  /** A click on the forward button; a disabled button delivers no click. */
  function Forward(s: ViewerState): (t: ViewerState)
    ensures ForwardDisabled(s) ==> t == s
    ensures !ForwardDisabled(s) ==> t == s.(currPage := s.currPage + 1)
    ensures s.numPages == Some(s.currPage) ==> t == s
    ensures Inv(s) ==> Inv(t)
  {
    if ForwardDisabled(s) then s
    else
      var prev := s.currPage;
      s.(currPage := if prev + 1 < s.numPages.value then prev + 1 else prev + 1)
  }

  /** A click on the backward button; a disabled button delivers no click. */
  function Backward(s: ViewerState): (t: ViewerState)
    ensures BackwardDisabled(s) ==> t == s
    ensures !BackwardDisabled(s) ==> t == s.(currPage := s.currPage - 1)
    ensures t == s || t.currPage >= 1
    ensures Inv(s) ==> Inv(t)
  {
    if BackwardDisabled(s) then s
    else
      var prev := s.currPage;
      s.(currPage := if prev - 1 > 1 then prev - 1 else 1)
  }

  /** The input box takes the typed text; nothing is validated. */
  function EditText(s: ViewerState, text: string): (t: ViewerState)
    ensures t.pageText == text && t.currPage == s.currPage && t.numPages == s.numPages
    ensures t.pageError == s.pageError
    ensures Inv(t) <==> Inv(s)
    ensures ForwardDisabled(t) == ForwardDisabled(s) && BackwardDisabled(t) == BackwardDisabled(s)
  {
    s.(pageText := text)
  }

  /**
   * The form's submit: the validator decides; on success the handler sets the
   * page to the number and writes `String(page)` of the text, which is the text
   * itself, back into the input; on failure only the error is recorded.
   */
  function Submit(s: ViewerState): (t: ViewerState)
    ensures t.pageText == s.pageText && t.numPages == s.numPages && t.errorToasts == s.errorToasts
    ensures t.pageError <==> !ValidPageInput(s.pageText, s.numPages)
    ensures !t.pageError ==> t.currPage == NumberOf(s.pageText).value && 1 <= t.currPage <= s.numPages.value
    ensures t.pageError ==> t.currPage == s.currPage
    ensures Inv(s) ==> Inv(t)
  {
    if ValidPageInput(s.pageText, s.numPages) then
      var page := s.pageText;
      s.(currPage := NumberOf(page).value, pageText := page, pageError := false)
    else
      s.(pageError := true)
  }

  /** A key in the input box: only Enter submits. */
  function PressKey(s: ViewerState, key: string): (t: ViewerState)
    ensures key != "Enter" ==> t == s
  {
    if key == "Enter" then Submit(s) else s
  }

  /** The document reports its page count; the current page is left as it was. */
  function LoadDocument(s: ViewerState, n: nat): (t: ViewerState)
    ensures t.numPages == Some(n) && t.currPage == s.currPage
    ensures Inv(s) ==> (Inv(t) <==> s.currPage <= n)
  {
    s.(numPages := Some(n))
  }

  /** The document failed to load: one notification, no change to navigation. */
  function FailLoad(s: ViewerState): (t: ViewerState)
    ensures t.errorToasts == s.errorToasts + 1
    ensures Inv(t) <==> Inv(s)
    ensures ForwardDisabled(t) == ForwardDisabled(s) && BackwardDisabled(t) == BackwardDisabled(s)
  {
    s.(errorToasts := s.errorToasts + 1)
  }

  /** A load that fits the current page: the count it delivers is not below it. */
  predicate Fits(s: ViewerState, e: ViewerEvent) {
    e.LoadSuccess? ==> s.currPage <= e.pages
  }

  function Step(s: ViewerState, e: ViewerEvent): (t: ViewerState)
    ensures Inv(s) && Fits(s, e) ==> Inv(t)
  {
    match e
    case LoadSuccess(n) => LoadDocument(s, n)
    case LoadError => FailLoad(s)
    case ClickForward => Forward(s)
    case ClickBackward => Backward(s)
    case Edit(text) => EditText(s, text)
    case KeyDown(key) => PressKey(s, key)
  }

  function Run(s: ViewerState, es: seq<ViewerEvent>): ViewerState
    decreases |es|
  {
    if es == [] then s else Run(Step(s, es[0]), es[1..])
  }

  /** The label after the "/": the page count, or "x" while it is unknown. */
  function PageCountLabel(numPages: Option<nat>): (shown: string)
    ensures shown == "x" <==> numPages.None?
    ensures numPages.Some? ==> NumberOf(shown) == numPages
  {
    match numPages
    case None => "x"
    case Some(n) =>
      NumberOfShowNat(n);
      assert IsDigit(ShowNat(n)[0]);
      ShowNat(n)
  }

  /** The widget's output for a state. */
  function Render(s: ViewerState): (v: View)
    ensures v.pageNumber == s.currPage && v.inputFlagged == s.pageError
    ensures Inv(s) && s.numPages.Some? ==> 1 <= v.pageNumber <= s.numPages.value
    ensures v.pageCountLabel == "x" <==> s.numPages.None?
    ensures s.numPages.Some? ==> NumberOf(v.pageCountLabel) == s.numPages
    ensures v.forwardDisabled == ForwardDisabled(s) && v.backwardDisabled == BackwardDisabled(s)
  {
    View(s.currPage, PageCountLabel(s.numPages), ForwardDisabled(s), BackwardDisabled(s), s.pageError)
  }

  /**
   * For one document (every load reports the same count n >= 1), every sequence
   * of events keeps the invariant and the count.
   */
  lemma {:induction false} RunPreservesInv(s: ViewerState, es: seq<ViewerEvent>, n: nat)
    requires Inv(s) && n >= 1
    requires s.numPages == None || s.numPages == Some(n)
    requires forall i :: 0 <= i < |es| && es[i].LoadSuccess? ==> es[i].pages == n
    ensures Inv(Run(s, es))
    ensures Run(s, es).numPages == None || Run(s, es).numPages == Some(n)
    decreases |es|
  {
    if es != [] {
      var t := Step(s, es[0]);
      assert Fits(s, es[0]);
      assert t.numPages == None || t.numPages == Some(n);
      forall i | 0 <= i < |es[1..]| && es[1..][i].LoadSuccess?
        ensures es[1..][i].pages == n
      {
        assert es[1..][i] == es[i + 1];
      }
      RunPreservesInv(t, es[1..], n);
    }
  }

  /**
   * Until a page count arrives nothing navigates: the page stays 1 and both
   * buttons stay disabled, whatever the user types or clicks and however often
   * loading fails.
   */
  lemma {:induction false} NoNavigationBeforeLoad(s: ViewerState, es: seq<ViewerEvent>)
    requires s.numPages == None && s.currPage == 1
    requires forall i :: 0 <= i < |es| ==> !es[i].LoadSuccess?
    ensures Run(s, es).numPages == None && Run(s, es).currPage == 1
    ensures ForwardDisabled(Run(s, es)) && BackwardDisabled(Run(s, es))
    decreases |es|
  {
    if es != [] {
      var t := Step(s, es[0]);
      assert !es[0].LoadSuccess?;
      assert t.numPages == None && t.currPage == 1;
      forall i | 0 <= i < |es[1..]|
        ensures !es[1..][i].LoadSuccess?
      {
        assert es[1..][i] == es[i + 1];
      }
      NoNavigationBeforeLoad(t, es[1..]);
    }
  }

  /** A printed page number is accepted exactly when it is a page of the document. */
  lemma ValidatorOnPrintedPage(p: nat, n: nat)
    ensures ValidPageInput(ShowNat(p), Some(n)) <==> 1 <= p <= n
  {
    NumberOfShowNat(p);
  }

  /** Typing a page number and pressing Enter goes to that page, or flags the input. */
  lemma EnterPrintedPage(s: ViewerState, p: nat)
    requires s.numPages.Some?
    ensures var t := PressKey(EditText(s, ShowNat(p)), "Enter");
      && t.pageText == ShowNat(p)
      && (1 <= p <= s.numPages.value ==> t.currPage == p && !t.pageError)
      && (!(1 <= p <= s.numPages.value) ==> t.currPage == s.currPage && t.pageError)
  {
    ValidatorOnPrintedPage(p, s.numPages.value);
    NumberOfShowNat(p);
  }

  /** Text that is not a number, or is "0", "-1" or past the last page, is rejected. */
  lemma ValidatorRejects(n: nat)
    ensures !ValidPageInput("", Some(n))
    ensures !ValidPageInput("0", Some(n))
    ensures !ValidPageInput("-1", Some(n))
    ensures !ValidPageInput("abc", Some(n))
    ensures !ValidPageInput(ShowNat(n + 1), Some(n))
  {
    NoLeadingDigitIsNaN("abc");
    NumberOfNegated(1);
    assert ShowNat(1) == "1";
    assert ShowNat(0) == "0";
    ValidatorOnPrintedPage(0, n);
    ValidatorOnPrintedPage(n + 1, n);
  }

  /** Ten pages, page 1, type "5" and press Enter: page 5. */
  lemma ScenarioSubmitFive(s: ViewerState)
    requires s.numPages == Some(10) && s.currPage == 1
    ensures Run(s, [Edit("5"), KeyDown("Enter")]).currPage == 5
  {
    var es := [Edit("5"), KeyDown("Enter")];
    assert es[1..] == [KeyDown("Enter")] && [KeyDown("Enter")][1..] == [];
    var typed := EditText(s, "5");
    assert Run(s, es) == Run(typed, [KeyDown("Enter")]);
    assert Run(typed, [KeyDown("Enter")]) == PressKey(typed, "Enter");
    assert ShowNat(5) == "5";
    EnterPrintedPage(s, 5);
  }

  /** Ten pages, page 10, click forward: still page 10. */
  lemma ScenarioForwardAtLastPage(s: ViewerState)
    requires s.numPages == Some(10) && s.currPage == 10
    ensures Run(s, [ClickForward]).currPage == 10
  {
    assert Run(s, [ClickForward]) == Run(Forward(s), []);
  }

  /** The load fails: one notification, page 1, both buttons disabled. */
  lemma ScenarioLoadFails()
    ensures var t := Run(Initial(), [LoadError]);
      t.errorToasts == 1 && t.currPage == 1 && ForwardDisabled(t) && BackwardDisabled(t)
  {
    assert Run(Initial(), [LoadError]) == Run(FailLoad(Initial()), []);
  }

  /** The widget itself: its hooks become fields, its handlers methods. */
  class Renderer {
    var numPages: Option<nat>
    var currPage: int
    var pageText: string
    var pageError: bool
    var errorToasts: nat

    function State(): ViewerState
      reads this
    {
      ViewerState(numPages, currPage, pageText, pageError, errorToasts)
    }

    constructor ()
      ensures numPages == None && currPage == 1 && pageText == "1"
      ensures !pageError && errorToasts == 0
      ensures State() == Initial()
    {
      numPages := None;
      currPage := 1;
      pageText := "1";
      pageError := false;
      errorToasts := 0;
    }

    /** `onLoadSuccess`: the count is stored, nothing else changes. */
    method OnLoadSuccess(n: nat)
      modifies this
      ensures numPages == Some(n)
      ensures currPage == old(currPage) && pageText == old(pageText)
      ensures pageError == old(pageError) && errorToasts == old(errorToasts)
      ensures State() == LoadDocument(old(State()), n)
      ensures old(Inv(State())) ==> (Inv(State()) <==> currPage <= n)
    {
      numPages := Some(n);
    }

    /** `onLoadError`: a notification is emitted; no state the widget reads changes. */
    method OnLoadError()
      modifies this
      ensures errorToasts == old(errorToasts) + 1
      ensures numPages == old(numPages) && currPage == old(currPage)
      ensures pageText == old(pageText) && pageError == old(pageError)
      ensures State() == FailLoad(old(State()))
    {
      errorToasts := errorToasts + 1;
    }

    /** The ChevronDown button's `onClick`, guarded by its `disabled` expression. */
    method ClickForward()
      modifies this
      ensures old(ForwardDisabled(State())) ==> currPage == old(currPage)
      ensures !old(ForwardDisabled(State())) ==> currPage == old(currPage) + 1
      ensures numPages == old(numPages) && pageText == old(pageText)
      ensures pageError == old(pageError) && errorToasts == old(errorToasts)
      ensures State() == Forward(old(State()))
      ensures old(Inv(State())) ==> Inv(State())
    {
      if !(numPages.None? || currPage == numPages.value) {
        var prev := currPage;
        currPage := if prev + 1 < numPages.value then prev + 1 else prev + 1;
      }
    }

    /** The ChevronUp button's `onClick`, guarded by its `disabled` expression. */
    method ClickBackward()
      modifies this
      ensures old(BackwardDisabled(State())) ==> currPage == old(currPage)
      ensures !old(BackwardDisabled(State())) ==> currPage == old(currPage) - 1
      ensures numPages == old(numPages) && pageText == old(pageText)
      ensures pageError == old(pageError) && errorToasts == old(errorToasts)
      ensures State() == Backward(old(State()))
      ensures old(Inv(State())) ==> Inv(State())
    {
      if !(currPage <= 1) {
        var prev := currPage;
        currPage := if prev - 1 > 1 then prev - 1 else 1;
      }
    }

    /** The registered input's change handler. */
    method OnChange(text: string)
      modifies this
      ensures pageText == text
      ensures numPages == old(numPages) && currPage == old(currPage)
      ensures pageError == old(pageError) && errorToasts == old(errorToasts)
      ensures State() == EditText(old(State()), text)
    {
      pageText := text;
    }

    /** `handlePageSubmit`, run by the form only for a page that passed validation. */
    method HandlePageSubmit(page: string)
      requires ValidPageInput(page, numPages)
      modifies this
      ensures currPage == NumberOf(page).value && pageText == page
      ensures numPages.Some? && 1 <= currPage <= numPages.value
      ensures numPages == old(numPages) && pageError == old(pageError)
      ensures errorToasts == old(errorToasts)
    {
      currPage := NumberOf(page).value;
      pageText := page;
    }

    /** `handleSubmit(handlePageSubmit)()`: validate the input, then run the handler. */
    method HandleSubmit()
      modifies this
      ensures State() == Submit(old(State()))
      ensures old(Inv(State())) ==> Inv(State())
    {
      if ValidPageInput(pageText, numPages) {
        pageError := false;
        HandlePageSubmit(pageText);
      } else {
        pageError := true;
      }
    }

    /** The input's `onKeyDown`: only Enter submits. */
    method OnKeyDown(key: string)
      modifies this
      ensures key != "Enter" ==> State() == old(State())
      ensures key == "Enter" ==> State() == Submit(old(State()))
      ensures State() == PressKey(old(State()), key)
    {
      if key == "Enter" {
        HandleSubmit();
      }
    }

    /** Dispatches one event to its handler. */
    method Handle(e: ViewerEvent)
      modifies this
      ensures State() == Step(old(State()), e)
    {
      match e
      case LoadSuccess(n) => OnLoadSuccess(n);
      case LoadError => OnLoadError();
      case ClickForward => ClickForward();
      case ClickBackward => ClickBackward();
      case Edit(text) => OnChange(text);
      case KeyDown(key) => OnKeyDown(key);
    }
  }
}
