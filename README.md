# pdf-quill viewer widgets in Dafny

A model of the two stateful widgets of the pdf-quill web front end:

- **The PDF viewer's page navigation** (`src/components/PdfRenderer.tsx`). The
  widget keeps the page count, which is unknown until the document loads, and the
  current page. It also keeps the text of the page input and the form's
  validation error for it. Two buttons step the page forward and backward, each
  guarded by its `disabled` expression. Pressing Enter in the input runs the
  form's validator (the number must be above 0 and at most the page count) and,
  when that passes, the submit handler. A successful load stores the page count.
  A failed load emits a notification. The model is the datatype `ViewerState`
  with one transition function per handler, in module `PdfRenderer`. The class
  `PdfRenderer.Renderer` holds the same state as fields, and its handler methods
  are proved to make exactly those transitions.
- **The upload dialog's open state** (`src/components/UploadButton.tsx`). It is
  one boolean. The trigger button sets it. The dialog's `onOpenChange` is
  honoured only when it asks to hide. Module `UploadButton` has the pure
  transitions and the class `UploadButton.UploadDialog`.

JavaScript's `Number(text)`, which the validator and the submit handler apply
to the input, is modelled in module `JsNumber` for an optional sign followed by
decimal digits. The empty string is 0, and anything else is NaN (`None`).
`ShowNat` is `String(n)` for a natural number. The two are proved inverse on
canonical digit strings, in both directions.

The central invariant is `PdfRenderer.Inv`:
- before the page count is known, the page is 1;
- once the page count is known, 1 <= page <= page count.

Within this model, every button click, edit, key press and load error preserves
it. The model's parser accepts only integer text, and the code's fractional
pages do break it (see below). A load preserves it exactly when the count it delivers is not below the current page.
`RunPreservesInv` proves that any sequence of events for one document keeps it.

## Model

| member | source | states |
|---|---|---|
| `PdfRenderer.Initial` | src/components/PdfRenderer.tsx:27-28 | at mount: count unknown, page 1, input "1", no error, no notification; the invariant holds |
| `PdfRenderer.Renderer.constructor` | src/components/PdfRenderer.tsx:27-51 | the widget's fields start in the initial state |
| `PdfRenderer.ValidPageInput` | src/components/PdfRenderer.tsx:33-37 | an unknown count rejects every text; accepted text is non-empty, unsigned or `+`, and its number lies in 1..count |
| `PdfRenderer.ValidatorOnPrintedPage` | src/components/PdfRenderer.tsx:36 | the decimal text of p is accepted iff 1 <= p <= count |
| `PdfRenderer.ValidatorRejects` | src/components/PdfRenderer.tsx:36 | "", "0", "-1", "abc" and the count plus one are rejected |
| `PdfRenderer.ForwardDisabled` | src/components/PdfRenderer.tsx:64 | under the invariant, disabled iff the count is unknown or the page is not below it |
| `PdfRenderer.BackwardDisabled` | src/components/PdfRenderer.tsx:96 | under the invariant, disabled iff the page is 1 |
| `PdfRenderer.Forward` | src/components/PdfRenderer.tsx:63-69 | disabled: no change; enabled: the page becomes exactly prev + 1 and nothing else changes; on the last page it is a no-op; keeps the invariant |
| `PdfRenderer.Backward` | src/components/PdfRenderer.tsx:95-97 | disabled: no change; enabled: the page becomes exactly prev - 1, never below 1, nothing else changes; keeps the invariant |
| `PdfRenderer.Submit` | src/components/PdfRenderer.tsx:53-57 | accepted: page := the number, error cleared, page in 1..count; rejected: page unchanged, error set; the input text and the count are untouched either way; keeps the invariant |
| `PdfRenderer.PressKey` | src/components/PdfRenderer.tsx:83-87 | a key other than Enter changes nothing |
| `PdfRenderer.LoadDocument` | src/components/PdfRenderer.tsx:131 | the count becomes n and the page is unchanged; the invariant survives iff the page is at most n |
| `PdfRenderer.FailLoad` | src/components/PdfRenderer.tsx:124-130 | one more notification; the invariant and both button guards are unchanged |
| `PdfRenderer.Step` | src/components/PdfRenderer.tsx:63-131 | every event whose load fits the current page keeps the invariant |
| `PdfRenderer.PageCountLabel` | src/components/PdfRenderer.tsx:91 | "x" iff the count is unknown; otherwise decimal text that reads back as the count |
| `PdfRenderer.Render` | src/components/PdfRenderer.tsx:135 | the requested page is the current page, in 1..count under the invariant; buttons and red ring follow the guards and the error |
| `PdfRenderer.RunPreservesInv` | src/components/PdfRenderer.tsx:63-131 | for one document (all loads deliver the same count n >= 1) every event sequence keeps the invariant and the count |
| `PdfRenderer.NoNavigationBeforeLoad` | src/components/PdfRenderer.tsx:64-97 | before any count arrives, every event sequence leaves the page at 1 with both buttons disabled |
| `PdfRenderer.EnterPrintedPage` | src/components/PdfRenderer.tsx:53-57 | typing the decimal text of p and pressing Enter goes to page p iff p is a page; otherwise the page stays and the input is flagged; the text stays as typed |
| `PdfRenderer.ScenarioSubmitFive` | src/components/PdfRenderer.tsx:83-87 | 10 pages, page 1, type "5", Enter: page 5 |
| `PdfRenderer.ScenarioForwardAtLastPage` | src/components/PdfRenderer.tsx:64 | 10 pages, page 10, forward: still page 10 |
| `PdfRenderer.ScenarioLoadFails` | src/components/PdfRenderer.tsx:124-130 | a failed load: one notification, page 1, both buttons disabled |
| `PdfRenderer.Renderer.OnLoadSuccess` | src/components/PdfRenderer.tsx:131 | stores the count, changes no other field, matches `LoadDocument` |
| `PdfRenderer.Renderer.OnLoadError` | src/components/PdfRenderer.tsx:124-130 | counts a notification, changes no other field, matches `FailLoad` |
| `PdfRenderer.Renderer.ClickForward` | src/components/PdfRenderer.tsx:63-69 | page + 1 when enabled, unchanged when disabled, other fields unchanged, keeps the invariant |
| `PdfRenderer.Renderer.ClickBackward` | src/components/PdfRenderer.tsx:95-97 | page - 1 when enabled, unchanged when disabled, other fields unchanged, keeps the invariant |
| `PdfRenderer.Renderer.OnChange` | src/components/PdfRenderer.tsx:77-78 | stores the typed text, nothing else changes |
| `PdfRenderer.Renderer.HandlePageSubmit` | src/components/PdfRenderer.tsx:53-57 | for validated text: page := its number (a page of the document), input text unchanged |
| `PdfRenderer.Renderer.HandleSubmit` | src/components/PdfRenderer.tsx:85 | validates, then runs the handler or records the error, as `Submit` |
| `PdfRenderer.Renderer.OnKeyDown` | src/components/PdfRenderer.tsx:83-87 | Enter submits; any other key leaves every field unchanged |
| `PdfRenderer.Renderer.Handle` | src/components/PdfRenderer.tsx:63-131 | each event's handler makes the transition `Step` describes |
| `JsNumber.NumberOf` | src/components/PdfRenderer.tsx:36 | `Number(num)` for sign-and-digits text: "" is 0; any text with a value is digits, or a sign followed by digits; a positive value never comes from "" or a leading minus |
| `JsNumber.ShowNat` | src/components/PdfRenderer.tsx:91 | `String(n)`, what the count display prints: non-empty, all digits, no leading zero |
| `PdfRenderer.EditText` | src/components/PdfRenderer.tsx:77-78 | the input takes the typed text; page, count and error flag are unchanged, and so are the invariant and both button guards |
| `JsNumber.NumberOfShowNat` | src/components/PdfRenderer.tsx:36 | `Number(String(n)) == n` for every natural number |
| `JsNumber.NumberOfNegated` | src/components/PdfRenderer.tsx:36 | a leading minus negates the number |
| `JsNumber.ShowNatOfDigits` | src/components/PdfRenderer.tsx:55 | a canonical digit string is `String` of its own value |
| `JsNumber.CanonicalInjective` | src/components/PdfRenderer.tsx:55 | distinct canonical digit strings denote distinct numbers |
| `JsNumber.NonDigitIsNaN` | src/components/PdfRenderer.tsx:36 | in the model's sign-and-digits parser, a non-digit after the first character gives NaN (JS `Number` differs: "1.5" is 1.5, "1e3" is 1000) |
| `JsNumber.NoLeadingDigitIsNaN` | src/components/PdfRenderer.tsx:36 | in the model's sign-and-digits parser, a first character that is neither digit nor sign gives NaN (JS `Number` differs: " 5" is 5) |
| `UploadButton.AfterTrigger` | src/components/UploadButton.tsx:18 | the trigger opens the dialog from either state |
| `UploadButton.AfterOpenChange` | src/components/UploadButton.tsx:12-15 | a hide request closes; a show request leaves the state as it was |
| `UploadButton.OpensOnlyViaTrigger` | src/components/UploadButton.tsx:12-18 | without a trigger click a closed dialog never opens |
| `UploadButton.OpenUntilHidden` | src/components/UploadButton.tsx:12-18 | after a trigger click the dialog stays open until a hide request |
| `UploadButton.HideIsIdempotent` | src/components/UploadButton.tsx:12-15 | after any history a hide request leaves it closed, and a second one changes nothing |
| `UploadButton.RunAppend` | src/components/UploadButton.tsx:10-20 | running two event sequences one after the other is running their concatenation |
| `UploadButton.UploadDialog.constructor` | src/components/UploadButton.tsx:8 | the dialog starts closed |
| `UploadButton.UploadDialog.ClickTrigger` | src/components/UploadButton.tsx:18 | the dialog is open afterwards |
| `UploadButton.UploadDialog.OnOpenChange` | src/components/UploadButton.tsx:12-15 | hide closes it; show leaves it unchanged |
| `UploadButton.UploadDialog.Handle` | src/components/UploadButton.tsx:10-20 | each event's handler makes the transition `Step` describes |

## Behaviour of the code worth knowing

- A successful load only stores the count (src/components/PdfRenderer.tsx:131).
  The current page keeps its value, which `LoadDocument` states.
- Nothing resets the page when `url` changes, and nothing guards against a stale
  load. A second, shorter document therefore leaves the page past the count.
  `LoadDocument` shows that such a load breaks `Inv`, so `RunPreservesInv` is
  stated for one document.
- Forward is disabled only when `currPage === numPages` (:64). Under `Inv` this
  means "at the last page", which `ForwardDisabled` states. Outside `Inv`, for
  example after a shorter second load, the forward button stays enabled.
- A submit writes `String(page)` of a string back into the input (:56), so the
  text stays as typed (for example "05" or "+5"). `Submit` and
  `EnterPrintedPage` state this.
- The code accepts fractional pages, and they break the invariant. With 10 pages,
  typing "9.5" and pressing Enter sets the page to 9.5 (:36, :55). Forward stays
  enabled because 9.5 !== 10 (:64) and moves to 10.5 (:67). From then on forward
  is never disabled. The model's pages are integers, so this behaviour is outside
  it (see "Left out").
- The forward button carries the aria-label "previous page" and the backward
  button "next page". The model follows what they do, not their labels.

## Left out

- Rendering through react-pdf and the pdf.js worker is not modelled, and neither
  is the worker URL. A load is an external event that delivers a page count or
  an error.
- The toast's title, description and variant are not modelled. A failed load
  only increments `errorToasts`.
- The container width from the resize detector and `width ? width : 1` are
  floating-point layout and are not modelled.
- JsNumber.NumberOf covers only the empty string and an optional sign followed
  by decimal digits. Every other text is NaN in the model, but JavaScript's
  `Number` gives a number for many of them: " 5" is 5, "5.0" is 5, "1e1" is 10,
  "0x5" is 5, "0b11" is 3 and "9.5" is 9.5. For such text `ValidPageInput` and
  `Submit` reject the input and flag it, where the code accepts it and
  navigates. The fractional pages this would admit break the navigation
  invariant in the code (see "Behaviour of the code worth knowing"). The model
  has no non-integer pages, so it captures neither these inputs nor that break.
- The wiring of react-hook-form and zod is not modelled. Only its effect is: the
  handler runs iff validation passes, and the error is set or cleared.
- After the first submit, react-hook-form also re-validates the page on every
  change. That library behaviour is not modelled; an edit leaves the error flag
  as it was.
- The zoom dropdown has no behaviour. `console.log`, styling, icons and aria
  labels are not modelled either.
- The upload dialog's content, focus handling and animation live in the UI
  library and are not modelled.
