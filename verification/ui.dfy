/**
 * The panel's controls as events: each one calls a handler with the
 * arguments the rendered form passes. Drafts reached from the initial one
 * through these controls keep the rotation on a right angle, the format on
 * one of the select's options and the filter map on its two checkboxes.
 */
module Ui {
  import opened Options
  import opened Draft
  import opened Request

  /** The rotation buttons. */
  const Angles: set<int> := {0, 90, 180, 270}

  /** The format select's option values; "" keeps the original format. */
  const Formats: set<string> := {"", "jpeg", "png", "webp"}

  /** The filter checkboxes. */
  const FilterNames: set<string> := {"grayscale", "sepia"}

  datatype Event =
    | ResizeWidthInput(text: string)
    | ResizeHeightInput(text: string)
    | CropWidthInput(text: string)
    | CropHeightInput(text: string)
    | CropXInput(text: string)
    | CropYInput(text: string)
    | RotateButton(angle: int)
    | FormatSelect(option: string)
    | GrayscaleBox
    | SepiaBox
    | ResetButton

  /** The event comes from a control that the form renders. */
  predicate Offered(e: Event) {
    && (e.RotateButton? ==> e.angle in Angles)
    && (e.FormatSelect? ==> e.option in Formats)
  }

  /** The handler call a control makes. */
  datatype Call =
    | ChangeCall(category: Category, field: Option<string>, value: Value)
    | ToggleCall(name: string)
    | ResetCall

  function CallOf(e: Event): Call {
    match e
    case ResizeWidthInput(s) => ChangeCall(Resize, Some("width"), Text(s))
    case ResizeHeightInput(s) => ChangeCall(Resize, Some("height"), Text(s))
    case CropWidthInput(s) => ChangeCall(Crop, Some("width"), Text(s))
    case CropHeightInput(s) => ChangeCall(Crop, Some("height"), Text(s))
    case CropXInput(s) => ChangeCall(Crop, Some("x"), Text(s))
    case CropYInput(s) => ChangeCall(Crop, Some("y"), Text(s))
    case RotateButton(a) => ChangeCall(Rotate, None, Number(a))
    case FormatSelect(f) => ChangeCall(Format, None, Text(f))
    case GrayscaleBox => ToggleCall("grayscale")
    case SepiaBox => ToggleCall("sepia")
    case ResetButton => ResetCall
  }

  const InitialPanel := Panel(Initial, false, "", None)

  /** The panel after one control is used; every call a control makes fits the draft. */
  function Step(p: Panel, e: Event): Panel {
    match CallOf(e)
    case ChangeCall(c, field, v) =>
      var r := Change(p.draft, c, field, v);
      assert r.Some?;
      p.(draft := r.value)
    case ToggleCall(name) => p.(draft := ToggleFilter(p.draft, name))
    case ResetCall => Reset(p)
  }

  function Run(p: Panel, events: seq<Event>): Panel
    decreases |events|
  {
    if |events| == 0 then p else Run(Step(p, events[0]), events[1..])
  }

  /** The shape the form's controls keep the draft in. */
  predicate FormShape(d: Draft) {
    && d.rotate in Angles
    && d.format in Formats
    && d.filters.Keys == FilterNames
    && d.resize.maintainAspectRatio
  }

  /** Each offered control keeps the draft in the form's shape. */
  lemma StepKeepsShape(p: Panel, e: Event)
    requires Offered(e) && FormShape(p.draft)
    ensures FormShape(Step(p, e).draft)
  {
  }

  /** Every draft reachable from the initial panel through offered controls has the form's shape. */
  lemma {:induction false} RunKeepsShape(p: Panel, events: seq<Event>)
    requires FormShape(p.draft)
    requires forall i :: 0 <= i < |events| ==> Offered(events[i])
    ensures FormShape(Run(p, events).draft)
    decreases |events|
  {
    if |events| > 0 {
      StepKeepsShape(p, events[0]);
      RunKeepsShape(Step(p, events[0]), events[1..]);
    }
  }

  /**
   * What a draft in the form's shape posts: a rotation of 90, 180 or 270,
   * one of the three formats, and filters drawn from the two checkboxes.
   * Toggling one of the checkboxes twice gives back the very same draft.
   */
  lemma FormShapeRequests(d: Draft, name: string)
    requires FormShape(d)
    ensures var r := Normalize(d);
      && (r.rotate.Some? ==> r.rotate.value in {90, 180, 270})
      && (r.format.Some? ==> r.format.value in {"jpeg", "png", "webp"})
      && (r.filters.Some? ==> r.filters.value.Keys <= FilterNames)
    ensures name in FilterNames ==> ToggleFilter(ToggleFilter(d, name), name) == d
  {
  }

  /** Everything the form can post, after any sequence of offered controls. */
  lemma ReachableRequests(events: seq<Event>, name: string)
    requires forall i :: 0 <= i < |events| ==> Offered(events[i])
    ensures var r := Normalize(Run(InitialPanel, events).draft);
      && (r.rotate.Some? ==> r.rotate.value in {90, 180, 270})
      && (r.format.Some? ==> r.format.value in {"jpeg", "png", "webp"})
      && (r.filters.Some? ==> r.filters.value.Keys <= FilterNames)
    ensures name in FilterNames ==>
      var d := Run(InitialPanel, events).draft;
      ToggleFilter(ToggleFilter(d, name), name) == d
  {
    RunKeepsShape(InitialPanel, events);
    FormShapeRequests(Run(InitialPanel, events).draft, name);
  }
}
