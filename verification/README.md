# ImageGenie image-transform panel — Dafny model

This project models the request-building core of the ImageGenie front end's
`ImageTransform` panel. The user edits a *draft*: resize and crop sizes as raw
text from number inputs, a rotation, an output format and a map of named
filter flags. On "Apply", `applyTransformations` turns the draft into the
minimal *request* that is posted to the image service. A part whose inputs
are empty or switched off is left out, and so is a rotation of 0. A resize or
crop size of "0" still sends its part. Three handlers change the draft:

- the generic category/field update `handleTransformationChange`;
- the checkbox toggle `handleFilterChange`;
- `resetTransformations`, which restores the initial draft and clears the status line and result.

Modules:

- `Options` (options.dfy): `Option`, which stands for JavaScript's `undefined` and `NaN`.
- `Decimal` (decimal.dfy): decimal text and the part of `parseInt` the number inputs exercise. That is an optional sign followed by the longest run of digits; no digit means `NaN`.
- `Draft` (draft.dfy): the draft, the panel state and the three handlers.
- `Request` (request.dfy): the request, the normaliser `Normalize` and its properties. `DraftFor` rebuilds a draft from a request; it shows that the normaliser's image is exactly the well-formed requests.
- `Ui` (ui.dfy): the form's controls as events. It proves the shape every draft reachable through them keeps.

The JavaScript truthiness rules are followed as written:

- A resize size that parses to 0 or `NaN` becomes `undefined` (`|| undefined`).
- A crop of `"0"` by `"0"` is non-empty text, so the crop is still sent.
- Crop offsets fall back to 0 (`|| 0`).
- Negative numbers pass through unchanged.

Values the code lets through:

- Resize sends any non-zero parse, negatives included (lines 45-46).
- `applyTransformations` sends any non-zero rotation (lines 61-63). Only the form's buttons keep it to 0, 90, 180 or 270 (`Ui.ReachableRequests`).
- A crop offset that parses to 0 is sent as 0 (lines 55-56).

## Model

| member | source | states |
|---|---|---|
| `Decimal.ParseInt` | frontend/src/components/ImageTransform.js:45-56 | `parseInt` is `NaN` exactly when no digit follows the optional sign; a number needs non-empty text, and a negative one a leading '-' |
| `Decimal.DigitRunLength` | frontend/src/components/ImageTransform.js:45-46 | the digit run `parseInt` reads is all digits and stops at the first non-digit |
| `Decimal.ParseIntOfDecimal` | frontend/src/components/ImageTransform.js:53-56 | `parseInt` reads back any integer's decimal text and ignores what follows a non-digit ("12.5" reads as 12) |
| `Decimal.ParseIntRoundTrip` | frontend/src/components/ImageTransform.js:53-54 | `parseInt` is a left inverse of decimal printing for every integer |
| `Decimal.ParseIntOfDigits` | frontend/src/components/ImageTransform.js:45-56 | any run of digits, leading zeros included, followed by a non-digit reads as the run's value ("007" reads as 7, "00" as 0) |
| `Decimal.ParseIntOfNegatedDigits` | frontend/src/components/ImageTransform.js:45-56 | the same after a '-' reads as the negated value ("-0" and "-0.5" read as 0) |
| `Draft.Change` | frontend/src/components/ImageTransform.js:16-24 | with no field the whole category takes the value; with a field only that field changes and its sibling fields stay; every other category is unchanged; the result exists exactly when the value has the category's or field's kind |
| `Draft.ToggleFilter` | frontend/src/components/ImageTransform.js:26-34 | only the named filter changes, to the negation of its old value (a missing filter counts as off and is added as on); every other filter and every other category is unchanged |
| `Draft.ToggleTwiceRestores` | frontend/src/components/ImageTransform.js:26-34 | toggling a filter twice gives back the draft exactly when the filter was in the map; a missing one is left behind as `false` |
| `Draft.ToggleIsFilterChange` | frontend/src/components/ImageTransform.js:16-34 | the toggle is the generic handler writing the negated flag into the filter map |
| `Draft.Reset` | frontend/src/components/ImageTransform.js:95-105 | after a reset every input is empty, every filter off, the aspect-ratio flag set, the filter map holds grayscale and sepia, the message is empty and no result is shown; the loading flag is untouched |
| `Request.OrUndefined` | frontend/src/components/ImageTransform.js:45-46 | JavaScript's "parseInt, or else undefined" keeps the parsed number exactly when it is a non-zero number |
| `Request.OrZero` | frontend/src/components/ImageTransform.js:55-56 | JavaScript's "parseInt, or else 0" is the parsed number, or 0 for `NaN` |
| `Request.EnabledFilters` | frontend/src/components/ImageTransform.js:71-73 | the filter map sent holds exactly the enabled names, each mapped to true |
| `Request.Normalize` | frontend/src/components/ImageTransform.js:40-77 | resize iff width or height text is non-empty, each size the non-zero parse or absent; crop iff both sizes are non-empty, sizes parsed (possibly `NaN`), offsets parsed or 0; rotate iff non-zero and then equal; format iff non-empty and then verbatim; filters iff one is on, keys exactly the enabled names, all true |
| `Request.NormalizeEmptyIff` | frontend/src/components/ImageTransform.js:40-77 | the request is empty exactly when both resize texts are empty, a crop size is empty, rotation is 0, format is empty and no filter is on |
| `Request.BlankNormalizesEmpty` | frontend/src/components/ImageTransform.js:40-77 | a draft with every input empty and every filter off gives the empty request |
| `Request.ResetNormalizesEmpty` | frontend/src/components/ImageTransform.js:5-11 | the initial draft, and the draft after any reset, give the empty request |
| `Request.AspectRatioNotSent` | frontend/src/components/ImageTransform.js:43-48 | the aspect-ratio flag never affects the request |
| `Request.ChangeOnlyAffectsItsPart` | frontend/src/components/ImageTransform.js:16-24 | a generic update of one category leaves every other part of the request unchanged |
| `Request.ToggleOnlyAffectsFilters` | frontend/src/components/ImageTransform.js:71-77 | a toggle leaves resize, crop, rotate and format unchanged; the enabled set gains the name if it was off and loses it if it was on |
| `Request.ToggleTwiceSameRequest` | frontend/src/components/ImageTransform.js:26-34 | toggling a filter twice always gives the same request as before, even when the draft itself differs |
| `Request.NormalizeWellFormed` | frontend/src/components/ImageTransform.js:40-77 | no request has a zero resize size, a zero rotation, an empty format, or an empty or partly false filter map |
| `Request.NormalizeDraftFor` | frontend/src/components/ImageTransform.js:40-77 | every well-formed request is produced from some draft, so the normaliser's image is exactly the well-formed requests |
| `Request.ExampleResizeWidthOnly` | frontend/src/components/ImageTransform.js:43-48 | width "300" and empty height send a resize of width 300 with no height |
| `Request.ExampleCropWithoutHeight` | frontend/src/components/ImageTransform.js:51-58 | a crop with no height is dropped whatever its offsets |
| `Request.ExampleCropEmptyOffset` | frontend/src/components/ImageTransform.js:51-58 | crop 200 by 150 with offsets "" and "10" is sent as x 0, y 10 |
| `Request.ExampleRotateAndOneFilter` | frontend/src/components/ImageTransform.js:61-77 | rotation 180 is sent; grayscale on and sepia off sends only grayscale |
| `Request.ExampleZeroSizes` | frontend/src/components/ImageTransform.js:43-58 | a resize width of "0" sends a resize with neither size; a crop of "0" by "0" is sent with both sizes 0 |
| `Ui.StepKeepsShape` | frontend/src/components/ImageTransform.js:198-306 | every control the form renders keeps the rotation a right angle, the format one of the options, the filter map on its two checkboxes and the aspect-ratio flag set |
| `Ui.RunKeepsShape` | frontend/src/components/ImageTransform.js:198-306 | any sequence of rendered controls keeps that shape |
| `Ui.FormShapeRequests` | frontend/src/components/ImageTransform.js:256-306 | a draft of that shape sends only rotations 90, 180 or 270, formats jpeg, png or webp, and grayscale or sepia; toggling a checkbox twice restores it exactly |
| `Ui.ReachableRequests` | frontend/src/components/ImageTransform.js:256-306 | the same for every draft reached from the initial panel |

## Left out

- Posting the request and fetching the download URL (lines 79-83, 107-125) are network I/O with a bearer token. The model stops at the request value.
- The loading flag's life cycle, the success and failure messages, storing the result and the `onTransformed` callback (lines 37, 85-91) are left out. Only reset's effect on the message and result is modelled.
- The file-size text `(fileSize / 1024).toFixed(1)` is floating-point formatting and is left out.
- The download anchor, the preview `onError` fallback and all rendering are browser side effects and UI. The form is modelled only as the handler calls its controls make (`Ui.CallOf`).
- Decimal.ParseInt: models radix-10 `parseInt` over the text number inputs produce. It does not trim leading whitespace and does not read a "0x" prefix as hexadecimal; number inputs never produce either.
- Decimal.ParseInt: integers are unbounded. Very long digit strings, which JavaScript rounds to a double or to `Infinity`, are not modelled.
- Draft.Change: a value of the wrong kind, or a field the category does not have, gives `None`. JavaScript instead builds an object the typed draft cannot hold; no control of the form makes such a call (`Ui.Step`).
- Draft.Change: the category is one of the five draft keys; an unknown key, which JavaScript would add to the draft and the normaliser would ignore, is not modelled.
- Draft.ToggleFilter: filter names that collide with inherited JavaScript object properties (`toString` and the like) are treated as ordinary missing names.
