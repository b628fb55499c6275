# Lead-capture booking form: a Dafny model

This project models the logic of a multi-step lead-capture form for a marketing
agency and proves properties of it. The prospect fills in eleven steps. The
form advances only when the current step's fields pass its validation schema,
and it ends by booking a consultation through an embedded scheduling widget.
The values are then posted to an endpoint that appends one row to a
spreadsheet.

The model has nine modules:

- `JsValues` (`js_values.dfy`) covers the JavaScript values and conversions the core relies on:
  - JSON values;
  - truthiness;
  - property access;
  - `Number.prototype.toString` on integers, and its inverse;
  - `Array.prototype.join`.
- `FormSchema` (`form_schema.dfy`) holds the validation schema:
  - one rule and one message per field;
  - the cross-field rule that the target revenue must exceed the current revenue, reported on the target revenue;
  - the step table (`getFieldsForStep`);
  - the error map that whole-schema validation and per-step validation produce.
- `Booking` (`booking_form.dfy`) is the form controller. It is a class holding:
  - the step cursor;
  - the submission flag;
  - the values;
  - the error messages on display.

  It also provides the Continue, Back and submit operations, and which buttons are offered.
- `Submission` (`submission.dfy`) ties the browser's `ok` test to the endpoint's answers.
- `SubmitRoute` (`submit_route.dfy`) is the submission endpoint:
  - the thirteen-column row and its three normalisations;
  - the choice between the 500, 403, 500 and 200 answers.
- `Calendly` (`calendly_step.dfy`) is the scheduling step's message handler. It is a class that writes the form's `startTime` and its own `scheduledTime` and `isScheduled`.
- `RadioCard` (`radio_card.dfy`) is the card whose repeated click unselects.
- `BusinessTypeStep` (`business_type_step.dfy`) and `ObstacleStep` (`obstacle_step.dfy`) are the two steps that use that card. One clears to `undefined` and the other to `''`.

The library's email and URL checks are parameters, as a `Formats` value. Date
parsing and locale formatting are parameters too, as a `DateLib` value. The
spreadsheet service, the request-body parser and the clock are represented only
by their outcomes, which are passed in.

Six behaviours of the code are easy to misread, and the model follows the code in each:

- The scheduling step reads `payload.invitee.start_time` first and `payload.event.start_time` only when the former is falsy. It never reads `payload.scheduling`. It gives up, with the fallback text, when there is no invitee, even if the event carries a start time (`Calendly.EventStartNeedsInvitee`).
- `otherBusinessType` and `otherObstacle` are schema fields that no step gates (`FormSchema.StepOf`).
- Validating one step refreshes only that step's fields; messages on other fields stay as they were (`FormSchema.Revalidate`).
- The business type has three states: `undefined`, `null` and a string. The business-type cards register their radio inputs when they mount. If the field is `undefined` at that moment, registering reads it from the inputs, and with none checked that gives `null` (`Booking.RegisteredChoice`). The optional enum rejects `null`. So Continue on step 3 without a choice stays on step 3 with the library's type message. This happens on first arrival, and again after an unselect followed by leaving and returning (`BusinessTypeStep.MountWithoutChoiceBlocks`). An unselect that stays on the step leaves the field `undefined`, which passes (`BusinessTypeStep.UnselectKeepsGate`).
- The cross-field revenue rule runs only when the business type is unset or one of the enum values. A business type that is `null` or outside the enum aborts the object's parse before the rule, so step 9 can then pass with the target at or below the monthly revenue (`FormSchema.InvalidBusinessTypeSilencesRefine`, `FormSchema.UncheckedBlocksStep3`).
- Building the row can throw: a revenue, or an element of the channels array, that the body parser gives as an object with its own `toString` property makes the conversion fail. The endpoint then answers 500 and appends nothing (`SubmitRoute.OwnToStringFails`).

## Model

| member | source | states |
|---|---|---|
| JsValues.IntDecimalRoundTrip | app/api/submit-form/route.ts:70-71 | the decimal string an integer revenue is written as reads back as that integer |
| JsValues.Truthy | app/api/submit-form/route.ts:68-71 | `null` and `undefined` are falsy, arrays and objects truthy, and a string is truthy exactly when non-empty |
| JsValues.IntToDecimal | app/api/submit-form/route.ts:70-71 | an integer prints as at least one digit with no leading zero, preceded by "-" exactly when negative |
| JsValues.Lookup | app/components/steps/CalendlyStep.tsx:48-55 | property access on a value that is not `null` or `undefined` gives the object's own property, or `undefined` when there is none |
| JsValues.Printable | app/api/submit-form/route.ts:65-71 | converting to a string succeeds for every primitive, fails on an object with its own `toString`, and succeeds on an array exactly when it does on each element |
| JsValues.ToJsString | app/api/submit-form/route.ts:65-71 | converting a value that has no own `toString` to a string: a string is itself, an integer its decimal form, an empty array the empty string |
| JsValues.Join | app/api/submit-form/route.ts:65 | `join` of no parts is the empty string; otherwise its length is the parts' lengths plus one separator between each pair, and it starts with the first part |
| JsValues.JoinAppend | app/api/submit-form/route.ts:65 | joining one more part appends the separator and that part, which fixes the contents of every join |
| JsValues.ElementStrings | app/api/submit-form/route.ts:65 | `join` prints one string per array element; a string element prints as itself and `null` or `undefined` as the empty string |
| FormSchema.Text | app/components/BookingForm.tsx:22-42 | the words of each message; the enum message quotes the value it received |
| FormSchema.FieldIssue | app/components/BookingForm.tsx:21-37 | no field's own rule yields the cross-field message; the free-text fields have no rule; the business type has no message exactly when the refine would run (unset or in the enum) |
| FormSchema.Issue | app/components/BookingForm.tsx:21-45 | a field other than the target revenue shows its own rule's message; the target revenue at 1 or more shows the cross-field message exactly when the refine runs and the target does not exceed the monthly revenue |
| FormSchema.FieldRules | app/components/BookingForm.tsx:21-45 | a field shows no message exactly when its schema rule holds: name length at least 2, email well formed, business type unset or one of product/service/other, at least one channel, country/budget/obstacle/start time non-empty, website empty or a URL, description length at least 10, revenues at least 1, target above current, unless the business type is rejected (`null` or outside the enum), which skips the cross-field rule |
| FormSchema.CrossFieldRuleOnTarget | app/components/BookingForm.tsx:21-45 | with a business type the schema accepts and a target of at least 1, the target shows the cross-field message exactly when it is at most the monthly revenue; with a rejected business type it never does; the monthly revenue's verdict does not depend on the target; no other field ever shows that message |
| FormSchema.InvalidBusinessTypeSilencesRefine | app/components/BookingForm.tsx:24-45 | with the business type "retail" and a target at most the monthly revenue, step 3 fails but step 9 passes |
| FormSchema.UncheckedBlocksStep3 | app/components/BookingForm.tsx:24-45 | a `null` business type shows the library's "received null" message, fails step 3 and skips the cross-field rule |
| FormSchema.StepOf | app/components/BookingForm.tsx:116-143 | every field but `otherBusinessType` and `otherObstacle` is gated by a step in 1..11 |
| FormSchema.FieldsForStep | app/components/BookingForm.tsx:116-143 | step 9 gates the monthly and the target revenue, every other step in 1..11 exactly one field, any other index none; a field is listed for a step exactly when that step gates it |
| FormSchema.StepGate | app/components/BookingForm.tsx:116-143 | each step's gate passes exactly when the rules of the fields it lists hold; step 9's includes the cross-field rule, which holds whenever the business type is rejected |
| FormSchema.SchemaIsAllSteps | app/components/BookingForm.tsx:116-143 | the whole schema passes exactly when all eleven step gates pass |
| FormSchema.SchemaErrors | app/components/BookingForm.tsx:21-45 | whole-schema validation reports exactly the failing fields, each with its first message |
| FormSchema.Revalidate | app/components/BookingForm.tsx:105 | validating some fields replaces their entries with the schema's verdict and keeps every other entry unchanged |
| FormSchema.DefaultsBlockFirstStep | app/components/BookingForm.tsx:56-71 | the mount-time values fail step 1 with the name message, pass steps 3 and 7, and fail steps 4, 5, 6, 8, 9, 10 and 11 |
| Booking.NextStepOf | app/components/BookingForm.tsx:101-110 | before the last step, Continue moves one step forward exactly when the step's gate passes and otherwise stays; it never leaves 1..11 |
| Booking.PrevStepOf | app/components/BookingForm.tsx:112-114 | Back moves to `max(step - 1, 1)` |
| Booking.Buttons | app/components/BookingForm.tsx:198-225 | Back is offered exactly when step > 1, Continue exactly when step < 11, submit exactly from step 11; exactly one of Continue and submit shows; all are disabled while submitting and enabled otherwise |
| Booking.StepStaysInRange | app/components/BookingForm.tsx:101-114 | from any step in 1..11, every sequence of Continue, Back and edits stays in 1..11 |
| Booking.NavigationKeepsValues | app/components/BookingForm.tsx:101-114 | Continue and Back never change the values |
| Booking.ReachedStepsPassedGates | app/components/BookingForm.tsx:101-110 | without edits, the form only ever stands on a step whose earlier gates all pass |
| Booking.BackThenContinue | app/components/BookingForm.tsx:101-114 | from step 5, Back then Continue returns to step 5 with the values unchanged when step 4's gate passes |
| Booking.ResponseOk | app/components/BookingForm.tsx:87 | the browser reports 200 as `ok` and the endpoint's 403 and 500 as not; `ok` lies in the 2xx range |
| Booking.RegisteredChoice | app/components/RadioCard.tsx:38-43 | registering a radio group never leaves its field `undefined`: an unset field becomes `null`, and a defined one is kept |
| Submission.OkOnlyWhenStored | app/components/BookingForm.tsx:87-92 | against the endpoint, the browser's `ok` holds exactly on the 200 answer, and then a row was built and handed to the sheet |
| Booking.BookingForm.constructor | app/components/BookingForm.tsx:50-72 | the form mounts on step 1, not submitting, never submitted, with the default values and no messages |
| Booking.BookingForm.NextStep | app/components/BookingForm.tsx:101-110 | Continue refreshes the current step's messages, reports whether its gate passed, and moves the cursor as `NextStepOf` says; nothing else changes |
| Booking.BookingForm.PrevStep | app/components/BookingForm.tsx:112-114 | Back moves the cursor as `PrevStepOf` says, without validation; values and messages are untouched |
| Booking.BookingForm.Submit | app/components/BookingForm.tsx:74-85 | a submit attempt always marks the form as submitted; the values are sent exactly when the whole schema passes, and then the submitting flag is raised and the messages cleared; otherwise every failing field's message is shown and the submitting flag is left alone |
| Booking.BookingForm.SubmitSettled | app/components/BookingForm.tsx:87-98 | the flag drops on success, on a non-ok answer and on a failed request alike; the redirect happens exactly on an ok answer |
| Booking.BookingForm.SetStartTime | app/components/steps/CalendlyStep.tsx:85 | writing the start time with validation refreshes only the start time's message |
| Booking.BookingForm.SetBusinessType | app/components/steps/BusinessTypeStep.tsx:33 | writes the business type and nothing else |
| Booking.BookingForm.RegisterBusinessTypeRadios | app/components/RadioCard.tsx:38-43 | registering the business-type radios changes the business type as `RegisteredChoice` says, and nothing else |
| Booking.BookingForm.SetObstacle | app/components/steps/ObstacleStep.tsx:65 | writes the obstacle and nothing else |
| Booking.BookingForm.InputBusinessType | app/components/RadioCard.tsx:38-43 | a change from the business type's radio input writes it, and after a submit attempt refreshes only its message |
| Booking.BookingForm.InputObstacle | app/components/RadioCard.tsx:38-43 | a change from the obstacle's radio input writes it, and after a submit attempt refreshes only its message |
| SubmitRoute.SourceKey | app/api/submit-form/route.ts:43-75 | every column but the timestamp copies a body property |
| SubmitRoute.Prop | app/api/submit-form/route.ts:43-56 | a property missing from the body destructures to `undefined` |
| SubmitRoute.ChannelsCell | app/api/submit-form/route.ts:65 | an array of channels becomes its elements joined by ", ", and the join fails exactly when an element is, or holds at any depth of nested arrays, an object with its own `toString`; any other value passes through |
| SubmitRoute.WebsiteCell | app/api/submit-form/route.ts:68 | a falsy website becomes "N/A", any other is copied; the cell is never falsy |
| SubmitRoute.RevenueCell | app/api/submit-form/route.ts:70-71 | a missing revenue becomes "0", a number its decimal string, a string itself unless empty; the conversion fails exactly on a present value that is, or holds at any depth of nested arrays, an object with its own `toString`; the cell is never empty |
| SubmitRoute.BuildRow | app/api/submit-form/route.ts:59-75 | a row is built exactly when no conversion throws, and then it has exactly 13 entries, one per column |
| SubmitRoute.Position | app/api/submit-form/route.ts:59-75 | the column order is timestamp, name, email, business type, channels, country, budget, website, description, monthly revenue, target revenue, obstacle, start time |
| SubmitRoute.RowFollowsColumns | app/api/submit-form/route.ts:59-75 | each column's entry sits at the column's position, normalised as that column demands |
| SubmitRoute.RowIgnoresOtherProperties | app/api/submit-form/route.ts:43-56 | no property outside the twelve destructured ones affects the row |
| SubmitRoute.FreeTextNeverStored | app/api/submit-form/route.ts:43-56 | `otherBusinessType` and `otherObstacle` never reach the row |
| SubmitRoute.ChannelsExample | app/api/submit-form/route.ts:65 | ["seo", "email"] is stored as "seo, email" |
| SubmitRoute.TextLandsAsPosted | app/api/submit-form/route.ts:59-75 | the timestamp, name, email, obstacle and start time land in their columns as posted |
| SubmitRoute.FormPostIsStorable | app/api/submit-form/route.ts:59-75 | a body as the form posts it, string channels and numeric revenues, always builds a row |
| SubmitRoute.ChannelsLandJoined | app/api/submit-form/route.ts:65 | posted channel names land joined by ", " |
| SubmitRoute.RevenuesReadBack | app/api/submit-form/route.ts:70-71 | posted numeric revenues land as decimal strings that read back as the numbers posted |
| SubmitRoute.MissingRevenuesAreZero | app/api/submit-form/route.ts:70-71 | a body without revenues stores "0" in both revenue columns |
| SubmitRoute.Post | app/api/submit-form/route.ts:16-99 | the answer is 200, 403 or 500; exactly the 200 answer carries the success body; a 403 carries the permission message and appends nothing |
| SubmitRoute.Configured | app/api/submit-form/route.ts:17 | a missing or empty spreadsheet id is not configured; a configured one is non-empty |
| SubmitRoute.PostStatus | app/api/submit-form/route.ts:16-99 | a missing id gives 500 with the configuration error and no append. 403 comes exactly from a 403 on the access check. 200 comes exactly when configuration, access, body, row building and append (status 200) all succeed |
| SubmitRoute.PostAppendsBuiltRow | app/api/submit-form/route.ts:59-92 | a row is handed to the sheet exactly when configuration, access and body are all fine and the row could be built, and it is the built row |
| SubmitRoute.OwnToStringFails | app/api/submit-form/route.ts:70-99 | a monthly revenue parsed as `{"toString": 1}` gives 500 with nothing appended, even with the sheet reachable |
| Calendly.Display | app/components/steps/CalendlyStep.tsx:82 | the shown time is the formatted date, " at ", then the formatted time, and nothing else |
| Calendly.IsScheduledMessage | app/components/steps/CalendlyStep.tsx:35-44 | a message is a scheduled event exactly when its data is an object whose `event` property is the string `calendly.event_scheduled` |
| Calendly.ResolveStart | app/components/steps/CalendlyStep.tsx:48-55 | a start time is found only with a truthy payload and a truthy invitee; with both present, reading fails only when the event is missing |
| Calendly.React | app/components/steps/CalendlyStep.tsx:35-82 | a message gets a reaction exactly when it is a scheduled event; a confirmation always shows non-empty text |
| Calendly.HandleEvent | app/components/steps/CalendlyStep.tsx:32-95 | anything but a scheduled message leaves the state alone; a scheduled one marks the step scheduled with a non-empty start time; the shown time is kept or becomes the start time |
| Calendly.Apply | app/components/steps/CalendlyStep.tsx:85-92 | ignoring changes nothing; a confirmation sets the start time and the shown time to the formatted time and marks the step scheduled; a fallback sets the fallback text, marks it scheduled and keeps the shown time |
| Calendly.IgnoredMessages | app/components/steps/CalendlyStep.tsx:35-44 | a message is ignored exactly when its data is falsy or its event is not `calendly.event_scheduled`, and then nothing changes |
| Calendly.UnscheduledMessagesChangeNothing | app/components/steps/CalendlyStep.tsx:35-44 | any sequence of messages that are not scheduled events leaves the state as it was |
| Calendly.MissingInviteeFallsBack | app/components/steps/CalendlyStep.tsx:48-49 | a scheduled message without a payload or without an invitee sets the fallback text, marks the step scheduled and keeps the shown time |
| Calendly.StartLookupOrder | app/components/steps/CalendlyStep.tsx:55 | the invitee's start time is used when truthy; otherwise the event's, and reading it throws when there is no event |
| Calendly.EventStartNeedsInvitee | app/components/steps/CalendlyStep.tsx:48-55 | a start time given only on the event is used when an invitee without one is present; without an invitee the same message gives up |
| Calendly.ConfirmedOnlyWithParsedStart | app/components/steps/CalendlyStep.tsx:55-82 | a scheduled message is confirmed exactly when a truthy start time is found and parses as a date, and then shows that date and time; every other one falls back |
| Calendly.ScheduledUnblocksLastStep | app/components/steps/CalendlyStep.tsx:85-92 | every scheduled message leaves a non-empty start time and marks the step scheduled, so the step-11 gate passes |
| Calendly.LaterConfirmationWins | app/components/steps/CalendlyStep.tsx:85-87 | a confirmation after any other message leaves the same state as that confirmation alone |
| Calendly.LastScheduledMessageWins | app/components/steps/CalendlyStep.tsx:85-92 | after any sequence of messages, the start time is the one the last scheduled message produced |
| Calendly.CalendlyStep.constructor | app/components/steps/CalendlyStep.tsx:26-27 | the step mounts on the given form and date library, unscheduled, with an empty shown time |
| Calendly.CalendlyStep.HandleCalendlyEvent | app/components/steps/CalendlyStep.tsx:32-95 | the listener moves the start time, shown time and flag as `HandleEvent` says. It changes no other value. It refreshes the start time's message exactly on scheduled messages |
| RadioCard.IsSelected | app/components/RadioCard.tsx:27 | an unset current value selects no card; a card is selected exactly when the current value is its own |
| RadioCard.HandleClick | app/components/RadioCard.tsx:29-34 | a click unselects exactly when the card is selected and has an unselect handler; otherwise the radio input selects it |
| RadioCard.SelectedCards | app/components/RadioCard.tsx:27 | a card shows as selected exactly when the current value equals its value |
| RadioCard.AtMostOneSelected | app/components/RadioCard.tsx:27 | in a group of distinct cards sharing one current value, at most one card is selected, and exactly the current one when it is offered |
| BusinessTypeStep.OffersWithinSchema | app/components/steps/BusinessTypeStep.tsx:13-26 | the offered values are distinct and accepted by the schema, and "other" is accepted but never offered |
| BusinessTypeStep.CurrentValue | app/components/steps/BusinessTypeStep.tsx:30 | a card compares against the watched value, and only a chosen string can equal a card's value |
| BusinessTypeStep.ClickCard | app/components/steps/BusinessTypeStep.tsx:42-53 | clicking the selected card clears the business type to `undefined`; clicking another, also from `null`, selects it |
| BusinessTypeStep.ClicksAlternate | app/components/steps/BusinessTypeStep.tsx:42-53 | repeated clicks on one card alternate, so three clicks equal one |
| BusinessTypeStep.UnselectKeepsGate | app/components/steps/BusinessTypeStep.tsx:32-34 | after unselecting, and while the cards stay mounted, the step-3 gate passes |
| BusinessTypeStep.MountWithoutChoiceBlocks | app/components/steps/BusinessTypeStep.tsx:42-53 | mounting the cards over an unset business type makes Continue stay on step 3 with the "received null" message |
| BusinessTypeStep.MountKeepsChoice | app/components/steps/BusinessTypeStep.tsx:42-53 | mounting the cards over a chosen business type leaves the values unchanged |
| BusinessTypeStep.ClicksKeepGate | app/components/steps/BusinessTypeStep.tsx:42-53 | starting from an offered value, `undefined` or `null`, any click on an offered card leaves the step-3 gate passing |
| BusinessTypeStep.HandleUnselect | app/components/steps/BusinessTypeStep.tsx:32-34 | unselecting sets the business type to `undefined` and nothing else |
| BusinessTypeStep.Mount | app/components/steps/BusinessTypeStep.tsx:42-53 | rendering the step registers the cards' radios, changing the business type as `RegisteredChoice` says and nothing else |
| BusinessTypeStep.Click | app/components/steps/BusinessTypeStep.tsx:42-53 | a click updates the business type as `ClickCard` says and no other value; a click that selects refreshes the business type's message after a submit attempt, and otherwise the messages stay |
| ObstacleStep.ClickCard | app/components/steps/ObstacleStep.tsx:74-86 | clicking the selected card clears the obstacle to ''; clicking another selects it |
| ObstacleStep.ClicksAlternate | app/components/steps/ObstacleStep.tsx:74-86 | repeated clicks on one card alternate, so three clicks equal one |
| ObstacleStep.OffersPassGate | app/components/steps/ObstacleStep.tsx:20-57 | the six offered values are distinct and each passes the step-10 gate |
| ObstacleStep.UnselectBlocksGate | app/components/steps/ObstacleStep.tsx:64-66 | after unselecting, the step-10 gate fails with the obstacle message |
| ObstacleStep.ShowOtherInput | app/components/steps/ObstacleStep.tsx:62 | the free-text box shows exactly when the current obstacle is the last offered card, "other" |
| ObstacleStep.OtherCardShowsInput | app/components/steps/ObstacleStep.tsx:62 | clicking "other" shows the free-text box unless that click unselects "other" |
| ObstacleStep.HandleUnselect | app/components/steps/ObstacleStep.tsx:64-66 | unselecting sets the obstacle to '' and nothing else |
| ObstacleStep.Click | app/components/steps/ObstacleStep.tsx:74-86 | a click updates the obstacle as `ClickCard` says and no other value; a click that selects refreshes the obstacle's message after a submit attempt, and otherwise the messages stay |

## Left out

- Revenues are integers. JavaScript floating point, and the `NaN` an emptied number input yields, are not modelled.
- JsValues.IntToDecimal: does not model JavaScript's exponent form, which `toString` uses for magnitudes of 1e21 and above (`1e+21`); the model prints every integer in plain decimal digits.
- The email regular expression and URL parsing are the `Formats` parameters. Date parsing (`new Date`), `toLocaleDateString`, `toLocaleTimeString` and `toISOString` are the `DateLib` parameters and the timestamp argument.
- Apart from the business type's three states, the values are typed as the schema expects. The ways the object's parse aborts that the model covers are a `null` business type, which the cards produce, and a string outside the enum. A value of the wrong type in another field, which would also skip the cross-field rule, cannot occur in the model.
- Rendering is not modelled, so `BusinessTypeStep.Mount` is an operation the caller invokes when step 3 appears.
- Network and browser I/O are represented only by their outcomes:
  - the spreadsheet API calls;
  - `fetch`;
  - `request.json()`;
  - the redirect to the success page;
  - `alert`;
  - `console` logging.

  A body that fails to parse, or parses to `null` (destructuring then throws), is the request's `None`.
- The posted body is a map from property names to values. A parsed body that is an array or primitive, which yields `undefined` for every property, is represented by the empty map.
- Script loading, the listener's registration and removal, and `isCalendlyLoaded` are left out.
- The asynchronous `trigger` promise and React's batched state updates are treated as taking effect at once. A Continue pressed again before validation settles is not modelled.
- Booking.BookingForm.Submit: does not model the button label "Submitting..." or rendering.
- Booking.BookingForm.NextStep: the step it validates is assumed to be current when validation settles. In the code the functional update uses the step at that later time.
- Calendly.React: a truthy `event` without an `indexOf` method, such as a number or an object, makes line 40 throw. The listener then stops without a state change, which the model treats the same as an ignored message. An array `event` does not throw there and is ignored at line 44, so the outcome is the same.
- String lengths count characters, not UTF-16 code units.
- The step components that only register inputs are left out: name, email, channels, country, budget, website, description and revenue. Their rules live in `FormSchema`. Edits to those fields after a submit attempt also re-validate the edited field, as `InputBusinessType` does for the business type; that is not modelled for them.
- How a checkbox group builds its array is left out; the channels are whatever array the form holds.
- Layout, styling and the progress bar are left out.
