# SlackFeedback widget: a Dafny model of its interaction state machine

`SlackFeedback` is a React component that collects a feedback report (type,
name, email, message, an optional image) and hands a Slack message payload
to a caller-supplied `onSubmit` function. Under its markup it is a small
event-driven state machine over one state record (`active`, `sendURL`,
`sending`, `sent`, `error`, `uploadingImage`, `selectedType`, `image`,
`hasPassedChallenge`), driven by UI events, by callbacks from its
collaborators and by timers.

The model has five modules:

- `JsValues` (values.dfy): the loosely typed values the handlers receive
  (`undefined`, `null`, booleans, numbers, strings, objects with a `status`),
  JavaScript truthiness, the state's `error` entry and `image` object.
- `Payload` (payload.dfy): the pure parts: `determineErrorType` and its
  status switch, the category-to-colour switch, the message template, the
  Slack payload, the submit-button label and the image area of `render`.
- `Machine` (machine.dfy): `this.state` as the record `ComponentState`, the
  whole widget (state, inputs, listeners, pending timers, payloads handed to
  `onSubmit`, files handed to `onImageUpload`) as `WidgetState`, one
  transition function per handler, the event type, `Step`, `Run` over event
  sequences, and the invariant `Inv` of reachable states.
- `Properties` (properties.dfy): lemmas about single handlers, short
  scenarios, and inductive facts about every event sequence.
- `Component` (component.dfy): the class `SlackFeedback`. Its field `state`
  is replaced by a merged record on every `setState`, as in React. Each
  handler is a method whose postcondition equates the new object with the
  transition of the same name applied to the old one, so everything proved
  about `Machine` holds of the object.

Every handler is followed by its `setState` completion callback, which runs
before any other event: the callback of `sent` empties the inputs and
schedules the reset of `sent`, the callback of `uploadError` calls
`removeImage`. The model applies the two together. Timers are pending
entries that a `TimerFires` event runs, in whatever order the caller picks.
The page address, the challenge response and the browser's preview address
are parameters.

Where the code's evident intent and its behaviour differ, the model follows
the behaviour:

- `determineErrorType` always answers "Unexpected Error!". Its guard returns
  early for every non-string. A string has no `status`, so the switch always
  falls to `default`. An error object with status 404 therefore shows
  "Unexpected Error!", not "Channel Not Found!" (`StatusIsIgnored`,
  `NotFoundScenario`).
- `send` is gated on the challenge's current response, not on
  `hasPassedChallenge`, which nothing reads.
- `close` removes a newly bound function, so no listener is ever removed, and
  each opening adds one (`ListenersOnlyAccumulate`, `OpenCloseLeaksListener`).
  `activate` flips `active` rather than setting it.
- An upload result that arrives after `removeImage` brings back an image that
  holds only the URL, and the next submit sends it (`StaleUploadIsResent`).
- A reset timer overwrites `error` or `sent` whatever happened since it was
  scheduled (`OldErrorTimerClearsNewError`).
- `uploadError` writes the key `uploading`, which nothing reads. Only the
  `removeImage` that follows clears `uploadingImage` (`UploadErrorOutcome`).
- `sending` is missing from the initial record. It reads as `undefined`,
  which is falsy, and the model stores it as `false`.
- The colour switch has no default, so any other category leaves the colour
  undefined. The fallback text is `Feedback (<type>)`.
- `sent` does not reset `uploadingImage`. A submit made while "Sent!" is
  still shown sets `sending` beside `sent`, and the label stays "Sent!"
  (`SendingAndSentOverlap`).
- `disabled` is checked only by `render`, which then renders nothing. The
  handlers still run if called. `send` then throws on reading the missing
  inputs after its challenge check and before `setState`. The callback of
  `sent` throws before clearing the inputs, so no reset of `sent` is
  scheduled (`SendRefusedChangesNothing`, `SentResetsForm`).

## Model

| member | source | states |
|---|---|---|
| `JsValues.StatusOf` | index.js:254 | only an object can carry a `status`; a string, number or boolean reads as undefined |
| `Payload.StatusMessage` | index.js:254-261 | 400 gives "Bad Request!", 403 "Forbidden!", 404 "Channel Not Found!", 410 "Channel is Archived!", 500 "Server Error!"; every other status, or none, gives "Unexpected Error!" |
| `Payload.DetermineErrorType` | index.js:251-262 | the result is "Unexpected Error!" for every argument |
| `Payload.Level` | index.js:289-300 | a colour exists exactly for Bug, Feature and Improvement, and is one of danger, good, warning |
| `Payload.ComposeMessage` | index.js:282-287 | the text is the four interpolated values plus the fixed template, character for character in length |
| `Payload.BuildPayload` | index.js:272-320 | the payload is well formed for the props, titled and linked as given, its text is the composed message, and `image_url` is present exactly when the image URL is non-empty, equal to it |
| `Payload.Render` | index.js:69-142 | nothing is rendered exactly while disabled; otherwise the button shows `SubmitLabel` and the image area is offered exactly when `onImageUpload` is given |
| `Payload.SubmitLabel` | index.js:81-85 | a truthy error text wins; otherwise "Sent!" if sent, "Sending Feedback..." if sending, else "Send Feedback" |
| `Payload.ImageArea` | index.js:374-422 | nothing is offered without `onImageUpload`; a non-empty preview is shown, with the loader exactly while uploading; otherwise the attach button |
| `Properties.StatusIsIgnored` | index.js:251-261 | the switch maps 404 to "Channel Not Found!", yet an error object with any status gets "Unexpected Error!" |
| `Properties.LevelIdentifiesCategory` | index.js:290-300 | Bug is danger, Feature good, Improvement warning; equal colours mean equal categories |
| `Properties.MessageMentionsEverything` | index.js:282-287 | the message text contains the name, the email, the message and the page address |
| `Properties.PayloadCarriesReport` | index.js:302-320 | the payload is well formed, titled by the category, with fallback `Feedback (<type>)`, colour by category, the full report in its text, and `image_url` present exactly when the image URL is non-empty, equal to it |
| `Properties.ToggleInvertsActive` | index.js:177-208 | `toggle` inverts `active` and adds a listener only when opening; `close` leaves `active` false |
| `Properties.StepListeners` | index.js:185-208 | only an opening toggle changes the listener count, by one |
| `Properties.ListenersOnlyAccumulate` | index.js:190-207 | no sequence of events ever lowers the number of registered listeners |
| `Properties.OpenCloseLeaksListener` | index.js:177-208 | opening and closing leaves the widget closed with one more listener |
| `Properties.SendRefusedChangesNothing` | index.js:267-275 | `send` with an empty challenge response, or on a disabled widget whose inputs are missing, changes nothing and calls no `onSubmit` |
| `Properties.SendSubmitsPayload` | index.js:272-323 | with a response on an enabled widget, `send` sets `sending`, appends the payload built from the previous state, and changes nothing else |
| `Properties.StepSubmissions` | index.js:264-324 | an event adds a payload exactly when it is a submit with a challenge response on an enabled widget; no event changes the props |
| `Properties.SubmissionsMatchAnsweredSubmits` | index.js:264-324 | over any event sequence, `onSubmit` is called once per answered submit (never while disabled) and earlier payloads are kept |
| `Properties.NoResponseNoSubmission` | index.js:267-270 | a session without any challenge response never reaches `onSubmit` |
| `Properties.SentResetsForm` | index.js:222-236 | after `sent`: not sending, sent, image empty, error false, challenge flag false, label "Sent!"; inputs emptied and one reset timer scheduled exactly when enabled, otherwise both untouched |
| `Properties.SentTimerOnlyClearsSent` | index.js:233-235 | the timer of `sent` sets `sent` to false and changes nothing else |
| `Properties.StepKeepsSent` | index.js:222-235 | no event other than the reset-sent timer turns `sent` off |
| `Properties.SentPersistsUntilTimer` | index.js:222-235 | once set, `sent` stays set over any event sequence without that timer |
| `Properties.ErrorTimerOnlyClearsError` | index.js:245-247 | a timer of `error` or `uploadError` sets `error` to `null` and changes nothing else |
| `Properties.ErrorShowsUnexpected` | index.js:239-249 | `error(err)` ends sending, shows "Unexpected Error!" and schedules one reset |
| `Properties.OldErrorTimerClearsNewError` | index.js:245-247 | a timer left from an earlier error clears a newer error |
| `Properties.SendingAndSentOverlap` | index.js:81-85 | submitting while "Sent!" is shown on an enabled widget makes `sending` and `sent` both true; the label stays "Sent!" |
| `Properties.BugReportScenario` | index.js:272-317 | on an enabled widget a Bug report gives one payload coloured danger, titled Bug, whose text holds name, email, message and address; a disabled one sends nothing |
| `Properties.NotFoundScenario` | index.js:239-262 | a 404 shows "Unexpected Error!", and "Send Feedback" after its timer |
| `Properties.AttachImageStartsUpload` | index.js:326-339 | a chosen file becomes the image with its preview, the upload is marked running, `onImageUpload` gets it only when supplied; an empty choice changes nothing |
| `Properties.ImageUploadedOutcome` | index.js:356-372 | a string URL is added beside the kept preview, a non-string empties the image; the upload ends either way |
| `Properties.RemoveImageEmpties` | index.js:396-403 | `removeImage` leaves an empty image and no upload running |
| `Properties.UploadErrorOutcome` | index.js:341-354 | the fixed upload error is shown, the image emptied, `uploadingImage` cleared only by `removeImage`, one reset scheduled |
| `Properties.StaleUploadIsResent` | index.js:363-371 | an upload result after `removeImage` restores an image with only the URL, and the next submit of an enabled widget sends that URL |
| `Properties.InitialSatisfiesInv` | index.js:48-57 | the initial state satisfies the invariant |
| `Properties.StepPreservesInv` | index.js:173-403 | every handler keeps the invariant: known error texts, a selected file has a preview and no URL, payloads well formed, timers known |
| `Properties.RunPreservesInv` | index.js:173-403 | every event sequence keeps the invariant |
| `Properties.LabelIsOneOfFive` | index.js:81-85 | in every reachable state the submit label is one of five strings |
| `Component.SlackFeedback.constructor` | index.js:45-58 | the new object is the initial state |
| `Component.SlackFeedback.Toggle` | index.js:177-183 | as `Machine.Toggle` |
| `Component.SlackFeedback.Activate` | index.js:185-191 | as `Machine.Activate` |
| `Component.SlackFeedback.Close` | index.js:202-208 | as `Machine.Close` |
| `Component.SlackFeedback.HandleClickOutside` | index.js:193-200 | as `Machine.HandleClickOutside` |
| `Component.SlackFeedback.VerifyReCAPTCHA` | index.js:173-175 | as `Machine.VerifyReCAPTCHA` |
| `Component.SlackFeedback.ToggleSendURL` | index.js:210-214 | as `Machine.ToggleSendURL` |
| `Component.SlackFeedback.SelectType` | index.js:216-220 | as `Machine.SelectType` |
| `Component.SlackFeedback.EditFields` | index.js:113-139 | as `Machine.EditFields` |
| `Component.SlackFeedback.Send` | index.js:264-324 | as `Machine.Send`; the payload is returned exactly when the response is non-empty and the widget enabled, and it is the one appended |
| `Component.SlackFeedback.Sent` | index.js:222-237 | as `Machine.Sent` |
| `Component.SlackFeedback.Error` | index.js:239-249 | as `Machine.Error` |
| `Component.SlackFeedback.AttachImage` | index.js:326-339 | as `Machine.AttachImage` |
| `Component.SlackFeedback.RemoveImage` | index.js:396-403 | as `Machine.RemoveImage` |
| `Component.SlackFeedback.UploadError` | index.js:341-354 | as `Machine.UploadError` |
| `Component.SlackFeedback.ImageUploaded` | index.js:356-372 | as `Machine.ImageUploaded` |
| `Component.SlackFeedback.TimerFires` | index.js:233-247 | as `Machine.TimerFires` |
| `Component.SlackFeedback.SubmitText` | index.js:81-85 | the label computed by the sequential overrides equals `SubmitLabel` of the state |

## Left out

- JSX, `Helmet` script injection and CSS classes are not modelled. The
  `disabled` class of the submit button is only a class: it does not stop a
  submit. Of `render` only the label and the image area are modelled
  (`Payload.Render`).
- The `required` attribute of the email and message inputs (index.js:117,
  138) makes the browser refuse to submit while either is empty. The model
  lets `Submitted` happen with any inputs.
- The props are fixed for the whole run: `Props` is a constant of the
  widget, and a parent re-rendering with new props is not modelled. While
  disabled nothing is rendered, so no UI event can occur. The model still
  lets every event happen and gives each handler its behaviour as written.
- The `grecaptcha` polling interval and `grecaptcha.render` (index.js:60-67,
  166-171) load an external script. The challenge's response is the string
  parameter of `Send`. A missing `grecaptcha` would throw; that case is not
  modelled.
- The document listeners are a counter. A click runs `HandleClickOutside`
  once, although every leaked listener runs it; `close` is idempotent, so
  the state is the same. `refs.SlackFeedback.contains` is the boolean
  `insideWidget`.
- `window.URL.createObjectURL`, `alert`, `console.error` and
  `document.location.href` are browser calls. Their results are parameters;
  the alert is `Send` returning `None`; the console message is dropped.
- `setTimeout` scheduling is not modelled. Pending callbacks are a multiset,
  and the delays (5, 8 and 6 seconds) are constants that label them.
- `onSubmit` and `onImageUpload` are external. The model records what they
  are handed.
- React's `defaultProps` resolution is not modelled; `Props` holds the
  resolved values. The `sending` prop and the `types` constant are never
  read by the component.
- Numbers in `JsValue` are integers, and an object is reduced to its
  `status`.
- The class methods do not carry the invariant as a precondition. It is
  proved of `Machine` for every event sequence from the initial state, and
  each method equals a `Machine` transition.
- Unmounting is not modelled. The component does not clear its timers or
  listeners then either.
