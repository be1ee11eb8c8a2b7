/** The component state of `SlackFeedback` as one record, and each handler
    as one transition on it. The transitions apply the handler's `setState`
    and then, where the handler passes one, its completion callback (which
    clears the inputs, calls `removeImage` or schedules a timer). */
module Machine {
  import opened JsValues
  import opened Payload

  const SentDelayMs: nat := 5000
  const ErrorDelayMs: nat := 8000
  const UploadErrorDelayMs: nat := 6000

  /** A scheduled `setTimeout` callback: one that resets `sent`, or one that
      resets `error` (scheduled by `error` or by `uploadError`). */
  datatype Timer = ResetSent | ResetError(delayMs: nat)

  /** `this.state`: the record `setState` merges updates into. `sending`
      is absent from the constructor's record, which reads as `false`;
      `uploading` is absent until `uploadError` writes it. */
  datatype ComponentState = ComponentState(
    active: bool,
    sendURL: bool,
    sending: bool,
    sent: bool,
    error: ErrorField,
    uploadingImage: bool,
    uploading: Option<bool>,
    selectedType: string,
    image: Image,
    hasPassedChallenge: bool)

  /** The component state, the three uncontrolled inputs, and what the
      widget has done to its environment: document listeners added, pending
      timers, payloads handed to `onSubmit`, files handed to `onImageUpload`. */
  datatype WidgetState = WidgetState(
    props: Props,
    state: ComponentState,
    fields: Fields,
    listeners: nat,
    timers: multiset<Timer>,
    submissions: seq<Message>,
    uploads: seq<FileRef>)

  /** The record the constructor sets up. */
  const InitialState: ComponentState :=
    ComponentState(false, true, false, false, ErrFalse, false, None, "Bug", EmptyImage, false)

  function Initial(props: Props): WidgetState
  {
    WidgetState(props, InitialState, EmptyFields, 0, multiset{}, [], [])
  }

  /** `activate`: flips `active` and adds a freshly bound click listener. */
  function Activate(s: WidgetState): WidgetState
  {
    s.(state := s.state.(active := !s.state.active), listeners := s.listeners + 1)
  }

  /** `close`: clears `active`. The listener it asks to remove is a new
      bound function, never the one that was added, so none is removed. */
  function Close(s: WidgetState): WidgetState
  {
    s.(state := s.state.(active := false))
  }

  /** `toggle` */
  function Toggle(s: WidgetState): WidgetState
  {
    if s.state.active then Close(s) else Activate(s)
  }

  /** `handleClickOutside`, run by the document listeners for a click.
      Without a listener nothing runs; while disabled the root ref is
      missing and `contains` throws before anything changes. */
  function HandleClickOutside(s: WidgetState, defaultPrevented: bool, insideWidget: bool): WidgetState
  {
    if s.listeners == 0 || defaultPrevented || s.props.disabled || insideWidget then s
    else Close(s)
  }

  /** `verifyReCAPTCHA`, the challenge's completion callback. */
  function VerifyReCAPTCHA(s: WidgetState): WidgetState
  {
    s.(state := s.state.(hasPassedChallenge := true))
  }

  /** `toggleSendURL` */
  function ToggleSendURL(s: WidgetState): WidgetState
  {
    s.(state := s.state.(sendURL := !s.state.sendURL))
  }

  /** `selectType`, given the clicked tab's text. */
  function SelectType(s: WidgetState, tab: string): WidgetState
  {
    s.(state := s.state.(selectedType := tab))
  }

  /** The user typing into the name, email and message inputs. */
  function EditFields(s: WidgetState, fields: Fields): WidgetState
  {
    s.(fields := fields)
  }

  /** `send`, given the challenge's current response and the page address.
      An empty response only raises an alert. While disabled nothing is
      rendered, so reading the inputs' refs throws before any change.
      Otherwise `sending` is set and the payload goes to `onSubmit`.
      `hasPassedChallenge` is not read. */
  function Send(s: WidgetState, captchaResponse: string, href: string): WidgetState
  {
    if captchaResponse == "" || s.props.disabled then s
    else s.(state := s.state.(sending := true),
            submissions := s.submissions + [BuildPayload(s.props, s.state.selectedType, s.state.image, s.fields, href)])
  }

  /** `sent`: the success reset, then the callback that empties the inputs
      and schedules the reset of `sent`. `uploadingImage` is left alone.
      While disabled the inputs' refs are missing, so the callback throws
      on its first line: no input is cleared and no reset is scheduled. */
  function Sent(s: WidgetState): WidgetState
  {
    var updated := s.(state := s.state.(sending := false, sent := true, image := EmptyImage, error := ErrFalse,
                                        hasPassedChallenge := false));
    if s.props.disabled then updated
    else updated.(fields := EmptyFields, timers := s.timers + multiset{ResetSent})
  }

  /** `error(err)`, then the callback that schedules the reset of `error`. */
  function Error(s: WidgetState, err: JsValue): WidgetState
  {
    s.(state := s.state.(sending := false, error := ErrText(DetermineErrorType(err))),
       timers := s.timers + multiset{ResetError(ErrorDelayMs)})
  }

  /** `attachImage`: with no file selected `files[0].preview` throws before
      any change. Otherwise the file, with its preview address, becomes the
      image; the callback then calls `onImageUpload`, which throws without
      effect when that prop is missing. */
  function AttachImage(s: WidgetState, files: seq<FileRef>, preview: string): WidgetState
  {
    if files == [] then s
    else s.(state := s.state.(image := Image(Some(files[0]), Some(preview), None), uploadingImage := true),
            uploads := if s.props.hasImageUpload then s.uploads + [files[0]] else s.uploads)
  }

  /** `removeImage` */
  function RemoveImage(s: WidgetState): WidgetState
  {
    s.(state := s.state.(image := EmptyImage, uploadingImage := false))
  }

  /** The `setState` of `uploadError`: it writes the key `uploading`, which
      nothing reads, instead of `uploadingImage`. */
  function UploadErrorUpdate(s: WidgetState): WidgetState
  {
    s.(state := s.state.(uploading := Some(false), error := ErrText(UploadImageError)))
  }

  /** `uploadError(err)`: the update above, then the callback that calls
      `removeImage` and schedules the reset of `error`. */
  function UploadError(s: WidgetState, err: JsValue): WidgetState
  {
    var removed := RemoveImage(UploadErrorUpdate(s));
    removed.(timers := removed.timers + multiset{ResetError(UploadErrorDelayMs)})
  }

  /** `imageUploaded(url)`: a non-string is refused by removing the image;
      a string is merged into whatever image is there now, so the result
      keeps only its preview. */
  function ImageUploaded(s: WidgetState, url: JsValue): WidgetState
  {
    if !IsString(url) then RemoveImage(s)
    else s.(state := s.state.(uploadingImage := false, image := Image(None, s.state.image.preview, Some(url.s))))
  }

  /** A pending timer runs its callback. Both kinds overwrite the field
      unconditionally, whatever happened since they were scheduled. */
  function TimerFires(s: WidgetState, t: Timer): WidgetState
  {
    if t !in s.timers then s
    else
      var rest := s.(timers := s.timers - multiset{t});
      match t
      case ResetSent => rest.(state := rest.state.(sent := false))
      case ResetError(_) => rest.(state := rest.state.(error := ErrNull))
  }

  /** The submit label `render` shows for a state. */
  function Label(s: WidgetState): string
  {
    SubmitLabel(s.state.sending, s.state.sent, s.state.error)
  }

  /** Everything that can happen to the widget. */
  datatype Event =
    | ToggleClicked
    | CloseClicked
    | ClickedOutside(defaultPrevented: bool, insideWidget: bool)
    | ChallengePassed
    | SendURLToggled
    | TypeSelected(tab: string)
    | FieldsEdited(fields: Fields)
    | Submitted(captchaResponse: string, href: string)
    | SubmitSucceeded
    | SubmitFailed(err: JsValue)
    | ImageChosen(files: seq<FileRef>, preview: string)
    | UploadFailed(err: JsValue)
    | UploadFinished(url: JsValue)
    | RemoveClicked
    | TimerFired(timer: Timer)

  function Step(s: WidgetState, e: Event): WidgetState
  {
    match e
    case ToggleClicked => Toggle(s)
    case CloseClicked => Close(s)
    case ClickedOutside(prevented, inside) => HandleClickOutside(s, prevented, inside)
    case ChallengePassed => VerifyReCAPTCHA(s)
    case SendURLToggled => ToggleSendURL(s)
    case TypeSelected(tab) => SelectType(s, tab)
    case FieldsEdited(fields) => EditFields(s, fields)
    case Submitted(captcha, href) => Send(s, captcha, href)
    case SubmitSucceeded => Sent(s)
    case SubmitFailed(err) => Error(s, err)
    case ImageChosen(files, preview) => AttachImage(s, files, preview)
    case UploadFailed(err) => UploadError(s, err)
    case UploadFinished(url) => ImageUploaded(s, url)
    case RemoveClicked => RemoveImage(s)
    case TimerFired(t) => TimerFires(s, t)
  }

  /** The state after a sequence of events. */
  function Run(s: WidgetState, events: seq<Event>): WidgetState
    decreases |events|
  {
    if events == [] then s else Run(Step(s, events[0]), events[1..])
  }

  /** A timer the handlers can schedule. */
  predicate KnownTimer(t: Timer)
  {
    t == ResetSent || t == ResetError(ErrorDelayMs) || t == ResetError(UploadErrorDelayMs)
  }

  /** The error shown is one of the two strings the handlers can produce. */
  predicate KnownError(error: ErrorField)
  {
    error.ErrText? ==> error.text == UnexpectedError || error.text == UploadImageError
  }

  /** A selected file has its preview and no URL yet. */
  predicate ImageShape(image: Image)
  {
    image.file.Some? ==> image.preview.Some? && image.url.None?
  }

  /** Every payload handed to `onSubmit` is well formed. */
  ghost predicate AllWellFormed(submissions: seq<Message>, props: Props)
  {
    forall i :: 0 <= i < |submissions| ==> WellFormed(submissions[i], props)
  }

  /** Every pending timer is one the handlers schedule. */
  ghost predicate KnownTimers(timers: multiset<Timer>)
  {
    forall t :: t in timers ==> KnownTimer(t)
  }

  /** What holds in every state the widget can reach. */
  ghost predicate Inv(s: WidgetState)
  {
    KnownError(s.state.error) && ImageShape(s.state.image) && AllWellFormed(s.submissions, s.props)
    && KnownTimers(s.timers)
  }
}
