/** What the widget's handlers guarantee, stated over the transitions of
    `Machine`: single handlers, short scenarios, and facts about every
    sequence of events. */
module Properties {
  import opened JsValues
  import opened Payload
  import opened Machine

  // ---------------------------------------------------------------------
  // Pure parts

  /** The status switch maps each status of the taxonomy to its own string,
      yet `determineErrorType` never reaches it with a status. */
  lemma StatusIsIgnored(status: int)
    ensures status == 404 ==> StatusMessage(Some(status)) == "Channel Not Found!"
    ensures DetermineErrorType(Obj(Some(status))) == UnexpectedError
  {
  }

  /** The colour names the category: each of the three has its own
      colour, and no other selection gets one. */
  lemma LevelIdentifiesCategory(a: string, b: string)
    ensures Level("Bug") == Some("danger")
    ensures Level("Feature") == Some("good")
    ensures Level("Improvement") == Some("warning")
    ensures Level(a).Some? && Level(a) == Level(b) ==> a == b
  {
  }

  /** The message text contains the name, the email, the message and the
      page address, each at its place in the template. */
  lemma {:induction false} MessageMentionsEverything(name: string, email: string, message: string, href: string)
    ensures var text := ComposeMessage(name, email, message, href);
      Mentions(text, name) && Mentions(text, email) && Mentions(text, message) && Mentions(text, href)
  {
    var text := ComposeMessage(name, email, message, href);
    var iName := |NameLead|;
    var iEmail := iName + |name| + |EmailLead|;
    var iMessage := iEmail + |email| + |MessageLead|;
    var iHref := iMessage + |message| + |UrlLead|;
    assert text == NameLead + name + EmailLead + email + MessageLead + message + UrlLead + href + UrlTail;
    assert name <= text[iName..];
    assert email <= text[iEmail..];
    assert message <= text[iMessage..];
    assert href <= text[iHref..];
  }

  /** The payload `send` builds carries the report: colour by category,
      the category as title and in the fallback, the whole message, and an
      image URL exactly when the image has a non-empty one. */
  lemma {:induction false} PayloadCarriesReport(props: Props, selectedType: string, image: Image, fields: Fields, href: string)
    ensures var p := BuildPayload(props, selectedType, image, fields, href);
      && WellFormed(p, props)
      && p.attachments[0].title == selectedType
      && p.attachments[0].fallback == "Feedback (" + selectedType + ")"
      && (selectedType == "Bug" ==> p.attachments[0].color == Some("danger"))
      && (selectedType == "Feature" ==> p.attachments[0].color == Some("good"))
      && (selectedType == "Improvement" ==> p.attachments[0].color == Some("warning"))
      && (!IsCategory(selectedType) ==> p.attachments[0].color.None?)
      && p.attachments[0].titleLink == href
      && Mentions(p.attachments[0].text, fields.name)
      && Mentions(p.attachments[0].text, fields.email)
      && Mentions(p.attachments[0].text, fields.message)
      && Mentions(p.attachments[0].text, href)
      && (p.attachments[0].imageUrl.Some? <==> HasUrl(image))
      && (HasUrl(image) ==> p.attachments[0].imageUrl == image.url)
  {
    MessageMentionsEverything(fields.name, fields.email, fields.message, href);
  }

  // ---------------------------------------------------------------------
  // Visibility

  /** `toggle` inverts `active`; `close` always leaves it false. */
  lemma ToggleInvertsActive(s: WidgetState)
    ensures Toggle(s).state.active == !s.state.active
    ensures Close(s).state.active == false
    ensures Toggle(s).listeners == if s.state.active then s.listeners else s.listeners + 1
  {
  }

  /** Only opening the widget changes the listener count, by one. */
  lemma StepListeners(s: WidgetState, e: Event)
    ensures Step(s, e).listeners == s.listeners + (if e == ToggleClicked && !s.state.active then 1 else 0)
  {
    match e
    case ToggleClicked =>
    case CloseClicked =>
    case ClickedOutside(_, _) =>
    case ChallengePassed =>
    case SendURLToggled =>
    case TypeSelected(_) =>
    case FieldsEdited(_) =>
    case Submitted(_, _) =>
    case SubmitSucceeded =>
    case SubmitFailed(_) =>
    case ImageChosen(_, _) =>
    case UploadFailed(_) =>
    case UploadFinished(_) =>
    case RemoveClicked =>
    case TimerFired(_) =>
  }

  /** No event ever releases a click listener. */
  lemma {:induction false} ListenersOnlyAccumulate(s: WidgetState, events: seq<Event>)
    ensures Run(s, events).listeners >= s.listeners
    decreases |events|
  {
    if events != [] {
      StepListeners(s, events[0]);
      ListenersOnlyAccumulate(Step(s, events[0]), events[1..]);
    }
  }

  /** Opening and closing the widget leaves a listener registered while it
      is closed. */
  lemma OpenCloseLeaksListener(s: WidgetState)
    requires !s.state.active
    ensures var t := Toggle(Toggle(s));
      !t.state.active && t.listeners == s.listeners + 1
  {
  }

  // ---------------------------------------------------------------------
  // Submission

  /** Without a challenge response, or while the widget is disabled and
      its inputs are missing, `send` changes nothing and hands nothing to
      `onSubmit`. */
  lemma SendRefusedChangesNothing(s: WidgetState, captchaResponse: string, href: string)
    requires captchaResponse == "" || s.props.disabled
    ensures Send(s, captchaResponse, href) == s
  {
  }

  /** With a response, `send` sets `sending`, appends one payload built
      from the state before it, and changes nothing else. */
  lemma SendSubmitsPayload(s: WidgetState, captchaResponse: string, href: string)
    requires captchaResponse != "" && !s.props.disabled
    ensures var t := Send(s, captchaResponse, href);
      && t.state.sending
      && |t.submissions| == |s.submissions| + 1
      && t.submissions[..|s.submissions|] == s.submissions
      && t.submissions[|s.submissions|] == BuildPayload(s.props, s.state.selectedType, s.state.image, s.fields, href)
      && t.state == s.state.(sending := true)
      && t.(state := s.state, submissions := s.submissions) == s
  {
  }

  /** How many of `events` are submit attempts with a challenge response. */
  function AnsweredSubmits(events: seq<Event>): nat
  {
    if events == [] then 0
    else (if events[0].Submitted? && events[0].captchaResponse != "" then 1 else 0)
         + AnsweredSubmits(events[1..])
  }

  /** A step hands a payload to `onSubmit` exactly when it is a submit
      attempt with a challenge response on an enabled widget, and never
      touches earlier ones; no step changes the props. */
  lemma StepSubmissions(s: WidgetState, e: Event)
    ensures Step(s, e).props == s.props
    ensures Step(s, e).submissions ==
      s.submissions + (if e.Submitted? && e.captchaResponse != "" && !s.props.disabled
                       then [BuildPayload(s.props, s.state.selectedType, s.state.image, s.fields, e.href)] else [])
  {
    match e
    case ToggleClicked =>
    case CloseClicked =>
    case ClickedOutside(_, _) =>
    case ChallengePassed =>
    case SendURLToggled =>
    case TypeSelected(_) =>
    case FieldsEdited(_) =>
    case Submitted(_, _) =>
    case SubmitSucceeded =>
    case SubmitFailed(_) =>
    case ImageChosen(_, _) =>
    case UploadFailed(_) =>
    case UploadFinished(_) =>
    case RemoveClicked =>
    case TimerFired(_) =>
  }

  /** `onSubmit` is called exactly once per submit attempt that carries a
      challenge response, never while disabled, and earlier payloads are
      never altered. */
  lemma {:induction false} SubmissionsMatchAnsweredSubmits(s: WidgetState, events: seq<Event>)
    ensures var t := Run(s, events);
      && |t.submissions| == |s.submissions| + (if s.props.disabled then 0 else AnsweredSubmits(events))
      && t.submissions[..|s.submissions|] == s.submissions
    decreases |events|
  {
    if events != [] {
      var s1 := Step(s, events[0]);
      StepSubmissions(s, events[0]);
      SubmissionsMatchAnsweredSubmits(s1, events[1..]);
      var t := Run(s, events);
      assert t == Run(s1, events[1..]);
      assert t.submissions[..|s.submissions|] == t.submissions[..|s1.submissions|][..|s.submissions|];
    }
  }

  /** A session in which the challenge never answers never reaches
      `onSubmit`. */
  lemma NoResponseNoSubmission(s: WidgetState, events: seq<Event>)
    requires AnsweredSubmits(events) == 0
    ensures Run(s, events).submissions == s.submissions
  {
    SubmissionsMatchAnsweredSubmits(s, events);
  }

  /** `sent` resets the form and schedules exactly one reset of `sent`; it
      does not touch `uploadingImage`. While disabled its callback throws,
      so the inputs keep their values and no reset is scheduled. */
  lemma SentResetsForm(s: WidgetState)
    ensures var t := Sent(s);
      && !t.state.sending && t.state.sent && t.state.image == EmptyImage && t.state.error == ErrFalse
      && !t.state.hasPassedChallenge
      && t.state.uploadingImage == s.state.uploadingImage
      && Label(t) == "Sent!"
    ensures !s.props.disabled ==> Sent(s).fields == EmptyFields && Sent(s).timers == s.timers + multiset{ResetSent}
    ensures s.props.disabled ==> Sent(s).fields == s.fields && Sent(s).timers == s.timers
  {
  }

  /** The timer scheduled by `sent` changes `sent` to false and nothing else. */
  lemma SentTimerOnlyClearsSent(s: WidgetState)
    requires ResetSent in s.timers
    ensures TimerFires(s, ResetSent) == s.(state := s.state.(sent := false), timers := s.timers - multiset{ResetSent})
  {
  }

  /** No event but the reset-sent timer turns `sent` off. */
  lemma StepKeepsSent(s: WidgetState, e: Event)
    requires s.state.sent && e != TimerFired(ResetSent)
    ensures Step(s, e).state.sent
  {
    match e
    case ToggleClicked =>
    case CloseClicked =>
    case ClickedOutside(_, _) =>
    case ChallengePassed =>
    case SendURLToggled =>
    case TypeSelected(_) =>
    case FieldsEdited(_) =>
    case Submitted(_, _) =>
    case SubmitSucceeded =>
    case SubmitFailed(_) =>
    case ImageChosen(_, _) =>
    case UploadFailed(_) =>
    case UploadFinished(_) =>
    case RemoveClicked =>
    case TimerFired(_) =>
  }

  /** Once `sent` is set it stays set until a reset-sent timer fires. */
  lemma {:induction false} SentPersistsUntilTimer(s: WidgetState, events: seq<Event>)
    requires s.state.sent
    requires forall i :: 0 <= i < |events| ==> events[i] != TimerFired(ResetSent)
    ensures Run(s, events).state.sent
    decreases |events|
  {
    if events != [] {
      StepKeepsSent(s, events[0]);
      SentPersistsUntilTimer(Step(s, events[0]), events[1..]);
    }
  }

  /** `error(err)` ends sending and shows "Unexpected Error!", whatever
      `err` is, with one reset of `error` scheduled. */
  lemma ErrorShowsUnexpected(s: WidgetState, err: JsValue)
    ensures var t := Error(s, err);
      !t.state.sending && t.state.error == ErrText(UnexpectedError) && Label(t) == UnexpectedError
      && t.timers == s.timers + multiset{ResetError(ErrorDelayMs)}
  {
  }

  /** A timer scheduled by `error` or `uploadError` changes `error` to
      `null` and nothing else. */
  lemma ErrorTimerOnlyClearsError(s: WidgetState, delayMs: nat)
    requires ResetError(delayMs) in s.timers
    ensures TimerFires(s, ResetError(delayMs)) ==
      s.(state := s.state.(error := ErrNull), timers := s.timers - multiset{ResetError(delayMs)})
  {
  }

  /** A timer left from an earlier error clears the error of a newer one as
      soon as it fires, while the newer error's own timer is still pending. */
  lemma OldErrorTimerClearsNewError(s: WidgetState, err: JsValue)
    requires ResetError(ErrorDelayMs) in s.timers
    ensures var t := TimerFires(Error(s, err), ResetError(ErrorDelayMs));
      t.state.error == ErrNull && Label(t) != UnexpectedError && ResetError(ErrorDelayMs) in t.timers
  {
  }

  /** A submit attempt made while "Sent!" is still shown sets `sending`
      beside `sent` on an enabled widget, and the label stays "Sent!". */
  lemma SendingAndSentOverlap(s: WidgetState, captchaResponse: string, href: string)
    requires captchaResponse != ""
    ensures var t := Send(Sent(s), captchaResponse, href);
      (t.state.sending <==> !s.props.disabled) && t.state.sent && Label(t) == "Sent!"
  {
  }

  /** A bug report from a user who passed the challenge: the payload is
      coloured "danger", titled "Bug", and its text carries the name, the
      email, the message and the page address. A disabled widget sends
      nothing. */
  lemma BugReportScenario(props: Props, response: string, href: string)
    requires response != ""
    ensures var fields := Fields("Alice", "a@x.com", "It crashes");
      var t := Send(VerifyReCAPTCHA(EditFields(SelectType(Initial(props), "Bug"), fields)), response, href);
      props.disabled ==> t.submissions == [] && Label(t) == "Send Feedback"
    ensures var fields := Fields("Alice", "a@x.com", "It crashes");
      var t := Send(VerifyReCAPTCHA(EditFields(SelectType(Initial(props), "Bug"), fields)), response, href);
      !props.disabled ==>
      && |t.submissions| == 1
      && t.submissions[0].attachments[0].color == Some("danger")
      && t.submissions[0].attachments[0].title == "Bug"
      && Mentions(t.submissions[0].attachments[0].text, "Alice")
      && Mentions(t.submissions[0].attachments[0].text, "a@x.com")
      && Mentions(t.submissions[0].attachments[0].text, "It crashes")
      && Mentions(t.submissions[0].attachments[0].text, href)
      && Label(t) == "Sending Feedback..."
  {
    PayloadCarriesReport(props, "Bug", EmptyImage, Fields("Alice", "a@x.com", "It crashes"), href);
  }

  /** A 404 from the webhook shows "Unexpected Error!"; once that error's
      timer fires the button reads "Send Feedback" again. */
  lemma NotFoundScenario(s: WidgetState)
    requires !s.state.sent
    ensures var t := Error(s, Obj(Some(404)));
      Label(t) == UnexpectedError
      && Label(TimerFires(t, ResetError(ErrorDelayMs))) == "Send Feedback"
  {
  }

  // ---------------------------------------------------------------------
  // Image attachment

  /** Choosing a file attaches it with its preview and marks the upload as
      running; `onImageUpload` receives it only when the prop is given. An
      empty selection changes nothing. */
  lemma AttachImageStartsUpload(s: WidgetState, files: seq<FileRef>, preview: string)
    ensures files == [] ==> AttachImage(s, files, preview) == s
    ensures files != [] ==> var t := AttachImage(s, files, preview);
      && t.state.image == Image(Some(files[0]), Some(preview), None) && t.state.uploadingImage
      && t.uploads == (if s.props.hasImageUpload then s.uploads + [files[0]] else s.uploads)
  {
  }

  /** `imageUploaded` with a string keeps the preview and adds the URL;
      with anything else it empties the image. Both end the upload. */
  lemma ImageUploadedOutcome(s: WidgetState, url: JsValue)
    ensures var t := ImageUploaded(s, url);
      && !t.state.uploadingImage
      && (!IsString(url) ==> t.state.image == EmptyImage)
      && (IsString(url) ==> t.state.image.url == Some(url.s) && t.state.image.preview == s.state.image.preview
                            && t.state.image.file.None?)
  {
  }

  /** `removeImage` always leaves no image and no upload running. */
  lemma RemoveImageEmpties(s: WidgetState)
    ensures RemoveImage(s).state.image == EmptyImage && !RemoveImage(s).state.uploadingImage
  {
  }

  /** `uploadError` shows its fixed message and, through `removeImage`,
      clears the image and the upload flag; its own update alone leaves
      `uploadingImage` as it was. */
  lemma UploadErrorOutcome(s: WidgetState, err: JsValue)
    ensures UploadErrorUpdate(s).state.uploadingImage == s.state.uploadingImage
    ensures var t := UploadError(s, err);
      && t.state.error == ErrText(UploadImageError) && Label(t) == UploadImageError
      && t.state.image == EmptyImage && !t.state.uploadingImage && t.state.uploading == Some(false)
      && t.timers == s.timers + multiset{ResetError(UploadErrorDelayMs)}
  {
  }

  /** An upload that finishes after the image was removed brings back an
      image holding only the URL, and the next answered submit of an
      enabled widget sends it. */
  lemma {:induction false} StaleUploadIsResent(s: WidgetState, url: string, captchaResponse: string, href: string)
    requires url != "" && captchaResponse != ""
    ensures ImageUploaded(RemoveImage(s), Str(url)).state.image == Image(None, None, Some(url))
    ensures var t := Send(ImageUploaded(RemoveImage(s), Str(url)), captchaResponse, href);
      !s.props.disabled ==> |t.submissions| > 0 && t.submissions[|t.submissions| - 1].attachments[0].imageUrl == Some(url)
  {
    var s2 := ImageUploaded(RemoveImage(s), Str(url));
    PayloadCarriesReport(s2.props, s2.state.selectedType, s2.state.image, s2.fields, href);
  }

  // ---------------------------------------------------------------------
  // Invariant of every reachable state

  lemma InitialSatisfiesInv(props: Props)
    ensures Inv(Initial(props))
  {
  }

  // Each handler keeps the invariant.

  lemma ToggleKeepsInv(s: WidgetState) requires Inv(s) ensures Inv(Toggle(s)) {}
  lemma CloseKeepsInv(s: WidgetState) requires Inv(s) ensures Inv(Close(s)) {}
  lemma HandleClickOutsideKeepsInv(s: WidgetState, defaultPrevented: bool, insideWidget: bool)
    requires Inv(s) ensures Inv(HandleClickOutside(s, defaultPrevented, insideWidget)) {}
  lemma VerifyReCAPTCHAKeepsInv(s: WidgetState) requires Inv(s) ensures Inv(VerifyReCAPTCHA(s)) {}
  lemma ToggleSendURLKeepsInv(s: WidgetState) requires Inv(s) ensures Inv(ToggleSendURL(s)) {}
  lemma SelectTypeKeepsInv(s: WidgetState, tab: string) requires Inv(s) ensures Inv(SelectType(s, tab)) {}
  lemma EditFieldsKeepsInv(s: WidgetState, fields: Fields) requires Inv(s) ensures Inv(EditFields(s, fields)) {}
  lemma SentKeepsInv(s: WidgetState) requires Inv(s) ensures Inv(Sent(s)) {}
  lemma ErrorKeepsInv(s: WidgetState, err: JsValue) requires Inv(s) ensures Inv(Error(s, err)) {}
  lemma UploadErrorKeepsInv(s: WidgetState, err: JsValue) requires Inv(s) ensures Inv(UploadError(s, err)) {}
  lemma ImageUploadedKeepsInv(s: WidgetState, url: JsValue) requires Inv(s) ensures Inv(ImageUploaded(s, url)) {}
  lemma RemoveImageKeepsInv(s: WidgetState) requires Inv(s) ensures Inv(RemoveImage(s)) {}
  lemma TimerFiresKeepsInv(s: WidgetState, t: Timer) requires Inv(s) ensures Inv(TimerFires(s, t)) {}

  lemma AttachImageKeepsInv(s: WidgetState, files: seq<FileRef>, preview: string)
    requires Inv(s)
    ensures Inv(AttachImage(s, files, preview))
  {
  }

  /** A payload handed to `onSubmit` is well formed, so the log stays so. */
  lemma SendKeepsInv(s: WidgetState, captchaResponse: string, href: string)
    requires Inv(s)
    ensures Inv(Send(s, captchaResponse, href))
  {
    if captchaResponse != "" {
      var p := BuildPayload(s.props, s.state.selectedType, s.state.image, s.fields, href);
      PayloadCarriesReport(s.props, s.state.selectedType, s.state.image, s.fields, href);
      var t := Send(s, captchaResponse, href);
      assert forall i :: 0 <= i < |t.submissions| ==>
        t.submissions[i] == if i < |s.submissions| then s.submissions[i] else p;
    }
  }

  /** Every event keeps the invariant. */
  lemma StepPreservesInv(s: WidgetState, e: Event)
    requires Inv(s)
    ensures Inv(Step(s, e))
  {
    match e
    case ToggleClicked => ToggleKeepsInv(s);
    case CloseClicked => CloseKeepsInv(s);
    case ClickedOutside(prevented, inside) => HandleClickOutsideKeepsInv(s, prevented, inside);
    case ChallengePassed => VerifyReCAPTCHAKeepsInv(s);
    case SendURLToggled => ToggleSendURLKeepsInv(s);
    case TypeSelected(tab) => SelectTypeKeepsInv(s, tab);
    case FieldsEdited(fields) => EditFieldsKeepsInv(s, fields);
    case Submitted(captcha, href) => SendKeepsInv(s, captcha, href);
    case SubmitSucceeded => SentKeepsInv(s);
    case SubmitFailed(err) => ErrorKeepsInv(s, err);
    case ImageChosen(files, preview) => AttachImageKeepsInv(s, files, preview);
    case UploadFailed(err) => UploadErrorKeepsInv(s, err);
    case UploadFinished(url) => ImageUploadedKeepsInv(s, url);
    case RemoveClicked => RemoveImageKeepsInv(s);
    case TimerFired(t) => TimerFiresKeepsInv(s, t);
  }

  /** Every sequence of events keeps the invariant. */
  lemma {:induction false} RunPreservesInv(s: WidgetState, events: seq<Event>)
    requires Inv(s)
    ensures Inv(Run(s, events))
    decreases |events|
  {
    if events != [] {
      StepPreservesInv(s, events[0]);
      RunPreservesInv(Step(s, events[0]), events[1..]);
    }
  }

  /** In every reachable state the button shows one of five labels. */
  lemma {:induction false} LabelIsOneOfFive(props: Props, events: seq<Event>)
    ensures var l := Label(Run(Initial(props), events));
      l == "Send Feedback" || l == "Sent!" || l == "Sending Feedback..."
      || l == UnexpectedError || l == UploadImageError
  {
    InitialSatisfiesInv(props);
    RunPreservesInv(Initial(props), events);
  }
}
