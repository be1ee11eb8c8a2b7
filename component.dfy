/** The `SlackFeedback` component as an object: `this.state`, which every
    `setState` replaces by a merged record, the values of the three inputs,
    and what it has done to its environment. One method per handler, each
    specified by the transition of the same name in `Machine`. */
module Component {
  import opened JsValues
  import opened Payload
  import Machine

  class SlackFeedback {
    const props: Props

    /** `this.state` */
    var state: Machine.ComponentState
    /** The values of the name, email and message inputs. */
    var fields: Fields
    /** Click listeners added to the document and never removed. */
    var listeners: nat
    /** `setTimeout` callbacks not yet run. */
    var timers: multiset<Machine.Timer>
    /** Payloads handed to `onSubmit`, oldest first. */
    var submissions: seq<Message>
    /** Files handed to `onImageUpload`, oldest first. */
    var uploads: seq<FileRef>

    /** The whole object as a value. */
    function Snapshot(): Machine.WidgetState
      reads this
    {
      Machine.WidgetState(props, state, fields, listeners, timers, submissions, uploads)
    }

    constructor (props: Props)
      ensures Snapshot() == Machine.Initial(props)
    {
      this.props := props;
      state := Machine.InitialState;
      fields := EmptyFields;
      listeners, timers, submissions, uploads := 0, multiset{}, [], [];
    }

    method Toggle()
      modifies this
      ensures Snapshot() == Machine.Toggle(old(Snapshot()))
    {
      if state.active {
        Close();
      } else {
        Activate();
      }
    }

    method Activate()
      modifies this
      ensures Snapshot() == Machine.Activate(old(Snapshot()))
    {
      state := state.(active := !state.active);
      listeners := listeners + 1;
    }

    method Close()
      modifies this
      ensures Snapshot() == Machine.Close(old(Snapshot()))
    {
      state := state.(active := false);
    }

    /** The document listeners' handler for a click. */
    method HandleClickOutside(defaultPrevented: bool, insideWidget: bool)
      modifies this
      ensures Snapshot() == Machine.HandleClickOutside(old(Snapshot()), defaultPrevented, insideWidget)
    {
      if listeners == 0 || defaultPrevented || props.disabled {
        return;
      }
      if !insideWidget {
        Close();
      }
    }

    method VerifyReCAPTCHA()
      modifies this
      ensures Snapshot() == Machine.VerifyReCAPTCHA(old(Snapshot()))
    {
      state := state.(hasPassedChallenge := true);
    }

    method ToggleSendURL()
      modifies this
      ensures Snapshot() == Machine.ToggleSendURL(old(Snapshot()))
    {
      state := state.(sendURL := !state.sendURL);
    }

    method SelectType(tab: string)
      modifies this
      ensures Snapshot() == Machine.SelectType(old(Snapshot()), tab)
    {
      state := state.(selectedType := tab);
    }

    /** The user typing into the three inputs. */
    method EditFields(name: string, email: string, message: string)
      modifies this
      ensures Snapshot() == Machine.EditFields(old(Snapshot()), Fields(name, email, message))
    {
      fields := Fields(name, email, message);
    }

    /** `send`: returns the payload handed to `onSubmit`, or `None` when the
        challenge has no response and the alert is shown instead, or when
        the disabled widget has no inputs to read. */
    method Send(captchaResponse: string, href: string) returns (payload: Option<Message>)
      modifies this
      ensures Snapshot() == Machine.Send(old(Snapshot()), captchaResponse, href)
      ensures payload.Some? <==> captchaResponse != "" && !props.disabled
      ensures payload.Some? ==>
        && payload.value == BuildPayload(props, old(state.selectedType), old(state.image), old(fields), href)
        && submissions == old(submissions) + [payload.value]
    {
      if captchaResponse == "" || props.disabled {
        return None;
      }
      var p := BuildPayload(props, state.selectedType, state.image, fields, href);
      state := state.(sending := true);
      submissions := submissions + [p];
      payload := Some(p);
    }

    /** `sent`, called back on success: the reset, then the callback that
        empties the inputs and schedules the reset of `sent`; while disabled
        the callback stops at the missing refs. */
    method Sent()
      modifies this
      ensures Snapshot() == Machine.Sent(old(Snapshot()))
    {
      state := state.(sending := false, sent := true, image := EmptyImage, error := ErrFalse,
                      hasPassedChallenge := false);
      if props.disabled {
        return;
      }
      fields := EmptyFields;
      timers := timers + multiset{Machine.ResetSent};
    }

    /** `error(err)`, called back on failure. */
    method Error(err: JsValue)
      modifies this
      ensures Snapshot() == Machine.Error(old(Snapshot()), err)
    {
      state := state.(sending := false, error := ErrText(DetermineErrorType(err)));
      timers := timers + multiset{Machine.ResetError(Machine.ErrorDelayMs)};
    }

    /** `attachImage`, given the selected files and the preview address the
        browser makes for the first one. */
    method AttachImage(files: seq<FileRef>, preview: string)
      modifies this
      ensures Snapshot() == Machine.AttachImage(old(Snapshot()), files, preview)
    {
      if files == [] {
        return;
      }
      state := state.(image := Image(Some(files[0]), Some(preview), None), uploadingImage := true);
      if props.hasImageUpload {
        uploads := uploads + [files[0]];
      }
    }

    method RemoveImage()
      modifies this
      ensures Snapshot() == Machine.RemoveImage(old(Snapshot()))
    {
      state := state.(image := EmptyImage, uploadingImage := false);
    }

    /** `uploadError(err)`: the update, then the callback that removes the
        image and schedules the reset of `error`. */
    method UploadError(err: JsValue)
      modifies this
      ensures Snapshot() == Machine.UploadError(old(Snapshot()), err)
    {
      state := state.(uploading := Some(false), error := ErrText(UploadImageError));
      RemoveImage();
      timers := timers + multiset{Machine.ResetError(Machine.UploadErrorDelayMs)};
    }

    /** `imageUploaded(url)` */
    method ImageUploaded(url: JsValue)
      modifies this
      ensures Snapshot() == Machine.ImageUploaded(old(Snapshot()), url)
    {
      if !IsString(url) {
        RemoveImage();
        return;
      }
      state := state.(uploadingImage := false, image := Image(None, state.image.preview, Some(url.s)));
    }

    /** A pending `setTimeout` callback runs. */
    method TimerFires(t: Machine.Timer)
      requires t in timers
      modifies this
      ensures Snapshot() == Machine.TimerFires(old(Snapshot()), t)
    {
      timers := timers - multiset{t};
      match t
      case ResetSent => state := state.(sent := false);
      case ResetError(_) => state := state.(error := ErrNull);
    }

    /** The label `render` puts on the submit button. */
    method SubmitText() returns (text: string)
      ensures text == Machine.Label(Snapshot())
    {
      text := "Send Feedback";
      if state.sent {
        text := "Sent!";
      }
      if state.sending && !state.sent {
        text := "Sending Feedback...";
      }
      if state.error.IsTruthy() {
        text := state.error.text;
      }
    }
  }
}
