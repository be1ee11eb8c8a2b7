/** The pure parts of the widget: the error taxonomy, the category colour,
    the Slack message and attachment payload built by `send`, and what
    `render` derives from the state (the submit label, the image area). */
module Payload {
  import opened JsValues

  const UnexpectedError: string := "Unexpected Error!"
  const UploadImageError: string := "Error Uploading Image!"

  /** The display strings of the status switch in `determineErrorType`. */
  predicate IsStatusMessage(m: string)
  {
    m == "Bad Request!" || m == "Forbidden!" || m == "Channel Not Found!"
    || m == "Channel is Archived!" || m == "Server Error!" || m == UnexpectedError
  }

  /** The `switch (err.status)` of `determineErrorType`; `None` is `undefined`. */
  function StatusMessage(status: Option<int>): (m: string)
    ensures IsStatusMessage(m)
    ensures status == Some(400) ==> m == "Bad Request!"
    ensures status == Some(403) ==> m == "Forbidden!"
    ensures status == Some(404) ==> m == "Channel Not Found!"
    ensures status == Some(410) ==> m == "Channel is Archived!"
    ensures status == Some(500) ==> m == "Server Error!"
    ensures m == UnexpectedError <==> !(status.Some? && status.value in {400, 403, 404, 410, 500})
  {
    match status
    case Some(400) => "Bad Request!"
    case Some(403) => "Forbidden!"
    case Some(404) => "Channel Not Found!"
    case Some(410) => "Channel is Archived!"
    case Some(500) => "Server Error!"
    case _ => UnexpectedError
  }

  /** `determineErrorType`: the guard lets only non-empty strings through to
      the switch, and a string has no `status`, so every argument ends in the
      default branch. */
  function DetermineErrorType(err: JsValue): (m: string)
    ensures m == UnexpectedError
  {
    if !Truthy(err) || !IsString(err) then UnexpectedError
    else StatusMessage(StatusOf(err))
  }

  /** The feedback categories offered by the three tabs. */
  predicate IsCategory(t: string)
  {
    t == "Bug" || t == "Feature" || t == "Improvement"
  }

  /** The colour switch in `send`; it has no default, so any other
      selection leaves `level` undefined (`None`). */
  function Level(selectedType: string): (level: Option<string>)
    ensures level.Some? <==> IsCategory(selectedType)
    ensures level.Some? ==> level.value in {"danger", "good", "warning"}
  {
    match selectedType
    case "Bug" => Some("danger")
    case "Feature" => Some("good")
    case "Improvement" => Some("warning")
    case _ => None
  }

  /** The pieces of the message template in `send`, each with the exact
      line breaks and indentation of the template literal. */
  const NameLead: string := "\n      *Name*: "
  const EmailLead: string := "\n      \n *Email*: "
  const MessageLead: string := "\n      \n *Message*: "
  const UrlLead: string := "\n      \n <"
  const UrlTail: string := ">\n    "

  /** The `text` of the attachment: name, email, message and page address
      interpolated into the template. */
  function ComposeMessage(name: string, email: string, message: string, href: string): (text: string)
    ensures |text| == |NameLead| + |name| + |EmailLead| + |email| + |MessageLead| + |message|
                      + |UrlLead| + |href| + |UrlTail|
  {
    NameLead + name + EmailLead + email + MessageLead + message + UrlLead + href + UrlTail
  }

  /** `x` occurs somewhere in `s`. */
  predicate Mentions(s: string, x: string)
  {
    exists i :: 0 <= i <= |s| && x <= s[i..]
  }

  /** The component's properties that `send` and `render` read, with
      React's defaults already applied. */
  datatype Props = Props(
    channel: string,
    user: string,
    emoji: string,
    disabled: bool,
    hasImageUpload: bool)

  const Footer: string := "React Slack Feedback"

  /** One Slack attachment; `color` is `None` when `level` stayed undefined,
      `imageUrl` is `None` when the key was never added. */
  datatype Attachment = Attachment(
    fallback: string,
    authorName: string,
    color: Option<string>,
    title: string,
    titleLink: string,
    text: string,
    footer: string,
    imageUrl: Option<string>)

  /** The object handed to `onSubmit`. */
  datatype Message = Message(
    channel: string,
    username: string,
    iconEmoji: string,
    attachments: seq<Attachment>)

  /** The text fields of the form as `send` reads them from its inputs. */
  datatype Fields = Fields(name: string, email: string, message: string)

  const EmptyFields: Fields := Fields("", "", "")

  /** The payload `send` assembles from the props, the state and the inputs. */
  function BuildPayload(props: Props, selectedType: string, image: Image, fields: Fields, href: string): (p: Message)
    ensures WellFormed(p, props)
    ensures p.attachments[0].title == selectedType && p.attachments[0].titleLink == href
    ensures p.attachments[0].text == ComposeMessage(fields.name, fields.email, fields.message, href)
    ensures p.attachments[0].imageUrl.Some? <==> HasUrl(image)
    ensures HasUrl(image) ==> p.attachments[0].imageUrl == image.url
  {
    var text := ComposeMessage(fields.name, fields.email, fields.message, href);
    var attachment := Attachment(
      "Feedback (" + selectedType + ")", props.user, Level(selectedType), selectedType,
      href, text, Footer, None);
    Message(props.channel, props.user, props.emoji,
            [if HasUrl(image) then attachment.(imageUrl := image.url) else attachment])
  }

  /** What every payload handed to `onSubmit` looks like. */
  predicate WellFormed(p: Message, props: Props)
  {
    && p.channel == props.channel
    && p.username == props.user
    && p.iconEmoji == props.emoji
    && |p.attachments| == 1
    && p.attachments[0].authorName == props.user
    && p.attachments[0].footer == Footer
    && p.attachments[0].fallback == "Feedback (" + p.attachments[0].title + ")"
    && p.attachments[0].color == Level(p.attachments[0].title)
    && (p.attachments[0].imageUrl.Some? ==> p.attachments[0].imageUrl.value != "")
  }

  /** The submit button's label in `render`: a default, overwritten in turn
      by the sent, sending and error conditions. */
  function SubmitLabel(sending: bool, sent: bool, error: ErrorField): (caption: string)
    ensures error.IsTruthy() ==> caption == error.text
    ensures !error.IsTruthy() && sent ==> caption == "Sent!"
    ensures !error.IsTruthy() && !sent && sending ==> caption == "Sending Feedback..."
    ensures !error.IsTruthy() && !sent && !sending ==> caption == "Send Feedback"
  {
    var initial := "Send Feedback";
    var afterSent := if sent then "Sent!" else initial;
    var afterSending := if sending && !sent then "Sending Feedback..." else afterSent;
    if error.IsTruthy() then error.text else afterSending
  }

  /** What the image part of the form shows. */
  datatype ImageView =
    | NoImageUpload              // no `onImageUpload` prop: nothing is offered
    | AttachButton               // the file picker
    | PreviewImage(preview: string, loading: bool)  // loader while uploading, remove link otherwise

  /** `renderImageUpload` and `renderImagePreview`. */
  function ImageArea(props: Props, image: Image, uploadingImage: bool): (view: ImageView)
    ensures view.NoImageUpload? <==> !props.hasImageUpload
    ensures view.PreviewImage? ==> image.preview == Some(view.preview) && view.preview != ""
                                   && view.loading == uploadingImage
    ensures view.AttachButton? <==> props.hasImageUpload && (image.preview.None? || image.preview.value == "")
  {
    if !props.hasImageUpload then NoImageUpload
    else if image.preview.Some? && image.preview.value != "" then PreviewImage(image.preview.value, uploadingImage)
    else AttachButton
  }

  /** What `render` shows that depends on the state: the submit button's
      label and the image area. */
  datatype View = View(submitLabel: string, imageArea: ImageView)

  /** `render`: nothing at all while the `disabled` prop is set; otherwise
      the form, with the label computed before that check. */
  function Render(props: Props, sending: bool, sent: bool, error: ErrorField, image: Image,
                  uploadingImage: bool): (view: Option<View>)
    ensures view.None? <==> props.disabled
    ensures view.Some? ==> view.value.submitLabel == SubmitLabel(sending, sent, error)
    ensures view.Some? ==> (view.value.imageArea.NoImageUpload? <==> !props.hasImageUpload)
  {
    var caption := SubmitLabel(sending, sent, error);
    if props.disabled then None
    else Some(View(caption, ImageArea(props, image, uploadingImage)))
  }
}
