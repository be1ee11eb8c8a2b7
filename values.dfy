/** JavaScript values as the widget's handlers see them: the loosely typed
    arguments its collaborators call back with, JavaScript truthiness, and the
    image object kept in the component state. */
module JsValues {

  datatype Option<+T> = None | Some(value: T)

  /** An argument handed to a handler by a collaborator (`error(err)`,
      `uploadError(err)`, `imageUploaded(url)`). Numbers are integers here;
      an object is reduced to the one property the handlers read, `status`. */
  datatype JsValue =
    | Undefined
    | Null
    | Bool(b: bool)
    | Num(n: int)
    | Str(s: string)
    | Obj(status: Option<int>)

  /** JavaScript's `!!v`. */
  predicate Truthy(v: JsValue)
  {
    match v
    case Undefined => false
    case Null => false
    case Bool(b) => b
    case Num(n) => n != 0
    case Str(s) => s != ""
    case Obj(_) => true
  }

  /** `typeof v === 'string'` */
  predicate IsString(v: JsValue)
  {
    v.Str?
  }

  /** `v.status`: only an object can carry the property; reading it off a
      string, number or boolean yields `undefined`. */
  function StatusOf(v: JsValue): (r: Option<int>)
    ensures r.Some? ==> v.Obj?
  {
    if v.Obj? then v.status else None
  }

  /** The state's `error` entry: `false` initially and after a send,
      `null` once a timer has cleared it, a display string otherwise. */
  datatype ErrorField = ErrFalse | ErrNull | ErrText(text: string)
  {
    predicate IsTruthy()
    {
      ErrText? && text != ""
    }
  }

  /** A selected file, identified opaquely. */
  type FileRef = nat

  /** The state's `image` object. `{}` has no entry at all; `attachImage`
      stores the selected File with a `preview` property added; the object
      spread in `imageUploaded` keeps only the own properties `preview` and
      `url`, so the File itself is gone after it. */
  datatype Image = Image(file: Option<FileRef>, preview: Option<string>, url: Option<string>)

  /** `{}` */
  const EmptyImage: Image := Image(None, None, None)

  /** `image.url` read as a condition: present and not the empty string. */
  predicate HasUrl(img: Image)
  {
    img.url.Some? && img.url.value != ""
  }
}
