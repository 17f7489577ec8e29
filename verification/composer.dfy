/** The message composer: the typed text and the selected image preview, the guard and
    payload of a submit, the image-type check of a file selection, and the enabled state
    of the send button. Reading the file as a data URI, object URLs and the parent's send
    handler are parameters. */
module Composer {
  import opened Wrappers
  import opened JsString

  /** A file picked in the file input: its MIME type and name. */
  datatype File = File(mimeType: string, name: string)

  /** The selected image and the object URL its preview shows. */
  datatype Preview = Preview(file: File, url: string)

  datatype ComposerState = ComposerState(text: string, preview: Option<Preview>)

  const Empty := ComposerState("", None)

  /** What is handed to the parent's send handler: the text and the image data URI, if any. */
  datatype Payload = Payload(text: string, image: Option<string>)

  /** What a transition asks of the outside world. */
  datatype Effect =
    | SendPayload(payload: Payload)
    | RevokeUrl(url: string)
    | NotifyError(text: string)

  datatype Step = Step(state: ComposerState, effects: seq<Effect>)

  const MsgNotAnImage := "Please select an image file"
  const MsgComposeFailed := "Failed to send message"

  /** `clearImage`: drops the preview and releases its object URL. */
  function ClearImage(c: ComposerState): (r: Step)
    ensures r.state == c.(preview := None)
    ensures c.preview.Some? && c.preview.value.url != "" ==> r.effects == [RevokeUrl(c.preview.value.url)]
    ensures !(c.preview.Some? && c.preview.value.url != "") ==> r.effects == []
  {
    if c.preview.Some? && c.preview.value.url != "" then
      Step(c.(preview := None), [RevokeUrl(c.preview.value.url)])
    else
      Step(c.(preview := None), [])
  }

  /** `handleImageSelect`: `file` is the first selected file, if any, and `url` the object
      URL created for it. Only a file whose type starts with "image/" becomes the preview. */
  function HandleImageSelect(c: ComposerState, file: Option<File>, url: string): (r: Step)
    ensures r.state.text == c.text
    ensures file.None? ==> r == Step(c, [])
    ensures file.Some? && !StartsWith(file.value.mimeType, "image/") ==>
              r == Step(c, [NotifyError(MsgNotAnImage)])
    ensures r.state.preview != c.preview ==>
              file.Some? && StartsWith(file.value.mimeType, "image/") && r.state.preview == Some(Preview(file.value, url))
    ensures file.Some? && StartsWith(file.value.mimeType, "image/") ==> r.state.preview == Some(Preview(file.value, url))
  {
    match file
    case None => Step(c, [])
    case Some(f) =>
      if !StartsWith(f.mimeType, "image/") then Step(c, [NotifyError(MsgNotAnImage)])
      else Step(c.(preview := Some(Preview(f, url))), [])
  }

  /** Submitting does nothing: the trimmed text is empty and no image is selected. */
  predicate NothingToSend(c: ComposerState) {
    Trim(c.text) == [] && c.preview.None?
  }

  /** `handleSubmit`. `encode` stands for reading the file as a data URI (None when the
      reader fails) and `delivered` for whether the parent's send handler returned
      normally rather than throwing. */
  function HandleSubmit(c: ComposerState, encode: File -> Option<string>, delivered: bool): (r: Step)
    ensures NothingToSend(c) ==> r == Step(c, [])
    ensures !NothingToSend(c) && c.preview.Some? && encode(c.preview.value.file).None? ==>
              r == Step(c, [NotifyError(MsgComposeFailed)])
    ensures r.effects != [] && r.effects[0].SendPayload? ==>
              var p := r.effects[0].payload;
              && p.text == Trim(c.text)
              && (p.image.None? <==> c.preview.None?)
              && (c.preview.Some? ==> p.image == encode(c.preview.value.file))
              && (p.text != [] || p.image.Some?)
    ensures !NothingToSend(c) && (c.preview.None? || encode(c.preview.value.file).Some?) ==>
              |r.effects| > 0 && r.effects[0].SendPayload?
    ensures r.state == c || r.state == Empty
    ensures r.state == Empty && r.state != c ==> delivered
    ensures !NothingToSend(c) && (c.preview.None? || encode(c.preview.value.file).Some?) && delivered ==>
              r.state == Empty
    ensures !delivered ==> r.state == c
  {
    if NothingToSend(c) then Step(c, [])
    else if c.preview.Some? && encode(c.preview.value.file).None? then
      Step(c, [NotifyError(MsgComposeFailed)])
    else
      var image := if c.preview.Some? then encode(c.preview.value.file) else None;
      var payload := Payload(Trim(c.text), image);
      if delivered then
        var cleared := ClearImage(c.(text := ""));
        Step(cleared.state, [SendPayload(payload)] + cleared.effects)
      else
        Step(c, [SendPayload(payload), NotifyError(MsgComposeFailed)])
  }

  /** The send button is enabled unless the raw text is empty and no image is selected.
      A disabled button never hides something a submit would send. */
  predicate SendEnabled(c: ComposerState): (enabled: bool)
    ensures !enabled ==> NothingToSend(c)
  {
    c.text != "" || c.preview.Some?
  }

  /** Selecting an image and then clearing it gives back the composer without a preview and
      releases exactly the object URL that was created (object URLs are never empty). */
  lemma SelectThenClear(c: ComposerState, f: File, url: string)
    requires StartsWith(f.mimeType, "image/") && url != ""
    ensures HandleImageSelect(c, Some(f), url).effects == []
    ensures ClearImage(HandleImageSelect(c, Some(f), url).state) == Step(c.(preview := None), [RevokeUrl(url)])
  {
  }

  /** Whenever a submit sends something, the button was enabled. */
  lemma SubmitNeedsEnabledButton(c: ComposerState, encode: File -> Option<string>, delivered: bool)
    requires HandleSubmit(c, encode, delivered).effects != []
    ensures SendEnabled(c)
  {
  }

  /** Whitespace-only text enables the button, yet submitting it does nothing. */
  lemma WhitespaceEnablesButSendsNothing(c: ComposerState, encode: File -> Option<string>, delivered: bool)
    requires c.text != "" && Blank(c.text) && c.preview.None?
    ensures SendEnabled(c)
    ensures HandleSubmit(c, encode, delivered) == Step(c, [])
  {
  }
}
