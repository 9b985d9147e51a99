/** The content classifier of the inbound webhook (`processMessageContent`): a total
    switch on the provider's `type` field that yields the display content, the stored
    message type and, for media messages, the seed of the media descriptor. */
module WebhookClassifier {
  import opened Common

  /** The media object the provider attaches to a media message. */
  datatype MediaInfo = MediaInfo(
    id: string,
    mimeType: string,
    sha256: string,
    filename: Option<string>,
    caption: Option<string>,
    voice: Option<bool>)

  /** One message as delivered. `kind` is the raw `type` field, which may name a type
      the classifier does not know; every payload field may be missing. */
  datatype RawMessage = RawMessage(
    id: string,
    from: string,
    timestamp: string,
    kind: string,
    textBody: Option<string>,
    image: Option<MediaInfo>,
    document: Option<MediaInfo>,
    audio: Option<MediaInfo>,
    video: Option<MediaInfo>,
    sticker: Option<MediaInfo>)

  /** The descriptor seed built from the payload. A field is `None` when the payload
      (or, for the optional fields, the field itself) is missing; a field the kind does
      not copy is always `None`. */
  datatype MediaSeed = MediaSeed(
    kind: string,
    id: Option<string>,
    mimeType: Option<string>,
    sha256: Option<string>,
    filename: Option<string>,
    caption: Option<string>,
    voice: Option<bool>)

  datatype Classified = Classified(content: string, messageType: string, media: Option<MediaSeed>)

  const MediaKinds: set<string> := {"image", "document", "audio", "video", "sticker"}

  predicate IsMediaKind(kind: string) {
    kind in MediaKinds
  }

  predicate IsKnownKind(kind: string) {
    kind == "text" || IsMediaKind(kind)
  }

  /** The payload object of the message's own kind (`message[message.type]`). */
  function Payload(m: RawMessage): Option<MediaInfo> {
    match m.kind
    case "image" => m.image
    case "document" => m.document
    case "audio" => m.audio
    case "video" => m.video
    case "sticker" => m.sticker
    case _ => None
  }

  function IdOf(p: Option<MediaInfo>): Option<string> {
    if p.Some? then Some(p.value.id) else None
  }

  function MimeOf(p: Option<MediaInfo>): Option<string> {
    if p.Some? then Some(p.value.mimeType) else None
  }

  function HashOf(p: Option<MediaInfo>): Option<string> {
    if p.Some? then Some(p.value.sha256) else None
  }

  function CaptionOf(p: Option<MediaInfo>): Option<string> {
    if p.Some? then p.value.caption else None
  }

  function FilenameOf(p: Option<MediaInfo>): Option<string> {
    if p.Some? then p.value.filename else None
  }

  function VoiceOf(p: Option<MediaInfo>): Option<bool> {
    if p.Some? then p.value.voice else None
  }

  /** `processMessageContent`. */
  function Classify(m: RawMessage): (r: Classified)
    ensures r.messageType == m.kind
    ensures r.media.Some? <==> IsMediaKind(m.kind)
    ensures r.media.Some? ==>
              && r.media.value.kind == m.kind
              && r.media.value.id == IdOf(Payload(m))
              && r.media.value.mimeType == MimeOf(Payload(m))
              && r.media.value.sha256 == HashOf(Payload(m))
    ensures !IsKnownKind(m.kind) ==> r.content == "[Unsupported message type: " + m.kind + "]"
  {
    match m.kind
    case "text" =>
      Classified(OrElse(m.textBody, ""), m.kind, None)
    case "image" =>
      Classified(OrElse(CaptionOf(m.image), "[Image]"), m.kind,
        Some(MediaSeed("image", IdOf(m.image), MimeOf(m.image), HashOf(m.image), None, CaptionOf(m.image), None)))
    case "document" =>
      Classified("[Document: " + OrElse(FilenameOf(m.document), "Unknown") + "]", m.kind,
        Some(MediaSeed("document", IdOf(m.document), MimeOf(m.document), HashOf(m.document), FilenameOf(m.document), None, None)))
    case "audio" =>
      Classified(if Flag(VoiceOf(m.audio)) then "[Voice Message]" else "[Audio]", m.kind,
        Some(MediaSeed("audio", IdOf(m.audio), MimeOf(m.audio), HashOf(m.audio), None, None, VoiceOf(m.audio))))
    case "video" =>
      Classified(OrElse(CaptionOf(m.video), "[Video]"), m.kind,
        Some(MediaSeed("video", IdOf(m.video), MimeOf(m.video), HashOf(m.video), None, CaptionOf(m.video), None)))
    case "sticker" =>
      Classified("[Sticker]", m.kind,
        Some(MediaSeed("sticker", IdOf(m.sticker), MimeOf(m.sticker), HashOf(m.sticker), None, None, None)))
    case _ =>
      Classified("[Unsupported message type: " + m.kind + "]", m.kind, None)
  }

  /** The content rules, one per kind, stated against the payload of that kind. */
  lemma ClassifyContent(m: RawMessage)
    ensures m.kind == "text" ==> Classify(m).content == (if Present(m.textBody) then m.textBody.value else "")
    ensures m.kind == "image" ==> Classify(m).content == (if Present(CaptionOf(m.image)) then CaptionOf(m.image).value else "[Image]")
    ensures m.kind == "video" ==> Classify(m).content == (if Present(CaptionOf(m.video)) then CaptionOf(m.video).value else "[Video]")
    ensures m.kind == "document" ==>
              Classify(m).content == "[Document: " + (if Present(FilenameOf(m.document)) then FilenameOf(m.document).value else "Unknown") + "]"
    ensures m.kind == "audio" ==> (Classify(m).content == "[Voice Message]" <==> VoiceOf(m.audio) == Some(true))
    ensures m.kind == "audio" ==> (Classify(m).content == "[Audio]" <==> VoiceOf(m.audio) != Some(true))
    ensures m.kind == "sticker" ==> Classify(m).content == "[Sticker]"
  {
  }

  /** Every kind but `text` yields non-empty content; a text message with no body
      yields the empty string. */
  lemma ClassifyContentNonEmpty(m: RawMessage)
    ensures m.kind != "text" ==> Classify(m).content != ""
    ensures m.kind == "text" && !Present(m.textBody) ==> Classify(m).content == ""
  {
  }

  /** The seed copies exactly the optional field its kind carries: the caption for
      images and videos, the file name for documents, the voice flag for audio. */
  lemma SeedOptionalFields(m: RawMessage)
    requires IsMediaKind(m.kind)
    ensures var s := Classify(m).media.value;
      && s.caption == (if m.kind in {"image", "video"} then CaptionOf(Payload(m)) else None)
      && s.filename == (if m.kind == "document" then FilenameOf(Payload(m)) else None)
      && s.voice == (if m.kind == "audio" then VoiceOf(Payload(m)) else None)
  {
  }

  /** The classifier reads only the type and the payload of that type: changing any
      other payload leaves its result unchanged. */
  lemma ClassifyReadsOwnPayload(m: RawMessage, n: RawMessage)
    requires m.kind == n.kind && Payload(m) == Payload(n)
    requires m.kind == "text" ==> m.textBody == n.textBody
    ensures Classify(m) == Classify(n)
  {
  }
}
