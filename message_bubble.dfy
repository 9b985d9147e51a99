/** The message bubble (components/chat/message-bubble.tsx): which layout a message
    gets, which read-receipt tick it carries, and when its media shows inline, offers
    a refresh or lets audio play. */
module MessageBubble {
  import opened Common
  import Webhook

  /** The part of `media_data` the bubble reads; `None` when the message has none or
      it does not parse. */
  datatype MediaView = MediaView(mediaUrl: Option<string>, s3Uploaded: Option<bool>, voice: Option<bool>)

  datatype Layout = ImageBubble | DocumentBubble | AudioBubble | VideoBubble | TemplateBubble | PlainBubble

  datatype Tick = NoTick | Clock | ReadTicks | DeliveredTicks | SingleTick

  /** `message_type || 'text'`, then the switch: any other type is a plain bubble. */
  function LayoutOf(messageType: Option<string>): (l: Layout)
    ensures !Present(messageType) ==> l == PlainBubble
    ensures l == ImageBubble <==> messageType == Some("image")
    ensures l == DocumentBubble <==> messageType == Some("document")
    ensures l == AudioBubble <==> messageType == Some("audio")
    ensures l == VideoBubble <==> messageType == Some("video")
    ensures l == TemplateBubble <==> messageType == Some("template")
  {
    match OrElse(messageType, "text")
    case "image" => ImageBubble
    case "document" => DocumentBubble
    case "audio" => AudioBubble
    case "video" => VideoBubble
    case "template" => TemplateBubble
    case _ => PlainBubble
  }

  /** `renderTicks`. */
  function TickOf(isOwn: bool, isOptimistic: bool, status: Option<string>, isRead: Option<bool>): (t: Tick)
    ensures t == NoTick <==> !isOwn
    ensures t == Clock <==> isOwn && isOptimistic
    ensures t == ReadTicks <==> isOwn && !isOptimistic && (status == Some("read") || Flag(isRead))
    ensures t == DeliveredTicks <==> isOwn && !isOptimistic && status == Some("delivered") && !Flag(isRead)
    ensures t == SingleTick <==>
              isOwn && !isOptimistic && status != Some("read") && status != Some("delivered") && !Flag(isRead)
  {
    if !isOwn then NoTick
    else if isOptimistic then Clock
    else if status == Some("read") || Flag(isRead) then ReadTicks
    else if status == Some("delivered") then DeliveredTicks
    else SingleTick
  }

  /** The media is shown (image, video, download button): a truthy URL and an upload
      that succeeded. */
  predicate MediaShown(md: Option<MediaView>) {
    md.Some? && Present(md.value.mediaUrl) && Flag(md.value.s3Uploaded)
  }

  /** The document refresh button: no URL, or no successful upload. */
  predicate DocumentRefreshShown(md: Option<MediaView>) {
    md.None? || !Present(md.value.mediaUrl) || !Flag(md.value.s3Uploaded)
  }

  /** The image refresh button: only when the upload is recorded as failed; an absent
      flag shows none. */
  predicate ImageRefreshShown(md: Option<MediaView>) {
    md.Some? && md.value.s3Uploaded == Some(false)
  }

  /** The audio play button is disabled. */
  predicate PlayDisabled(md: Option<MediaView>, isRefreshing: bool) {
    md.None? || !Present(md.value.mediaUrl) || !Flag(md.value.s3Uploaded) || isRefreshing
  }

  function AudioLabel(md: Option<MediaView>): (caption: string)
    ensures caption == "Voice Message" <==> md.Some? && Flag(md.value.voice)
    ensures caption == "Audio" <==> !(md.Some? && Flag(md.value.voice))
  {
    if md.Some? && Flag(md.value.voice) then "Voice Message" else "Audio"
  }

  /** A document offers exactly one of download and refresh; audio can be played
      exactly when the media would be shown and no refresh is running; an image
      refresh is offered only where the media is not shown, but not for every such
      message. */
  lemma MediaControlsAgree(md: Option<MediaView>, isRefreshing: bool)
    ensures DocumentRefreshShown(md) <==> !MediaShown(md)
    ensures PlayDisabled(md, isRefreshing) <==> !MediaShown(md) || isRefreshing
    ensures ImageRefreshShown(md) ==> !MediaShown(md)
  {
  }

  /** A message whose media was never described gets neither the media nor an image
      refresh button: the image bubble then offers no way to fetch it. */
  lemma MissingFlagOffersNoImageRefresh(url: Option<string>, voice: Option<bool>)
    ensures !MediaShown(Some(MediaView(url, None, voice)))
    ensures !ImageRefreshShown(Some(MediaView(url, None, voice)))
    ensures DocumentRefreshShown(Some(MediaView(url, None, voice)))
  {
  }

  /** The bubble's view of a descriptor the webhook stored. */
  function ViewOf(d: Webhook.MediaDescriptor): MediaView {
    MediaView(d.mediaUrl, Some(d.s3Uploaded), d.seed.voice)
  }

  /** Media stored by the webhook shows inline exactly when its relay succeeded, and
      a failed relay always offers the image refresh button. */
  lemma StoredMediaShownIffUploaded(d: Webhook.MediaDescriptor)
    requires Webhook.DescriptorConsistent(d)
    ensures MediaShown(Some(ViewOf(d))) <==> d.s3Uploaded
    ensures ImageRefreshShown(Some(ViewOf(d))) <==> !d.s3Uploaded
  {
  }
}
