/** The conversation view of the dashboard (components/Chat/ChatWindow.tsx):
    what is rendered for a list of messages, how attachments are shown, and
    the rating buttons under the bot's replies. */
module ChatWindow {
  import opened Wrappers
  import opened Text
  import opened ChatTypes

  const DefaultImageAlt: string := "صورة"
  const DefaultAudioType: string := "audio/mpeg"

  datatype Alignment = FlexStart | FlexEnd

  datatype Media =
    | Image(src: string, alt: string)
    | AudioPlayer(src: string, mimeType: string)
    | PdfLink(src: string)
    | FileLink(src: string)

  /** A thumb button: the rating it sends, whether it is disabled, and
      whether it is coloured as the current rating. */
  datatype RateButton = RateButton(value: int, disabled: bool, highlighted: bool)

  datatype RatingBar = RatingBar(thumbUp: RateButton, thumbDown: RateButton)

  datatype Bubble = Bubble(align: Alignment, media: Option<Media>, text: string, rating: Option<RatingBar>)

  datatype WindowView = Spinner | EmptyState | Conversation(bubbles: seq<Bubble>)

  /** `typeof metadata?.[key] === "string"`: the value when it is a string. */
  function MetaString(md: Option<Metadata>, key: string): Option<string> {
    if md.Some? && key in md.value && md.value[key].MetaString? then Some(md.value[key].s) else None
  }

  /** The attachment block: present only for a non-empty string `mediaUrl`;
      dispatched on `mediaType` to an image (alt text from a string
      `fileName`, else the default), an audio player (type from a string
      `mimeType`, else "audio/mpeg"), a PDF link, or a generic link for any
      other type. */
  function MediaFor(md: Option<Metadata>): (m: Option<Media>)
    ensures m.Some? <==> Truthy(MetaString(md, "mediaUrl"))
    ensures m.Some? ==> m.value.src == MetaString(md, "mediaUrl").value
    ensures m.Some? ==>
      var kind := MetaString(md, "mediaType");
      (m.value.Image? <==> kind == Some("image"))
      && (m.value.AudioPlayer? <==> kind == Some("audio"))
      && (m.value.PdfLink? <==> kind == Some("pdf"))
    ensures m.Some? && m.value.Image? ==> m.value.alt == MetaString(md, "fileName").GetOr(DefaultImageAlt)
    ensures m.Some? && m.value.AudioPlayer? ==> m.value.mimeType == MetaString(md, "mimeType").GetOr(DefaultAudioType)
  {
    var url := MetaString(md, "mediaUrl");
    if !Truthy(url) then None
    else
      var kind := MetaString(md, "mediaType");
      if kind == Some("image") then Some(Image(url.value, MetaString(md, "fileName").GetOr(DefaultImageAlt)))
      else if kind == Some("audio") then Some(AudioPlayer(url.value, MetaString(md, "mimeType").GetOr(DefaultAudioType)))
      else if kind == Some("pdf") then Some(PdfLink(url.value))
      else Some(FileLink(url.value))
  }

  /** One message: customers' on the right (`flex-end`), bot and agent
      replies on the left; rating buttons only under bot replies, thumb-up
      sending 1 and disabled when the rating is 1, thumb-down sending 0 and
      disabled when the rating is 0. */
  function RenderBubble(m: ChatMessage): (b: Bubble)
    ensures b.align == FlexEnd <==> m.role == Customer
    ensures b.text == m.text && b.media == MediaFor(m.metadata)
    ensures b.rating.Some? <==> m.role == Bot
    ensures b.rating.Some? ==>
      b.rating.value.thumbUp.value == 1 && b.rating.value.thumbDown.value == 0
      && (b.rating.value.thumbUp.disabled <==> m.rating == Some(1))
      && (b.rating.value.thumbDown.disabled <==> m.rating == Some(0))
      && (b.rating.value.thumbUp.highlighted <==> m.rating == Some(1))
      && (b.rating.value.thumbDown.highlighted <==> m.rating == Some(0))
  {
    var rating :=
      if m.role == Bot then
        Some(RatingBar(RateButton(1, m.rating == Some(1), m.rating == Some(1)),
                       RateButton(0, m.rating == Some(0), m.rating == Some(0))))
      else None;
    Bubble(if m.role == Customer then FlexEnd else FlexStart, MediaFor(m.metadata), m.text, rating)
  }

  /** The whole view: only a spinner while loading, whatever the messages;
      the empty state for no messages; otherwise one bubble per message, in
      order. */
  function RenderWindow(messages: seq<ChatMessage>, loading: bool): (v: WindowView)
    ensures loading ==> v == Spinner
    ensures !loading && messages == [] ==> v == EmptyState
    ensures !loading && messages != [] ==>
      v.Conversation? && |v.bubbles| == |messages|
      && forall i :: 0 <= i < |messages| ==> v.bubbles[i] == RenderBubble(messages[i])
  {
    if loading then Spinner
    else if messages == [] then EmptyState
    else Conversation(seq(|messages|, i requires 0 <= i < |messages| => RenderBubble(messages[i])))
  }

  /** A call of `onRate(msg, value)`. */
  datatype RateCall = RateCall(message: ChatMessage, value: int)

  /** Clicking a thumb of the bubble rendered for `m` (`up` picks which): a
      missing or disabled button, or an absent `onRate`, calls nothing. So a
      rating is sent only for a bot reply, only as 1 (up) or 0 (down), and
      only when it differs from the current rating; and every such change
      can be sent. */
  function ClickRate(m: ChatMessage, up: bool, hasOnRate: bool): (call: Option<RateCall>)
    ensures call.Some? <==> m.role == Bot && hasOnRate && m.rating != Some(if up then 1 else 0)
    ensures call.Some? ==> call.value.message == m && call.value.value == (if up then 1 else 0)
  {
    var b := RenderBubble(m);
    if b.rating.None? then None
    else
      var button := if up then b.rating.value.thumbUp else b.rating.value.thumbDown;
      if button.disabled || !hasOnRate then None else Some(RateCall(m, button.value))
  }
}
