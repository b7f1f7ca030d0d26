/** The shared records of the chat application (types.ts). */
module Types {
  import opened Wrappers

  datatype MessageRole = User | Model | System

  datatype ContentType = Text | Image | Video

  /** The four generation modes; each selects one branch of the request builder. */
  datatype AppMode = Chat | ImageGen | ImageEdit | VideoGen

  /** A user upload: base64 payload and its MIME type. */
  datatype Attachment = Attachment(base64: string, mimeType: string)

  /** One content item of a message. `text`, `mediaUrl` and `attachment` are the
      optional fields of the source record. */
  datatype MessageContent = MessageContent(
    contentType: ContentType,
    text: Option<string>,
    mediaUrl: Option<string>,
    attachment: Option<Attachment>)

  /** A conversation entry; `isLoading` is optional in the source (absent on
      user messages). */
  datatype Message = Message(
    id: string,
    role: MessageRole,
    content: seq<MessageContent>,
    timestamp: int,
    isLoading: Option<bool>)

  datatype GenerationSettings = GenerationSettings(
    aspectRatio: string,
    imageSize: string,
    videoResolution: string)

  function TextItem(s: string): MessageContent {
    MessageContent(Text, Some(s), None, None)
  }

  function AttachmentItem(a: Attachment): MessageContent {
    MessageContent(Image, None, None, Some(a))
  }

  function MediaItem(t: ContentType, url: string): MessageContent {
    MessageContent(t, None, Some(url), None)
  }

  /** Exactly one payload field is populated, and it matches the tag. */
  predicate WellFormedContent(c: MessageContent) {
    match c.contentType
    case Text => c.text.Some? && c.mediaUrl.None? && c.attachment.None?
    case Image => c.text.None? && (c.mediaUrl.Some? != c.attachment.Some?)
    case Video => c.text.None? && c.mediaUrl.Some? && c.attachment.None?
  }
}
