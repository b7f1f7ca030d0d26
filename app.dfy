/** The conversation store of App.tsx: the submit guard, the user message,
    the loading placeholder and its patch by id, and the base64 extraction
    of the file picker. Ids and timestamps, taken from the clock in the
    source, are parameters. */
module App {
  import opened Wrappers
  import opened Types
  import opened JsString
  import GenAI

  const InitialSettings := GenerationSettings("1:1", "1K", "1080p")
  const FallbackErrorMessage := "Something went wrong"

  // ---------------------------------------------------------------------
  // The file picker

  /** `dataUrl.split(',')[1]`: the second comma-separated segment, or
      `undefined` (None) when the URL has no comma. */
  function AttachmentBase64(dataUrl: string): (b: Option<string>)
    ensures b.None? <==> ',' !in dataUrl
    ensures b.Some? ==> ',' !in b.value
  {
    var segments := Split(dataUrl, ',');
    if |segments| > 1 then Some(segments[1]) else None
  }

  /** For a data URL `header,payload` with a comma-free payload (as base64
      is), the extracted text is exactly the payload. */
  lemma Base64OfDataUrl(header: string, payload: string)
    requires ',' !in header && ',' !in payload
    ensures AttachmentBase64(header + "," + payload) == Some(payload)
  {
    SplitAtFirstSeparator(header, ',', payload);
    SplitWithoutSeparator(payload, ',');
  }

  // ---------------------------------------------------------------------
  // Building and patching messages

  /** `!input.trim() && !attachment || isLoading` is the early return; a
      submit goes ahead exactly when nothing is loading and there is a
      non-whitespace character or an attachment. */
  function SubmitAccepted(input: string, attachment: Option<Attachment>, isLoading: bool): (ok: bool)
    ensures ok <==> !isLoading && (attachment.Some? || exists i :: 0 <= i < |input| && !IsJsWhitespace(input[i]))
  {
    !((Trim(input) == "" && attachment.None?) || isLoading)
  }

  /** The user message's content: the untrimmed input as text when it is
      non-empty, then the attachment as an image, in that order. */
  function UserContent(input: string, attachment: Option<Attachment>): (c: seq<MessageContent>)
    ensures |c| == (if input != "" then 1 else 0) + (if attachment.Some? then 1 else 0)
    ensures input != "" ==> c[0] == TextItem(input)
    ensures attachment.Some? ==> c[|c| - 1] == AttachmentItem(attachment.value)
    ensures forall i :: 0 <= i < |c| ==> WellFormedContent(c[i])
  {
    (if input != "" then [TextItem(input)] else [])
    + (if attachment.Some? then [AttachmentItem(attachment.value)] else [])
  }

  /** An accepted submit never produces an empty user message: without an
      attachment the input has a non-whitespace character, so it is not
      empty either. */
  lemma AcceptedUserContentNonEmpty(input: string, attachment: Option<Attachment>, isLoading: bool)
    requires SubmitAccepted(input, attachment, isLoading)
    ensures |UserContent(input, attachment)| >= 1
    ensures !isLoading
  {
  }

  function MediaKind(t: Option<GenAI.MediaType>): ContentType {
    if t == Some(GenAI.VideoMedia) then Video else Image
  }

  /** The patched content on success: the text if truthy, then one media item
      if the URL is truthy, a video exactly when the media type says so. */
  function ResponseContent(res: GenAI.GenResult): (c: seq<MessageContent>)
    ensures |c| == (if Truthy(res.text) then 1 else 0) + (if Truthy(res.mediaUrl) then 1 else 0)
    ensures Truthy(res.text) ==> c[0] == TextItem(res.text.value)
    ensures Truthy(res.mediaUrl) ==> c[|c| - 1].mediaUrl == res.mediaUrl
    ensures Truthy(res.mediaUrl) ==>
              (c[|c| - 1].contentType == Video <==> res.mediaType == Some(GenAI.VideoMedia))
    ensures forall i :: 0 <= i < |c| ==> WellFormedContent(c[i])
  {
    (if Truthy(res.text) then [TextItem(res.text.value)] else [])
    + (if Truthy(res.mediaUrl) then [MediaItem(MediaKind(res.mediaType), res.mediaUrl.value)] else [])
  }

  /** The patched content on failure: one text item "Error: " followed by the
      message, or by the fallback when the message is empty. */
  function ErrorContent(e: GenAI.Error): (c: seq<MessageContent>)
    ensures |c| == 1 && WellFormedContent(c[0]) && c[0].contentType == Text
    ensures e.message != "" ==> c[0].text == Some("Error: " + e.message)
    ensures e.message == "" ==> c[0].text == Some("Error: Something went wrong")
  {
    assert "Error: " + FallbackErrorMessage == "Error: Something went wrong";
    [TextItem("Error: " + (if e.message != "" then e.message else FallbackErrorMessage))]
  }

  /** What the placeholder is patched with once the request settles. */
  function SettledContent(o: GenAI.Outcome): seq<MessageContent>
    requires !o.Pending?
  {
    match o
    case Resolved(res) => ResponseContent(res)
    case Rejected(e) => ErrorContent(e)
  }

  /** Lines 71-72: the user content pushed item by item onto an empty array. */
  method BuildUserContent(input: string, attachment: Option<Attachment>) returns (content: seq<MessageContent>)
    ensures content == UserContent(input, attachment)
  {
    content := [];
    if input != "" {
      content := content + [TextItem(input)];
    }
    if attachment.Some? {
      content := content + [AttachmentItem(attachment.value)];
    }
  }

  /** Lines 93-95: the success content pushed item by item onto an empty array. */
  method BuildResponseContent(res: GenAI.GenResult) returns (content: seq<MessageContent>)
    ensures content == ResponseContent(res)
  {
    content := [];
    if Truthy(res.text) {
      content := content + [TextItem(res.text.value)];
    }
    if Truthy(res.mediaUrl) {
      content := content + [MediaItem(MediaKind(res.mediaType), res.mediaUrl.value)];
    }
  }

  function UserMessage(id: string, timestamp: int, content: seq<MessageContent>): Message {
    Message(id, User, content, timestamp, None)
  }

  function Placeholder(id: string, timestamp: int): Message {
    Message(id, Model, [], timestamp, Some(true))
  }

  /** `{ ...msg, isLoading: false, content }`. */
  function Settle(m: Message, content: seq<MessageContent>): Message {
    m.(isLoading := Some(false), content := content)
  }

  /** `prev.map(msg => msg.id === id ? { ...msg, isLoading: false, content } : msg)`:
      same length, every message with the id is settled with the content, and
      every other message is left as it was. */
  function Resolve(msgs: seq<Message>, id: string, content: seq<MessageContent>): (r: seq<Message>)
    ensures |r| == |msgs|
    ensures forall i :: 0 <= i < |msgs| && msgs[i].id != id ==> r[i] == msgs[i]
    ensures forall i :: 0 <= i < |msgs| && msgs[i].id == id ==>
              r[i] == msgs[i].(isLoading := Some(false), content := content)
    decreases |msgs|
  {
    if msgs == [] then []
    else
      var head := if msgs[0].id == id then Settle(msgs[0], content) else msgs[0];
      var rest := Resolve(msgs[1..], id, content);
      assert forall i :: 1 <= i < |msgs| ==> msgs[i] == msgs[1..][i - 1];
      [head] + rest
  }

  predicate IdAbsent(msgs: seq<Message>, id: string) {
    forall i :: 0 <= i < |msgs| ==> msgs[i].id != id
  }

  /** Resolving an id that no message carries changes nothing. */
  lemma ResolveAbsent(msgs: seq<Message>, id: string, content: seq<MessageContent>)
    requires IdAbsent(msgs, id)
    ensures Resolve(msgs, id, content) == msgs
  {
  }

  /** When the id occurs exactly once, at `k`, resolving settles that one
      message and nothing else. */
  lemma ResolveUnique(msgs: seq<Message>, id: string, content: seq<MessageContent>, k: nat)
    requires k < |msgs| && msgs[k].id == id
    requires forall i :: 0 <= i < |msgs| && i != k ==> msgs[i].id != id
    ensures Resolve(msgs, id, content) == msgs[k := Settle(msgs[k], content)]
  {
  }

  /** Resolving twice with the same content is resolving once. */
  lemma ResolveIdempotent(msgs: seq<Message>, id: string, content: seq<MessageContent>)
    ensures Resolve(Resolve(msgs, id, content), id, content) == Resolve(msgs, id, content)
  {
  }

  /** An accepted submit appends the user message and the placeholder; when
      the placeholder's id is fresh, settling it touches nothing else: the
      earlier messages and the user message stay, and the placeholder keeps
      its id, role and timestamp and is no longer loading. */
  lemma SubmitThenSettle(prev: seq<Message>, user: Message, loadingId: string, loadingTime: int,
                         content: seq<MessageContent>)
    requires IdAbsent(prev, loadingId) && user.id != loadingId
    ensures Resolve(prev + [user, Placeholder(loadingId, loadingTime)], loadingId, content)
            == prev + [user, Message(loadingId, Model, content, loadingTime, Some(false))]
  {
    ResolveUnique(prev + [user, Placeholder(loadingId, loadingTime)], loadingId, content, |prev| + 1);
  }

  // ---------------------------------------------------------------------
  // The component state

  /** The state of the `App` component that `handleSubmit` reads and writes. */
  class ChatApp {
    var messages: seq<Message>
    var input: string
    var mode: AppMode
    var isLoading: bool
    var attachment: Option<Attachment>
    var settings: GenerationSettings

    /** The `useState` initial values. */
    constructor ()
      ensures messages == [] && input == "" && mode == Chat && !isLoading
      ensures attachment.None? && settings == InitialSettings
    {
      messages := [];
      input := "";
      mode := Chat;
      isLoading := false;
      attachment := None;
      settings := InitialSettings;
    }

    /** The synchronous part of `handleSubmit`, up to the request: the guard,
        clearing the draft, appending the user message and the placeholder,
        and raising `isLoading`. Returns the draft that was sent. */
    method BeginSubmit(userId: string, userTime: int, loadingId: string, loadingTime: int)
      returns (accepted: bool, prompt: string, sent: Option<Attachment>)
      modifies this
      ensures accepted == SubmitAccepted(old(input), old(attachment), old(isLoading))
      ensures !accepted ==> unchanged(this)
      ensures accepted ==>
        && prompt == old(input) && sent == old(attachment)
        && input == "" && attachment.None? && isLoading
        && mode == old(mode) && settings == old(settings)
        && messages == old(messages) + [UserMessage(userId, userTime, UserContent(prompt, sent)),
                                        Placeholder(loadingId, loadingTime)]
    {
      accepted := SubmitAccepted(input, attachment, isLoading);
      prompt, sent := input, attachment;
      if !accepted {
        return;
      }
      AppendSubmission(userId, userTime, loadingId, loadingTime, prompt, sent);
    }

    /** The accepted branch of `BeginSubmit`: the draft is cleared, the user
        message is appended, `isLoading` is raised and the placeholder is
        appended. */
    method AppendSubmission(userId: string, userTime: int, loadingId: string, loadingTime: int,
                            prompt: string, sent: Option<Attachment>)
      modifies this
      ensures input == "" && attachment.None? && isLoading
      ensures mode == old(mode) && settings == old(settings)
      ensures messages == old(messages) + [UserMessage(userId, userTime, UserContent(prompt, sent)),
                                           Placeholder(loadingId, loadingTime)]
    {
      input := "";
      attachment := None;
      var content := BuildUserContent(prompt, sent);
      messages := messages + [UserMessage(userId, userTime, content)];
      isLoading := true;
      messages := messages + [Placeholder(loadingId, loadingTime)];
    }

    /** The `try`/`catch`/`finally` after the request settles: patch the
        placeholder by id with the response or the error, then lower
        `isLoading`. */
    method FinishSubmit(loadingId: string, outcome: GenAI.Outcome)
      requires !outcome.Pending?
      modifies this
      ensures messages == Resolve(old(messages), loadingId, SettledContent(outcome))
      ensures !isLoading
      ensures input == old(input) && attachment == old(attachment)
      ensures mode == old(mode) && settings == old(settings)
    {
      match outcome {
        case Resolved(res) =>
          var content := BuildResponseContent(res);
          messages := Resolve(messages, loadingId, content);
        case Rejected(e) =>
          messages := Resolve(messages, loadingId, ErrorContent(e));
      }
      isLoading := false;
    }

    /** `handleSubmit` as a whole. A rejected submit changes nothing and makes
        no request. Otherwise the draft is cleared, the request is made with
        the draft that was sent, and the placeholder is settled; while the
        supplied poll replies say the video is still running, the
        placeholder stays loading and so does the component. */
    method HandleSubmit(userId: string, userTime: int, loadingId: string, loadingTime: int, env: GenAI.Env)
      returns (accepted: bool, call: Option<GenAI.Request>, outcome: GenAI.Outcome)
      modifies this
      ensures accepted == SubmitAccepted(old(input), old(attachment), old(isLoading))
      ensures !accepted ==> unchanged(this) && call.None?
      ensures accepted ==>
        && outcome == GenAI.ExpectedOutcome(old(mode), old(attachment), env)
        && (call.None? <==> old(mode) == ImageEdit && old(attachment).None?)
        && (call.Some? ==> GenAI.RequestFor(old(mode), old(input), old(attachment), old(settings), call.value))
        && input == "" && attachment.None? && mode == old(mode) && settings == old(settings)
        && isLoading == outcome.Pending?
      ensures accepted ==>
        var appended := old(messages) + [UserMessage(userId, userTime, UserContent(old(input), old(attachment))),
                                         Placeholder(loadingId, loadingTime)];
        messages == if outcome.Pending? then appended else Resolve(appended, loadingId, SettledContent(outcome))
    {
      var prompt, sent;
      accepted, prompt, sent := BeginSubmit(userId, userTime, loadingId, loadingTime);
      if !accepted {
        call, outcome := None, GenAI.Pending;
        return;
      }
      var keyChecked, selectorOpened;
      keyChecked, selectorOpened, call, outcome := GenAI.GenerateResponse(mode, prompt, sent, settings, env);
      if !outcome.Pending? {
        FinishSubmit(loadingId, outcome);
      }
    }
  }
}
