# Chat front end for a generative-AI API, modelled in Dafny

The application is a browser chat window. The user types a prompt, may attach
an image, and picks one of four modes: chat, image generation, image editing
and video generation. `generateResponse` (services/genai.ts) builds the request
for the chosen mode and hands it to the provider's SDK. For video it polls the
long-running operation until it is done. It then turns the reply into
`{text?, mediaUrl?, mediaType?}`. `handleSubmit` (App.tsx) does the rest of a
submission: it checks the guard and clears the draft, then appends the user
message and a loading placeholder. When the request settles, it patches the
placeholder by id with the response or an error.

The model has five modules:

- `Wrappers` (wrappers.dfy): `Option` and `Result`.
- `Types` (types.dfy): the records of types.ts (`Message`, `MessageContent`,
  `Attachment`, `GenerationSettings`, `AppMode`) and a well-formedness
  predicate for content items.
- `JsString` (jsstring.dfy): the JavaScript built-ins the code relies on:
  truthiness of an optional string, `trim` (with ECMAScript's whitespace set)
  and `split`/`join` on one character.
- `GenAI` (genai.dfy): the request builder, the first-inline-part search, the
  poll loop, the normalisers and `GenerateResponse`. The SDK is replaced by an
  `Env` value. It holds whether the key widget exists and whether it reports a
  selected key, the API key, what `generateContent` and `generateVideos` return
  or throw, and a finite sequence of replies for `getVideosOperation`.
- `App` (app.dfy): the guard, the content builders, `Resolve` (the patch by
  id) with its lemmas, the base64 extraction of the file picker, and the class
  `ChatApp`. That class holds the component state (`messages`, `input`, `mode`,
  `isLoading`, `attachment`, `settings`) that `handleSubmit` updates.

The loops of the source are methods proved equal to specification functions:
`FindInlinePart` against `FirstInlineIndex`, and `PollUntilDone` against
`PollFrom`. The local arrays that the source builds with `push` and `unshift`
are built the same way, in `BuildUserContent`, `BuildResponseContent` and
`BuildRequest`.

Two behaviours of the code that are easy to overlook:

- Chat returns the SDK reply's `text` accessor (services/genai.ts:156).
- Resolving an id that no message carries is a silent no-op (`ResolveAbsent`).

## Model

| member | source | states |
|---|---|---|
| GenAI.KeySelectorOpened | services/genai.ts:5-12 | the key selector opens only for video and image generation, only when the key widget exists, and exactly when no key is selected |
| GenAI.BuildRequest | services/genai.ts:31-149 | image editing without an attachment fails with "Please upload an image to edit." and only then; otherwise the built request satisfies `RequestFor`: chat picks the pro model with the attachment first and the prompt last, or the lite model with the prompt alone; image generation sends exactly the prompt and the settings' aspect ratio and image size unmodified; video uses 1 video at 1080p, and its aspect ratio is "9:16" exactly when the setting is "9:16", else "16:9" |
| GenAI.RequestForDeterministic | services/genai.ts:31-149 | the per-mode description of the request admits at most one request |
| GenAI.FirstInlineIndex | services/genai.ts:85-93 | the index found holds inline data and every earlier part does not; none is found exactly when no part has inline data |
| GenAI.FindInlinePart | services/genai.ts:120-128 | the loop with early return over the reply's parts finds exactly `FirstInlineIndex` |
| GenAI.InlineImage | services/genai.ts:86-91 | the media URL is "data:" + mime + ";base64," + data of the first inline part, with media type image and the given caption |
| GenAI.ImageGenOutcome | services/genai.ts:72-94 | a thrown request rejects with its error; the first inline part becomes an image with the caption "Generated with Gemini 3 Pro Image"; no inline part rejects with "No image generated" |
| GenAI.ImageEditOutcome | services/genai.ts:105-133 | like image generation with the caption "Edited with Gemini 2.5 Flash Image"; without an inline part, a non-empty reply text is returned alone, and an empty or absent one rejects with "Image editing failed." |
| GenAI.ChatOutcome | services/genai.ts:151-156 | a thrown call rejects with its error; otherwise chat resolves with the reply text (possibly absent) and no media |
| GenAI.PollFromSpec | services/genai.ts:54-57 | the loop stops at the first done operation, which is the last poll's reply, with every earlier poll not done; or it stops at the first poll that threw; or, if no supplied reply is done, it is still running |
| GenAI.PollStopsAtFirstDone | services/genai.ts:54-57 | if the first n-1 polls are not done and the n-th is, the loop finishes after exactly n polls with the n-th operation |
| GenAI.PollUntilDone | services/genai.ts:51-57 | the `while (!operation.done)` loop computes exactly `PollFrom` from the first operation |
| GenAI.VideoOutcome | services/genai.ts:51-64 | a thrown start or poll rejects with that error; only the final operation's first video URI is used; an absent or empty URI rejects with "Video generation failed or returned no URI"; otherwise the media URL is uri + "&key=" + key with media type video; it is pending exactly while polling is unfinished |
| GenAI.ExpectedOutcome | services/genai.ts:16-160 | dispatch by an exhaustive match over the four modes: image editing without an attachment rejects with the fixed message; only video can stay pending or yield a video; only the two image modes yield an image |
| GenAI.GenerateResponse | services/genai.ts:16-160 | the paid-key check runs for video and image generation only; no SDK call is made exactly for image editing without an attachment; any call made satisfies `RequestFor`; the outcome is `ExpectedOutcome` |
| JsString.Trim | App.tsx:54 | `trim` gives the slice of the string left after removing a leading and a trailing run of whitespace; it is empty exactly when every character is whitespace, and otherwise neither starts nor ends with whitespace |
| JsString.Split | App.tsx:43 | `split` gives at least one segment, exactly one when the separator does not occur, and no segment contains the separator |
| JsString.JoinSplit | App.tsx:43 | joining the segments of a split gives back the original string |
| JsString.SplitJoin | App.tsx:43 | splitting a join of separator-free segments gives back the segments |
| App.AttachmentBase64 | App.tsx:43 | the stored base64 is absent exactly when the data URL has no comma, and never contains a comma |
| App.Base64OfDataUrl | App.tsx:43 | for "header,payload" with comma-free parts the stored base64 is exactly the payload |
| App.SubmitAccepted | App.tsx:54 | a submit goes ahead exactly when nothing is loading and there is an attachment or a non-whitespace character in the input |
| App.AcceptedUserContentNonEmpty | App.tsx:54-72 | an accepted submit always produces at least one user content item |
| App.UserContent | App.tsx:71-72 | the untrimmed input as text if non-empty, then the attachment as an image if present, in that order and nothing else; every item is well formed |
| App.BuildUserContent | App.tsx:68-72 | pushing onto an empty array builds exactly `UserContent` |
| App.ResponseContent | App.tsx:93-95 | the text if truthy, then one media item if the URL is truthy; that item is a video exactly when the media type is video, else an image; every item is well formed |
| App.BuildResponseContent | App.tsx:93-95 | pushing onto an empty array builds exactly `ResponseContent` |
| App.ErrorContent | App.tsx:108 | a single text item "Error: " + message, or "Error: Something went wrong" for an empty message |
| App.Resolve | App.tsx:91-100 | the patch by id keeps the length; every message with the id gets the content and `isLoading` false, keeping its id, role and timestamp; every other message is identical |
| App.ResolveAbsent | App.tsx:91-112 | patching an id that no message carries changes nothing |
| App.ResolveUnique | App.tsx:91-112 | when the id occurs once, only that one message changes |
| App.ResolveIdempotent | App.tsx:91-112 | patching twice with the same content is patching once |
| App.SubmitThenSettle | App.tsx:74-100 | after appending the user message and the placeholder, settling a fresh placeholder id leaves earlier messages and the user message intact and settles the placeholder with `isLoading` false |
| App.ChatApp.constructor | App.tsx:21-26 | the initial state: no messages, empty input, chat mode, not loading, no attachment, settings 1:1 / 1K / 1080p |
| App.ChatApp.BeginSubmit | App.tsx:52-85 | a rejected submit changes nothing; an accepted one returns the draft, clears input and attachment, raises `isLoading`, and appends exactly the user message and then the placeholder (Model role, empty content, loading) |
| App.ChatApp.AppendSubmission | App.tsx:60-85 | clears the draft, appends the user message, raises `isLoading` and appends the placeholder |
| App.ChatApp.FinishSubmit | App.tsx:87-115 | the placeholder is patched by id with the response content or the error content, and the global `isLoading` is false afterwards, on either path |
| App.ChatApp.HandleSubmit | App.tsx:52-116 | the guard, the request made with the draft as it was before clearing, and the final messages: the two appended messages, with the placeholder settled unless the video is still polling |

## Left out

- Rendering, scrolling and styling (App.tsx:118-250 and components/): views with no state of their own to verify.
- The SDK (`generateContent`, `generateVideos`, `getVideosOperation`): its replies and thrown errors are supplied in `Env`. Its `response.text` accessor is a separate supplied field, not computed from the parts.
- The key widget: `hasSelectedApiKey` and `openSelectKey` are modelled only as the call/no-call decision in `KeySelectorOpened`. Waiting for the user's choice is not modelled.
- The distinction between the client created first and the one created after the key check: both see the same supplied replies.
- The 5-second sleep: timing only. The poll loop consumes a finite sequence of replies. When the sequence ends before any operation is done, the outcome is `Pending`, which stands for the source's unbounded wait.
- `Date.now()`: ids and timestamps are parameters. The source does not guarantee unique ids, so `SubmitThenSettle` assumes the placeholder id is fresh, and `Resolve` patches every message that carries the id.
- `process.env.API_KEY` is a string parameter. An undefined key, which the template would render as "undefined", is not modelled.
- `FileReader` and `setAttachment` in `handleFileSelect`: only the extraction of line 43 is modelled. The case of a data URL without a comma, which would store an undefined base64, ends at `AttachmentBase64` returning None.
- `App.ChatApp.HandleSubmit`: the model runs a submission from the guard to the `finally` with no other event handler in between. In the source, while `await generateResponse` (App.tsx:88) is suspended, only the text input (App.tsx:205) and the send button (App.tsx:228) are disabled. The mode buttons (App.tsx:146), the settings panel (App.tsx:182), the remove-attachment button (App.tsx:188) and the file picker (App.tsx:211, 222) stay enabled. So `mode`, `settings` and `attachment` can change before the request settles. The conjuncts `attachment.None?`, `mode == old(mode)` and `settings == old(settings)` of its final state hold only when none of those handlers runs. The request itself and the patch of `messages` use the values captured before the await, so the other conjuncts are unaffected.
- `console.error`: logging.
- The final `throw new Error("Invalid mode selected")` (services/genai.ts:159): unreachable because the match over the four modes is exhaustive.
- Mode, settings and input setters wired to the UI (`setMode`, `setSettings`, `setInput`, removing the attachment): plain field assignments on `ChatApp` outside `handleSubmit`.
- String encoding: JavaScript strings are UTF-16, and Dafny strings are sequences of Unicode scalar values. Lengths can differ, but no property here depends on lengths of user text.
