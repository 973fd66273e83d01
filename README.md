# Lyrics Card Generator — a Dafny model of its workflow

The Lyrics Card Generator is a browser app. It turns a free-text song query
into an image card. It asks a generative API for the song's title, artist,
lyrics and an album-art description. A second call asks it for a generated
image. The user edits a lyric excerpt, picks a font and a text effect, and
downloads the rendered card as a PNG.

This project models the part with structure:

- `lyrics_app.dfy` (module `LyricsApp`) covers the screen workflow of `App.tsx`.
  - `AppState` is the four screen states.
  - Class `App` holds the component's eight state fields.
  - Each event handler is one method. `handleFindSong` is split at its two
    awaits (`FindSongStart`, `MetadataOk`/`MetadataSettled`,
    `ArtOk`/`ArtSettled`, `FetchFailed`), so the model lets a response arrive
    at any later time.
  - User actions require the guard that the rendered markup puts on them,
    except `Reset`, which is deliberately left unguarded so that its contract
    covers every state (in the program the Start Over button exists only on
    the card screen). Response events have no guard.
  - It also holds the download file-name rule and the art prompt.
- `gemini_service.dfy` (module `GeminiService`) covers the pure parts of
  `services/geminiService.ts`:
  - the acceptance test on the parsed song record;
  - the rule that every failure becomes one fixed error message;
  - the choice of the first inline image part;
  - the `data:` URI built from that part.
- `jsstring.dfy` (module `JsString`) models the JavaScript string semantics the
  app relies on. `trim()` and `/\s+/g` share one whitespace class, the
  ECMAScript WhiteSpace and LineTerminator code points.
- `wrappers.dfy` (module `Wrappers`) holds `Option` (for `null` and absent
  fields) and `Result` (a promise that resolves, or rejects with a message).

`App.Valid()` is the invariant every event keeps:
- the lyrics and card screens always have a song record;
- the card screen also has an image and non-blank lyrics;
- the font and effect fields always hold one of the pickers' values.

Two client methods, `ImagineScenarioSearch` and `ImagineScenarioCard`, step
through the example in verified code. It goes from the query "Imagine - John
Lennon" to the file name `John_Lennon-Imagine-lyrics.png` and back to the
initial state.

`LateArtAfterReset` shows an order of events that the model allows but the UI
makes unreachable: an art response after a reset still stores its image. In
the program the card screen needs the current search's image, so that
search's art call has returned before Start Over is shown, and the search
input is hidden on the card screen. The late responses the program really can
produce are those of a download clicked before Start Over. The download
callback closes over the record of the render in which Download was clicked
(App.tsx:85-102), so `DownloadClicked` returns that captured record and
`DownloadSucceeded` names the file from it. `LateDownloadSuccessAfterReset`
shows a success after Start Over still saving
`John_Lennon-Imagine-lyrics.png`, and `LateDownloadFailureAfterReset` shows a
failure setting the download message on the initial screen. Since a download
can only be clicked on the card screen, which always has a record, the
`lyrics-card.png` fallback is never reached (`DownloadClicked`).

Points where the code's behaviour is easy to misread:

- An art-generation failure is not silent. `generateAlbumArt` is awaited inside
  the same `try` as the metadata call (App.tsx:58-74). Its failure therefore
  sets the generic error and returns to `idle`, and it leaves the song record
  and lyrics in place (`FetchFailed`, `ArtSettled`).
- Starting a search clears the error, the record and the image. It does not
  clear the selected lyrics (App.tsx:53-56).
- The query sent to the metadata call is the untrimmed input (App.tsx:60).
- `albumArtDescription` is not checked at run time (geminiService.ts:47). A
  record may reach the app without it, and the art prompt then contains the
  text "undefined" (`ArtPrompt`, `Interpolate`).
- The UI guards allow find-song only on the idle screen. The input is hidden
  on the card screen and disabled while loading or selecting lyrics
  (`FindSongOnlyWhenIdle`).
- On a valid card screen the download name always comes from the record, so
  the fallback name is never used there (`CardReadyFileName`).

## Model

| member | source | states |
|---|---|---|
| `JsString.IsWs` | App.tsx:49 | definition: the ECMAScript WhiteSpace and LineTerminator code points, the one set that both `trim()` (App.tsx:49, 78) and `\s` in `/\s+/g` (App.tsx:93) use |
| `JsString.TrimStart` | App.tsx:49 | the result is a suffix of the input that is empty or starts with a non-whitespace character, and is strictly shorter when the input starts with whitespace |
| `JsString.TrimStartSplits` | App.tsx:49 | the input is exactly a whitespace-only prefix followed by what TrimStart keeps |
| `JsString.TrimEnd` | App.tsx:49 | the result is a prefix of the input that is empty or ends with a non-whitespace character |
| `JsString.TrimEndSplits` | App.tsx:49 | the input is exactly what TrimEnd keeps followed by a whitespace-only suffix |
| `JsString.Trim` | App.tsx:49 | a non-empty trimmed string starts and ends with a non-whitespace character |
| `JsString.TrimStartEmptyIffBlank` | App.tsx:49 | TrimStart gives the empty string exactly when the input is all whitespace |
| `JsString.TrimEmptyIffBlank` | App.tsx:78 | `!s.trim()` holds exactly when every character of `s` is whitespace, in both directions |
| `JsString.ReplaceWsRuns` | App.tsx:93 | the result of replacing `/\s+/g` by `_` contains no whitespace |
| `JsString.ReplaceWsRunsKeepsVisible` | App.tsx:93 | apart from underscores, the replacement keeps exactly the non-whitespace characters of the input, in order |
| `JsString.ReplaceWsRunsOfWord` | App.tsx:93 | a string without whitespace is left unchanged |
| `JsString.ReplaceWsRunsOfRun` | App.tsx:93 | a non-empty all-whitespace string becomes one underscore |
| `JsString.ReplaceWsRunsConcat` | App.tsx:93 | the replacement distributes over a concatenation whose seam is not inside a whitespace run; with the two lemmas above it fixes the result on every string |
| `JsString.ReplaceWsRunsIdempotent` | App.tsx:93 | replacing twice equals replacing once |
| `GeminiService.Truthy` | services/geminiService.ts:47 | definition: a string field is truthy when it is present and not empty, the negation of `!parsed.x` |
| `GeminiService.IsComplete` | services/geminiService.ts:47 | definition: lyrics, title and artist are all truthy, the negation of `!parsed.fullLyrics \|\| !parsed.songTitle \|\| !parsed.artist` |
| `GeminiService.ValidateSong` | services/geminiService.ts:47-50 | a record is accepted exactly when lyrics, title and artist are present and non-empty; an accepted record is returned unchanged, field for field; a rejection carries the incomplete-data message |
| `GeminiService.FetchSongInfo` | services/geminiService.ts:33-56 | success exactly when a reply was parsed and it is complete; the success value reads back to the parsed record; every failure, validation included, is the single message "Failed to get song details from Gemini API." |
| `GeminiService.AcceptedFieldsNonEmpty` | services/geminiService.ts:47-50 | every record the service returns has a non-empty title, artist and lyrics |
| `GeminiService.ArtDescriptionNotChecked` | services/geminiService.ts:47 | changing or removing the art description never changes acceptance |
| `GeminiService.AcceptRoundTrip` | services/geminiService.ts:50 | a record with non-empty checked fields is accepted back as itself |
| `GeminiService.FindInlinePart` | services/geminiService.ts:70 | the index returned is that of the first part with inline data; no index means no part has inline data |
| `GeminiService.SelectImage` | services/geminiService.ts:70-72 | a payload is chosen exactly when the first candidate has parts and one of them has inline data, and it is the payload of the first such part |
| `GeminiService.FirstInlineUnique` | services/geminiService.ts:70 | at most one index is the first inline part |
| `GeminiService.DataUriRoundTrip` | services/geminiService.ts:73-75 | the data URI of a MIME type without `;` and a payload parses back to that MIME type and payload |
| `GeminiService.ParseDataUriExact` | services/geminiService.ts:73-75 | whatever the data-URI reader accepts is exactly the data URI of its result |
| `GeminiService.GenerateAlbumArt` | services/geminiService.ts:58-83 | success exactly when a response arrived and an image part was chosen; the value is `"data:" + mimeType + ";base64," + data` of that part and never empty; every failure is the single message "Failed to generate album art from Gemini API." |
| `GeminiService.NoInlinePartFails` | services/geminiService.ts:70-78 | no candidate, no parts, or no inline part gives the art failure |
| `GeminiService.GeneratedUrlReadsBack` | services/geminiService.ts:70-75 | a successful art URL parses back to the chosen part's payload |
| `LyricsApp.DownloadFileName` | App.tsx:93 | without a record the name is `lyrics-card.png`; with one it has no whitespace and ends in `-lyrics.png` |
| `LyricsApp.DownloadFileNameKeepsVisible` | App.tsx:93 | apart from underscores, the name is the artist's and the title's non-whitespace characters, in order, joined by `-`, then the suffix |
| `LyricsApp.ReplaceTwoWords` | App.tsx:93 | two whitespace-free words joined by one space become the words joined by `_` |
| `LyricsApp.DownloadFileNameOfWords` | App.tsx:93 | a two-word artist and a one-word title give `first_last-title-lyrics.png` |
| `LyricsApp.DownloadFileNameExample` | App.tsx:93 | ("John Lennon", "Imagine") gives `John_Lennon-Imagine-lyrics.png` |
| `GeminiService.SecondPartChosen` | services/geminiService.ts:70-75 | when the first part has no inline data and the second does, the art URL is the second part's data URI |
| `LyricsApp.App.FindSongOnlyWhenIdle` | App.tsx:235-249 | the find-song input and button are usable exactly on the idle screen |
| `LyricsApp.App.CardReadyFileName` | App.tsx:151-152 | on a valid card screen the download name is never the fallback |
| `LyricsApp.App.constructor` | App.tsx:27-34 | the eight fields start at their declared values and the invariant holds |
| `LyricsApp.App.Reset` | App.tsx:37-46 | from any state: empty input, no record, empty lyrics, no image, no error, idle, first font, first effect |
| `LyricsApp.App.EditSongInput` | App.tsx:238-245 | only the input text changes |
| `LyricsApp.App.FindSongStart` | App.tsx:48-56 | blank input: only the fixed validation error is set and the state stays; otherwise loading, with the error, record and image cleared, input, lyrics and styles untouched, and the untrimmed input as the query |
| `LyricsApp.App.MetadataOk` | App.tsx:60-66 | stores the record, makes the lyrics exactly the full lyrics, opens the lyrics screen, leaves image and error, and yields the art prompt built from the description |
| `LyricsApp.App.ArtOk` | App.tsx:67-68 | only the image URL changes, to the non-empty data URI, whatever the state is |
| `LyricsApp.App.FetchFailed` | App.tsx:70-73 | only the error (fixed message) and the state (idle) change; the record stays |
| `LyricsApp.App.MetadataSettled` | App.tsx:58-74 | the metadata outcome drives MetadataOk or FetchFailed; a record ever shown is the old one or a complete one |
| `LyricsApp.App.ArtSettled` | App.tsx:65-73 | an art success stores the URL and keeps the state; an art failure sets the generic error and idle and keeps the record and lyrics |
| `LyricsApp.App.EditLyrics` | App.tsx:123-129 | only the lyrics change, and only on the lyrics screen |
| `LyricsApp.App.CreateCard` | App.tsx:77-83 | needs the lyrics screen and a non-empty image URL; blank lyrics set the fixed error and keep the state; otherwise only the state changes, to the card screen, and an earlier error stays |
| `LyricsApp.App.SelectFont` | App.tsx:167-178 | only the font changes, to one of the picker's values, on the card screen |
| `LyricsApp.App.SelectEffect` | App.tsx:182-191 | only the effect changes, to one of the picker's values, on the card screen |
| `LyricsApp.App.DownloadClicked` | App.tsx:85-102 | a click on the card screen captures the record of that render for the continuations, changes nothing, and the captured record never yields the fallback name |
| `LyricsApp.App.DownloadSucceeded` | App.tsx:91-96 | the saved file's name comes from the record captured at the click: the artist and the title with whitespace runs replaced, joined by `-`, then `-lyrics.png`, or `lyrics-card.png` without a record |
| `LyricsApp.App.DownloadFailed` | App.tsx:98-101 | only the error changes, to the fixed download message |
| `LyricsApp.ImagineScenarioSearch` | App.tsx:48-68 | the example query leads to the lyrics screen with the record stored and the create action enabled |
| `LyricsApp.Interpolate` | App.tsx:66 | definition: a template-literal substitution renders an absent value as `undefined` and a present one as itself |
| `LyricsApp.ArtPrompt` | App.tsx:66 | definition: the fixed wallpaper prefix, the substituted description, the fixed style suffix |
| `LyricsApp.ArtPromptReadsBack` | App.tsx:66 | the substituted description can be read back from the prompt by an independent reader that strips the fixed prefix and suffix |
| `LyricsApp.ArtPromptSameIff` | App.tsx:66 | two records give the same prompt exactly when their substituted descriptions agree, so a missing description and the text "undefined" are indistinguishable to the art call |
| `GeminiService.FirstCandidateParts` | services/geminiService.ts:70 | definition: `candidates?.[0]?.content?.parts`, `None` when any link is missing |
| `GeminiService.FirstCandidatePartsIgnoresRest` | services/geminiService.ts:70 | only the first candidate is read: candidates after it never change the parts searched |
| `GeminiService.GenerateAlbumArtIgnoresRest` | services/geminiService.ts:70-78 | the art outcome depends on the first candidate alone |
| `GeminiService.DataUri` | services/geminiService.ts:73-75 | definition: `data:${mimeType};base64,${data}`; its partner is the independent reader `ParseDataUri`, proved its inverse by `DataUriRoundTrip` and `ParseDataUriExact` |
| `GeminiService.ArtFromResponse` | services/geminiService.ts:70-78 | definition: the body of the `try`, the chosen part's data URI or "No image was generated."; the promise is stated by `GenerateAlbumArt` and proved by `NoInlinePartFails` and `GeneratedUrlReadsBack` |
| `LyricsApp.IsFontFamily` | App.tsx:11-17 | definition: the value is the `family` of one of the five font options, the values the font picker offers (App.tsx:173-177) |
| `LyricsApp.IsEffectStyle` | App.tsx:19-24 | definition: the value is the `style` of one of the four effect options, the values the effect picker offers (App.tsx:188-190) |
| `LyricsApp.App.IsInitial` | App.tsx:27-34 | all eight fields hold their declared initial values: empty input, no record, empty lyrics, no image, no error, idle, first font family, first effect style |
| `LyricsApp.App.Valid` | App.tsx:115-152 | the lyrics and card screens have a record, the card screen a non-empty image URL and non-blank lyrics, and font and effect are picker values |
| `LyricsApp.App.CanFindSong` | App.tsx:235-249 | find-song is usable when the input is shown (not the card screen) and enabled (neither loading nor selecting lyrics) |
| `LyricsApp.App.CanCreateCard` | App.tsx:114-147 | create-card is usable on the lyrics screen with a record and a truthy, that is non-empty, image URL |
| `LyricsApp.App.CanStyle` | App.tsx:151-192 | the pickers are shown on the card screen with a record and a truthy image URL |
| `LyricsApp.ImagineScenarioCard` | App.tsx:77-96 | continuing the example, the excerpt makes the card, the download name is `John_Lennon-Imagine-lyrics.png`, and Start Over restores the initial state |
| `LyricsApp.LateArtAfterReset` | App.tsx:67-68 | an art response after a reset stores the image and leaves the idle state and the cleared record; this order is allowed by the model, not produced by the UI |
| `LyricsApp.LateDownloadFailureAfterReset` | App.tsx:98-101 | a download clicked on the card screen that fails after Start Over sets only the download message on the initial screen |
| `LyricsApp.LateDownloadSuccessAfterReset` | App.tsx:85-96 | a download clicked on the card screen that succeeds after Start Over still saves `John_Lennon-Imagine-lyrics.png`, while the screen is initial |

## Left out

- Rendering: the JSX and CSS of `renderContent`, the root markup and `LyricsCard`. Only the guards they put on each action are kept, as `requires` clauses.
- The network calls to the Gemini SDK, `response.text`, `JSON.parse` and the `API_KEY` check. They are foreign calls and environment access. Their outcome is a parameter, and `None` stands for "it threw".
- `html-to-image` rasterization and the link click. They are a third-party library and browser I/O. Only the file name and the failure event remain. The `cardRef.current === null` early return is not modelled.
- React hook semantics (`useState` batching, `useRef`) are not modelled. Each run of setters is one atomic step. The one `useCallback` closure, over `songInfo` in handleDownload, is modelled by the record `DownloadClicked` captures.
- `console.error` logging is not modelled.
- The metadata prompt template (geminiService.ts:37) is not modelled, because it only shapes the remote request.
- Field values that are present but are not strings (JSON numbers or objects) are not modelled. The response schema asks for strings, so a field is a present or absent string.
- `InlineData` keeps `mimeType` and `data` as present strings, although the SDK types mark them optional.
- JavaScript strings are UTF-16 code units, while Dafny's `char` is a Unicode scalar value. Every whitespace code point is in the Basic Multilingual Plane, so the whitespace rules agree.
