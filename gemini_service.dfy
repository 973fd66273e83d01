/** The two pure rules of the Gemini service layer (services/geminiService.ts):
    the acceptance test on the parsed song record with its error wrapping, and
    the selection of the first inline image part with its data URI. The network
    calls, `response.text`, `JSON.parse` and the API key check are outside the
    model: their outcome is an input, `None` when any of them threw. */
module GeminiService {
  import opened Wrappers

  /** The JSON object the metadata call returns, as parsed: each field may be
      absent (`None`). */
  datatype ParsedSong = ParsedSong(
    songTitle: Option<string>,
    artist: Option<string>,
    fullLyrics: Option<string>,
    albumArtDescription: Option<string>)

  /** A song record the service hands to the app. The three checked fields are
      present; `albumArtDescription` is passed through unchecked, so it may
      still be absent. */
  datatype SongInfo = SongInfo(
    songTitle: string,
    artist: string,
    fullLyrics: string,
    albumArtDescription: Option<string>)

  const IncompleteSongError := "Received incomplete song data from API."
  const SongError := "Failed to get song details from Gemini API."
  const NoImageError := "No image was generated."
  const ArtError := "Failed to generate album art from Gemini API."

  /** JavaScript truthiness of an optional string: present and not "". */
  predicate Truthy(f: Option<string>) {
    f.Some? && f.value != ""
  }

  /** The "basic validation" of the parsed record. */
  predicate IsComplete(p: ParsedSong) {
    Truthy(p.fullLyrics) && Truthy(p.songTitle) && Truthy(p.artist)
  }

  /** The record a SongInfo was read from, field for field. */
  function AsParsed(info: SongInfo): ParsedSong {
    ParsedSong(Some(info.songTitle), Some(info.artist), Some(info.fullLyrics), info.albumArtDescription)
  }

  /** The validation step: rejects a record with a missing or empty title,
      artist or lyrics, and returns an accepted record unchanged. */
  function ValidateSong(p: ParsedSong): (r: Result<SongInfo>)
    ensures r.Success? <==> IsComplete(p)
    ensures r.Success? ==> AsParsed(r.value) == p
    ensures r.Failure? ==> r.error == IncompleteSongError
  {
    if !IsComplete(p) then Failure(IncompleteSongError)
    else Success(SongInfo(p.songTitle.value, p.artist.value, p.fullLyrics.value, p.albumArtDescription))
  }

  /** `fetchSongInfo`: `reply` is the parsed response, or `None` when the
      request, the text access or the JSON parse threw. Every failure,
      validation included, is rethrown as one fixed message. */
  function FetchSongInfo(reply: Option<ParsedSong>): (r: Result<SongInfo>)
    ensures r.Success? <==> reply.Some? && IsComplete(reply.value)
    ensures r.Success? ==> AsParsed(r.value) == reply.value
    ensures r.Failure? ==> r.error == SongError
  {
    match reply
    case None => Failure(SongError)
    case Some(p) =>
      match ValidateSong(p)
      case Success(info) => Success(info)
      case Failure(_) => Failure(SongError)
  }

  /** An accepted record has non-empty title, artist and lyrics. */
  lemma AcceptedFieldsNonEmpty(reply: Option<ParsedSong>)
    requires FetchSongInfo(reply).Success?
    ensures FetchSongInfo(reply).value.songTitle != ""
    ensures FetchSongInfo(reply).value.artist != ""
    ensures FetchSongInfo(reply).value.fullLyrics != ""
  {
  }

  /** The art description plays no part in acceptance. */
  lemma ArtDescriptionNotChecked(p: ParsedSong, d: Option<string>)
    ensures ValidateSong(p).Success? <==> ValidateSong(p.(albumArtDescription := d)).Success?
  {
  }

  /** Every record the service can return is accepted again, unchanged, when
      read back. */
  lemma AcceptRoundTrip(info: SongInfo)
    requires info.songTitle != "" && info.artist != "" && info.fullLyrics != ""
    ensures ValidateSong(AsParsed(info)) == Success(info)
  {
  }

  /** The parts of the image response this code looks at. */
  datatype InlineData = InlineData(mimeType: string, data: string)
  datatype Part = Part(inlineData: Option<InlineData>)
  datatype Content = Content(parts: Option<seq<Part>>)
  datatype Candidate = Candidate(content: Option<Content>)
  datatype ImageResponse = ImageResponse(candidates: Option<seq<Candidate>>)

  /** `k` is the index of the first part that carries inline data. */
  predicate IsFirstInline(parts: seq<Part>, k: nat) {
    k < |parts| && parts[k].inlineData.Some?
    && forall j :: 0 <= j < k ==> parts[j].inlineData.None?
  }

  /** `parts.find(part => part.inlineData)`, as an index. */
  function FindInlinePart(parts: seq<Part>): (r: Option<nat>)
    ensures r.Some? ==> IsFirstInline(parts, r.value)
    ensures r.None? ==> forall j :: 0 <= j < |parts| ==> parts[j].inlineData.None?
  {
    if parts == [] then None
    else if parts[0].inlineData.Some? then Some(0)
    else
      match FindInlinePart(parts[1..])
      case None => None
      case Some(k) => Some(k + 1)
  }

  /** `response.candidates?.[0]?.content?.parts`: the parts of the first
      candidate, or `None` when any link of the chain is missing. */
  function FirstCandidateParts(resp: ImageResponse): Option<seq<Part>> {
    match resp.candidates
    case None => None
    case Some(cs) =>
      if |cs| == 0 then None
      else
        match cs[0].content
        case None => None
        case Some(c) => c.parts
  }

  /** Only the first candidate is read: the candidates after it never change
      which parts are searched. */
  lemma FirstCandidatePartsIgnoresRest(c: Candidate, rest: seq<Candidate>)
    ensures FirstCandidateParts(ImageResponse(Some([c] + rest)))
         == FirstCandidateParts(ImageResponse(Some([c])))
  {
  }

  /** The inline payload of the chosen image part. */
  function SelectImage(resp: ImageResponse): (r: Option<InlineData>)
    ensures r.Some? <==>
      FirstCandidateParts(resp).Some?
      && exists k: nat :: IsFirstInline(FirstCandidateParts(resp).value, k)
    ensures r.Some? ==>
      exists k: nat :: IsFirstInline(FirstCandidateParts(resp).value, k)
               && FirstCandidateParts(resp).value[k].inlineData == r
  {
    match FirstCandidateParts(resp)
    case None => None
    case Some(parts) =>
      match FindInlinePart(parts)
      case None =>
        assert forall k :: !IsFirstInline(parts, k);
        None
      case Some(k) => parts[k].inlineData
  }

  /** Only one part can be the first inline part. */
  lemma FirstInlineUnique(parts: seq<Part>, k: nat, m: nat)
    requires IsFirstInline(parts, k) && IsFirstInline(parts, m)
    ensures k == m
  {
  }

  /** `data:${mimeType};base64,${data}`. */
  function DataUri(d: InlineData): string {
    "data:" + d.mimeType + ";base64," + d.data
  }

  /** The index of the first `c` in `s`. */
  function IndexOf(s: string, c: char): (r: Option<nat>)
    ensures r.Some? ==> r.value < |s| && s[r.value] == c && c !in s[..r.value]
    ensures r.None? ==> c !in s
  {
    if s == [] then None
    else if s[0] == c then Some(0)
    else
      match IndexOf(s[1..], c)
      case None => None
      case Some(k) =>
        assert s[..k + 1] == [s[0]] + s[1..][..k];
        Some(k + 1)
  }

  /** The first `c` after a prefix without `c` is found just after that prefix. */
  lemma {:induction false} IndexOfFirst(a: string, c: char, b: string)
    requires c !in a
    ensures IndexOf(a + [c] + b, c) == Some(|a|)
  {
    if a != [] {
      assert (a + [c] + b)[1..] == a[1..] + [c] + b;
      IndexOfFirst(a[1..], c, b);
    }
  }

  /** Reads a data URI back into its MIME type and payload: the MIME type
      runs up to the first `;`, which must open the `;base64,` marker. */
  function ParseDataUri(s: string): Option<InlineData> {
    if |s| < 5 || s[..5] != "data:" then None
    else
      var rest := s[5..];
      match IndexOf(rest, ';')
      case None => None
      case Some(k) =>
        if |rest| - k < 8 || rest[k..k + 8] != ";base64," then None
        else Some(InlineData(rest[..k], rest[k + 8..]))
  }

  /** A data URI built from a MIME type without `;` reads back to the same
      MIME type and payload. */
  lemma {:induction false} DataUriRoundTrip(d: InlineData)
    requires ';' !in d.mimeType
    ensures ParseDataUri(DataUri(d)) == Some(d)
  {
    var s := DataUri(d);
    var rest := s[5..];
    assert rest == d.mimeType + ";base64," + d.data;
    var k := |d.mimeType|;
    assert rest[..k] == d.mimeType;
    assert rest[k] == ';';
    assert rest == d.mimeType + [';'] + ("base64," + d.data);
    IndexOfFirst(d.mimeType, ';', "base64," + d.data);
    assert rest[k..k + 8] == ";base64,";
    assert rest[k + 8..] == d.data;
  }

  /** Conversely, whatever ParseDataUri accepts is exactly the data URI of
      what it returns. */
  lemma ParseDataUriExact(s: string)
    requires ParseDataUri(s).Some?
    ensures ';' !in ParseDataUri(s).value.mimeType
    ensures DataUri(ParseDataUri(s).value) == s
  {
  }

  /** The body of the `try` in `generateAlbumArt` once the response is in:
      the data URI of the chosen part, or the no-image error. */
  function ArtFromResponse(resp: ImageResponse): Result<string> {
    match SelectImage(resp)
    case Some(d) => Success(DataUri(d))
    case None => Failure(NoImageError)
  }

  /** `generateAlbumArt`: `reply` is the image response, or `None` when the
      request threw. The result is the data URI of the first inline part of
      the first candidate, never empty; every failure, the request's own or
      the no-image error, is rethrown as one fixed message. */
  function GenerateAlbumArt(reply: Option<ImageResponse>): (r: Result<string>)
    ensures r.Success? <==> reply.Some? && SelectImage(reply.value).Some?
    ensures r.Success? ==> r.value == DataUri(SelectImage(reply.value).value)
    ensures r.Success? ==> r.value != ""
    ensures r.Failure? ==> r.error == ArtError
  {
    match reply
    case None => Failure(ArtError)
    case Some(resp) =>
      match ArtFromResponse(resp)
      case Success(url) => Success(url)
      case Failure(_) => Failure(ArtError)
  }

  /** A response whose first candidate has no inline part, or no parts, or
      that has no candidate at all, is a failure. */
  lemma NoInlinePartFails(resp: ImageResponse)
    requires FirstCandidateParts(resp).None?
          || forall j :: 0 <= j < |FirstCandidateParts(resp).value| ==>
               FirstCandidateParts(resp).value[j].inlineData.None?
    ensures GenerateAlbumArt(Some(resp)) == Failure(ArtError)
  {
  }

  /** The art outcome depends on the first candidate alone. */
  lemma GenerateAlbumArtIgnoresRest(c: Candidate, rest: seq<Candidate>)
    ensures GenerateAlbumArt(Some(ImageResponse(Some([c] + rest))))
         == GenerateAlbumArt(Some(ImageResponse(Some([c]))))
  {
    FirstCandidatePartsIgnoresRest(c, rest);
  }

  /** A successful art URL reads back to the payload of the chosen part,
      provided its MIME type has no `;`. */
  lemma GeneratedUrlReadsBack(resp: ImageResponse)
    requires SelectImage(resp).Some? && ';' !in SelectImage(resp).value.mimeType
    ensures GenerateAlbumArt(Some(resp)).Success?
    ensures ParseDataUri(GenerateAlbumArt(Some(resp)).value) == SelectImage(resp)
  {
    DataUriRoundTrip(SelectImage(resp).value);
  }

  /** When the first part has no inline data and the second has, the art
      URL is the second part's data URI. */
  lemma SecondPartChosen(png: InlineData)
    ensures GenerateAlbumArt(Some(ImageResponse(Some([Candidate(Some(Content(Some([Part(None), Part(Some(png))]))))]))))
         == Success(DataUri(png))
  {
    var parts := [Part(None), Part(Some(png))];
    assert parts[1..] == [Part(Some(png))];
    assert FindInlinePart(parts) == Some(1);
  }
}
