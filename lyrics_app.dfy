/** The screen workflow of the lyrics card generator (App.tsx): the four
    screen states, the eight component state fields, one method per event
    handler (the awaits of the find-song handler split into separate events,
    so that a response may arrive at any later time), the guards the rendered
    markup puts on each user action, and the download file name. */
module LyricsApp {
  import opened Wrappers
  import opened JsString
  import opened GeminiService

  datatype AppState = Idle | LoadingInfo | SelectingLyrics | CardReady

  datatype FontOption = FontOption(name: string, family: string)
  datatype EffectOption = EffectOption(name: string, style: string)

  /** The font picker's choices; the first is the default. */
  const FontOptions: seq<FontOption> := [
    FontOption("Inter", "'Inter', sans-serif"),
    FontOption("Lora", "'Lora', serif"),
    FontOption("Playfair Display", "'Playfair Display', serif"),
    FontOption("Roboto Slab", "'Roboto Slab', serif"),
    FontOption("Dancing Script", "'Dancing Script', cursive")
  ]

  /** The text-effect picker's choices; the first is the default. */
  const EffectOptions: seq<EffectOption> := [
    EffectOption("Shadow", "0 2px 8px rgba(0,0,0,0.8)"),
    EffectOption("Outline", "-1px -1px 0 #000, 1px -1px 0 #000, -1px 1px 0 #000, 1px 1px 0 #000"),
    EffectOption("Glow", "0 0 5px rgba(255, 255, 255, 0.7), 0 0 10px rgba(255, 255, 255, 0.5)"),
    EffectOption("None", "none")
  ]

  /** `f` is the value of one of the font picker's options. */
  predicate IsFontFamily(f: string) {
    exists i :: 0 <= i < |FontOptions| && FontOptions[i].family == f
  }

  /** `e` is the value of one of the effect picker's options. */
  predicate IsEffectStyle(e: string) {
    exists i :: 0 <= i < |EffectOptions| && EffectOptions[i].style == e
  }

  const EmptyInputError := "Please enter a song title and artist."
  const FindFailedError := "Failed to find song details. Please try a different song or check the console."
  const NoLyricsError := "Please select some lyrics first."
  const DownloadError := "Could not download the image. Please try again."
  const FallbackFileName := "lyrics-card.png"
  const FileNameSuffix := "-lyrics.png"

  const ArtPromptPrefix := "A vibrant, high-resolution, vertical (9:16 aspect ratio) phone wallpaper inspired by this description: "
  const ArtPromptSuffix := ". Style: digital painting, cinematic lighting, atmospheric."

  /** A template-literal substitution of a possibly absent string: an absent
      value is rendered as "undefined". */
  function Interpolate(f: Option<string>): string {
    match f
    case None => "undefined"
    case Some(v) => v
  }

  /** The prompt sent to the art call, built around the record's art description. */
  function ArtPrompt(desc: Option<string>): string {
    ArtPromptPrefix + Interpolate(desc) + ArtPromptSuffix
  }

  /** Reads the description back out of an art prompt: what lies between the
      fixed prefix and the fixed suffix, when both are there. */
  function PromptDescription(p: string): (d: Option<string>)
    ensures d.Some? ==> |d.value| + |ArtPromptPrefix| + |ArtPromptSuffix| == |p|
  {
    if |p| >= |ArtPromptPrefix| + |ArtPromptSuffix|
       && p[..|ArtPromptPrefix|] == ArtPromptPrefix
       && p[|p| - |ArtPromptSuffix|..] == ArtPromptSuffix
    then Some(p[|ArtPromptPrefix|..|p| - |ArtPromptSuffix|])
    else None
  }

  /** The description, as substituted, can be read back from the prompt. */
  lemma ArtPromptReadsBack(desc: Option<string>)
    ensures PromptDescription(ArtPrompt(desc)) == Some(Interpolate(desc))
  {
    var d := Interpolate(desc);
    var p := ArtPrompt(desc);
    assert p == ArtPromptPrefix + (d + ArtPromptSuffix);
    assert p[..|ArtPromptPrefix|] == ArtPromptPrefix;
    assert p[|p| - |ArtPromptSuffix|..] == ArtPromptSuffix;
    assert p[|ArtPromptPrefix|..|p| - |ArtPromptSuffix|] == d;
  }

  /** Two records give the same prompt exactly when their substituted
      descriptions agree; in particular a missing description and the
      literal text "undefined" give the same prompt. */
  lemma ArtPromptSameIff(d1: Option<string>, d2: Option<string>)
    ensures ArtPrompt(d1) == ArtPrompt(d2) <==> Interpolate(d1) == Interpolate(d2)
    ensures ArtPrompt(None) == ArtPrompt(Some("undefined"))
  {
    ArtPromptReadsBack(d1);
    ArtPromptReadsBack(d2);
  }

  /** The name of the downloaded file: artist and title with every whitespace
      run replaced by `_`, joined by `-` and followed by `-lyrics.png`; a fixed
      name when there is no song record. */
  function DownloadFileName(info: Option<SongInfo>): (name: string)
    ensures info.None? ==> name == FallbackFileName
    ensures info.Some? ==> NoWs(name)
    ensures info.Some? ==>
      |name| >= |FileNameSuffix| && name[|name| - |FileNameSuffix|..] == FileNameSuffix
  {
    match info
    case None => FallbackFileName
    case Some(i) =>
      var a, t := ReplaceWsRuns(i.artist), ReplaceWsRuns(i.songTitle);
      var name := a + "-" + t + FileNameSuffix;
      assert name[|name| - |FileNameSuffix|..] == FileNameSuffix;
      assert forall k :: 0 <= k < |name| ==> !IsWs(name[k]) by {
        forall k | 0 <= k < |name| ensures !IsWs(name[k]) {
          if k < |a| { assert name[k] == a[k]; }
          else if |a| < k < |a| + 1 + |t| { assert name[k] == t[k - |a| - 1]; }
        }
      }
      name
  }

  /** Apart from the underscores, the file name keeps the non-whitespace
      characters of the artist and of the title, in order, around the `-`
      separators. */
  lemma DownloadFileNameKeepsVisible(info: SongInfo)
    ensures Visible(DownloadFileName(Some(info)))
         == Visible(info.artist) + "-" + Visible(info.songTitle) + Visible(FileNameSuffix)
  {
    var a, t := ReplaceWsRuns(info.artist), ReplaceWsRuns(info.songTitle);
    assert DownloadFileName(Some(info)) == a + "-" + t + FileNameSuffix;
    ReplaceWsRunsKeepsVisible(info.artist);
    ReplaceWsRunsKeepsVisible(info.songTitle);
    assert Visible("-") == "-" by {
      assert !IsWs('-');
      assert "-"[1..] == [];
    }
    VisibleConcat(a + "-" + t, FileNameSuffix);
    VisibleConcat(a + "-", t);
    VisibleConcat(a, "-");
  }

  /** Two words separated by one space become the words joined by `_`. */
  lemma ReplaceTwoWords(a: string, b: string)
    requires a != [] && b != [] && NoWs(a) && NoWs(b)
    ensures ReplaceWsRuns(a + " " + b) == a + "_" + b
  {
    assert IsWs(' ');
    ReplaceWsRunsConcat(a + " ", b);
    ReplaceWsRunsConcat(a, " ");
    ReplaceWsRunsOfWord(a);
    ReplaceWsRunsOfRun(" ");
    ReplaceWsRunsOfWord(b);
  }

  /** A two-word artist and a one-word title: the space becomes `_`. */
  lemma DownloadFileNameOfWords(first: string, last: string, title: string, lyrics: string, desc: Option<string>)
    requires first != [] && last != [] && NoWs(first) && NoWs(last) && NoWs(title)
    ensures DownloadFileName(Some(SongInfo(title, first + " " + last, lyrics, desc)))
         == first + "_" + last + "-" + title + FileNameSuffix
  {
    ReplaceTwoWords(first, last);
    ReplaceWsRunsOfWord(title);
  }

  /** The example's artist words and title contain no whitespace. */
  lemma ExampleWords()
    ensures NoWs("John") && NoWs("Lennon") && NoWs("Imagine")
  {
    assert NoWs("John");
    assert NoWs("Lennon");
  }

  /** The example's strings, spelled out as the concatenations the file-name
      rule builds. */
  lemma ExampleSpelling()
    ensures "John" + " " + "Lennon" == "John Lennon"
    ensures "John" + "_" + "Lennon" + "-" + "Imagine" + FileNameSuffix == "John_Lennon-Imagine-lyrics.png"
  {
    assert "John" + "_" + "Lennon" == "John_Lennon";
    assert "John_Lennon" + "-" + "Imagine" == "John_Lennon-Imagine";
  }

  /** ("John Lennon", "Imagine") gives "John_Lennon-Imagine-lyrics.png". */
  lemma DownloadFileNameExample(info: SongInfo)
    requires info.artist == "John Lennon" && info.songTitle == "Imagine"
    ensures DownloadFileName(Some(info)) == "John_Lennon-Imagine-lyrics.png"
  {
    ExampleWords();
    ExampleSpelling();
    DownloadFileNameOfWords("John", "Lennon", "Imagine", info.fullLyrics, info.albumArtDescription);
  }

  /** The component's state: the eight fields of App.tsx and one method per
      event. User actions require the guard the markup puts on them; the
      arrival of a response has no guard, since nothing cancels a request. */
  class App {
    var songInput: string
    var songInfo: Option<SongInfo>
    var selectedLyrics: string
    var generatedImageUrl: Option<string>
    var appState: AppState
    var error: Option<string>
    var selectedFont: string
    var selectedEffect: string

    /** Every field holds its declared initial value. */
    predicate IsInitial()
      reads this
    {
      songInput == "" && songInfo == None && selectedLyrics == ""
      && generatedImageUrl == None && error == None && appState == Idle
      && selectedFont == FontOptions[0].family && selectedEffect == EffectOptions[0].style
    }

    /** What the workflow keeps true: the lyrics and card screens have a song
        record, the card screen also an image and non-blank lyrics, and the
        style fields hold picker values. */
    ghost predicate Valid()
      reads this
    {
      ((appState == SelectingLyrics || appState == CardReady) ==> songInfo.Some?)
      && (appState == CardReady ==> Truthy(generatedImageUrl) && !IsBlank(selectedLyrics))
      && IsFontFamily(selectedFont) && IsEffectStyle(selectedEffect)
    }

    /** The find-song input and button are shown (not on the card screen) and
        enabled (neither loading nor selecting lyrics). */
    predicate CanFindSong()
      reads this
    {
      appState != CardReady && appState != LoadingInfo && appState != SelectingLyrics
    }

    /** The create-card button is shown (lyrics screen with a record) and
        enabled (an image URL is present and not empty). */
    predicate CanCreateCard()
      reads this
    {
      appState == SelectingLyrics && songInfo.Some? && Truthy(generatedImageUrl)
    }

    /** The style pickers are shown: card screen with a record and a non-empty image URL. */
    predicate CanStyle()
      reads this
    {
      appState == CardReady && songInfo.Some? && Truthy(generatedImageUrl)
    }

    /** Together the guards leave find-song enabled on the idle screen only. */
    lemma FindSongOnlyWhenIdle()
      ensures CanFindSong() <==> appState == Idle
    {
    }

    /** On a valid card screen the download name always comes from the song record. */
    lemma CardReadyFileName()
      requires Valid() && appState == CardReady
      ensures DownloadFileName(songInfo) != FallbackFileName
    {
      assert FallbackFileName[|FallbackFileName| - |FileNameSuffix|..][0] != FileNameSuffix[0];
    }

    constructor ()
      ensures IsInitial() && Valid()
    {
      songInput, songInfo, selectedLyrics, generatedImageUrl := "", None, "", None;
      appState, error := Idle, None;
      selectedFont, selectedEffect := FontOptions[0].family, EffectOptions[0].style;
    }

    /** handleReset: every field back to its initial value, from any state. */
    method Reset()
      modifies this
      ensures IsInitial() && Valid()
    {
      songInput := "";
      songInfo := None;
      selectedLyrics := "";
      generatedImageUrl := None;
      error := None;
      appState := Idle;
      selectedFont := FontOptions[0].family;
      selectedEffect := EffectOptions[0].style;
    }

    /** The input's change handler. */
    method EditSongInput(s: string)
      requires Valid() && CanFindSong()
      modifies this`songInput
      ensures Valid() && songInput == s
    {
      songInput := s;
    }

    /** The synchronous part of handleFindSong. A blank input sets the
        validation error and nothing else; otherwise the screen starts
        loading, the error, record and image are cleared, and `query` is the
        untrimmed input sent to the metadata call. */
    method FindSongStart() returns (query: Option<string>)
      requires Valid() && CanFindSong()
      modifies this
      ensures Valid()
      ensures query.Some? <==> !IsBlank(old(songInput))
      ensures IsBlank(old(songInput)) ==>
        error == Some(EmptyInputError) && appState == old(appState)
        && songInfo == old(songInfo) && generatedImageUrl == old(generatedImageUrl)
      ensures !IsBlank(old(songInput)) ==>
        query == Some(old(songInput)) && appState == LoadingInfo
        && error == None && songInfo == None && generatedImageUrl == None
      ensures songInput == old(songInput) && selectedLyrics == old(selectedLyrics)
      ensures selectedFont == old(selectedFont) && selectedEffect == old(selectedEffect)
    {
      TrimEmptyIffBlank(songInput);
      if Trim(songInput) == [] {
        error := Some(EmptyInputError);
        query := None;
        return;
      }
      appState := LoadingInfo;
      error := None;
      songInfo := None;
      generatedImageUrl := None;
      query := Some(songInput);
    }

    /** The metadata call resolved with `info`: the record is stored, the
        lyrics are seeded with the full lyrics and the lyrics screen opens;
        `artPrompt` is the prompt then sent to the art call. */
    method MetadataOk(info: SongInfo) returns (artPrompt: string)
      requires Valid()
      modifies this
      ensures Valid()
      ensures songInfo == Some(info) && selectedLyrics == info.fullLyrics
      ensures appState == SelectingLyrics
      ensures artPrompt == ArtPrompt(info.albumArtDescription)
      ensures songInput == old(songInput) && generatedImageUrl == old(generatedImageUrl)
      ensures error == old(error)
      ensures selectedFont == old(selectedFont) && selectedEffect == old(selectedEffect)
    {
      songInfo := Some(info);
      selectedLyrics := info.fullLyrics;
      appState := SelectingLyrics;
      artPrompt := ArtPrompt(info.albumArtDescription);
    }

    /** The art call resolved with `url`, a data URI and so never empty
        (GenerateAlbumArt): only the image changes, whatever the state is by
        then. */
    method ArtOk(url: string)
      requires Valid() && url != ""
      modifies this`generatedImageUrl
      ensures Valid() && generatedImageUrl == Some(url)
    {
      generatedImageUrl := Some(url);
    }

    /** The catch of handleFindSong, reached when either call rejects: the
        fixed error and the idle screen; the record is left as it was. */
    method FetchFailed()
      requires Valid()
      modifies this`error, this`appState
      ensures Valid() && error == Some(FindFailedError) && appState == Idle
    {
      error := Some(FindFailedError);
      appState := Idle;
    }

    /** The first await of handleFindSong settles with the service's outcome.
        The record shown is never partial: it is the old one or an accepted one. */
    method MetadataSettled(reply: Option<ParsedSong>) returns (artPrompt: Option<string>)
      requires Valid()
      modifies this
      ensures Valid()
      ensures artPrompt.Some? <==> FetchSongInfo(reply).Success?
      ensures FetchSongInfo(reply).Success? ==>
        songInfo == Some(FetchSongInfo(reply).value) && appState == SelectingLyrics
        && selectedLyrics == reply.value.fullLyrics.value && error == old(error)
        && artPrompt == Some(ArtPrompt(reply.value.albumArtDescription))
      ensures FetchSongInfo(reply).Failure? ==>
        error == Some(FindFailedError) && appState == Idle && songInfo == old(songInfo)
      ensures songInfo == old(songInfo) || IsComplete(AsParsed(songInfo.value))
      ensures FetchSongInfo(reply).Failure? ==> selectedLyrics == old(selectedLyrics)
      ensures songInput == old(songInput) && generatedImageUrl == old(generatedImageUrl)
      ensures selectedFont == old(selectedFont) && selectedEffect == old(selectedEffect)
    {
      match FetchSongInfo(reply)
      case Success(info) =>
        var p := MetadataOk(info);
        artPrompt := Some(p);
      case Failure(_) =>
        FetchFailed();
        artPrompt := None;
    }

    /** The second await of handleFindSong settles with the service's outcome. */
    method ArtSettled(reply: Option<ImageResponse>)
      requires Valid()
      modifies this
      ensures Valid()
      ensures GenerateAlbumArt(reply).Success? ==>
        generatedImageUrl == Some(GenerateAlbumArt(reply).value) && appState == old(appState)
        && error == old(error)
      ensures GenerateAlbumArt(reply).Failure? ==>
        error == Some(FindFailedError) && appState == Idle
        && generatedImageUrl == old(generatedImageUrl)
      ensures songInfo == old(songInfo) && selectedLyrics == old(selectedLyrics)
      ensures songInput == old(songInput)
      ensures selectedFont == old(selectedFont) && selectedEffect == old(selectedEffect)
    {
      match GenerateAlbumArt(reply)
      case Success(url) => ArtOk(url);
      case Failure(_) => FetchFailed();
    }

    /** The lyrics textarea's change handler. */
    method EditLyrics(s: string)
      requires Valid() && appState == SelectingLyrics && songInfo.Some?
      modifies this`selectedLyrics
      ensures Valid() && selectedLyrics == s
    {
      selectedLyrics := s;
    }

    /** handleCreateCard: blank lyrics set the error and nothing else;
        otherwise only the state changes, to the card screen, and an earlier
        error stays. */
    method CreateCard()
      requires Valid() && CanCreateCard()
      modifies this`error, this`appState
      ensures Valid()
      ensures IsBlank(selectedLyrics) ==>
        error == Some(NoLyricsError) && appState == old(appState)
      ensures !IsBlank(selectedLyrics) ==>
        appState == CardReady && error == old(error)
    {
      TrimEmptyIffBlank(selectedLyrics);
      if Trim(selectedLyrics) == [] {
        error := Some(NoLyricsError);
        return;
      }
      appState := CardReady;
    }

    /** The font picker's change handler. */
    method SelectFont(f: string)
      requires Valid() && CanStyle() && IsFontFamily(f)
      modifies this`selectedFont
      ensures Valid() && selectedFont == f
    {
      selectedFont := f;
    }

    /** The effect picker's change handler. */
    method SelectEffect(e: string)
      requires Valid() && CanStyle() && IsEffectStyle(e)
      modifies this`selectedEffect
      ensures Valid() && selectedEffect == e
    {
      selectedEffect := e;
    }

    /** A click on Download (handleDownload, from the card screen): the
        continuations it schedules close over the record of this render,
        `captured`, whatever the state is when the image settles. Nothing in
        the state changes, and the captured record always names the file. */
    method DownloadClicked() returns (captured: Option<SongInfo>)
      requires Valid() && CanStyle()
      ensures captured == songInfo
      ensures DownloadFileName(captured) != FallbackFileName
    {
      CardReadyFileName();
      captured := songInfo;
    }

    /** The success continuation of handleDownload: the name given to the
        saved file, from the record captured at the click. Nothing in the
        state changes. */
    method DownloadSucceeded(captured: Option<SongInfo>) returns (fileName: string)
      ensures captured.None? ==> fileName == FallbackFileName
      ensures captured.Some? ==>
        fileName == ReplaceWsRuns(captured.value.artist) + "-"
                    + ReplaceWsRuns(captured.value.songTitle) + FileNameSuffix
    {
      fileName := DownloadFileName(captured);
    }

    /** The failure continuation of handleDownload: only the error changes. */
    method DownloadFailed()
      requires Valid()
      modifies this`error
      ensures Valid() && error == Some(DownloadError)
    {
      error := Some(DownloadError);
    }
  }

  /** Steps through the example, first half: from the query to the lyrics screen
      with the art in place. */
  method ImagineScenarioSearch() returns (app: App, info: SongInfo)
    ensures fresh(app) && app.Valid() && app.CanCreateCard() && app.songInfo == Some(info)
    ensures app.selectedLyrics == info.fullLyrics && !IsBlank(info.fullLyrics)
    ensures info.artist == "John Lennon" && info.songTitle == "Imagine"
  {
    app := new App();
    var input := "Imagine - John Lennon";
    app.EditSongInput(input);
    assert !IsWs(input[0]);
    var query := app.FindSongStart();
    assert query == Some(input) && app.appState == LoadingInfo;

    info := SongInfo("Imagine", "John Lennon", "Imagine there's no heaven...", Some("..."));
    var prompt := app.MetadataSettled(Some(AsParsed(info)));
    assert app.songInfo == Some(info) && app.appState == SelectingLyrics;
    assert app.selectedLyrics == info.fullLyrics;
    assert !IsWs(info.fullLyrics[0]);
    assert prompt == Some(ArtPrompt(info.albumArtDescription));
    assert !app.CanCreateCard();

    var png := InlineData("image/png", "iVBOR");
    SecondPartChosen(png);
    app.ArtSettled(Some(ImageResponse(Some([Candidate(Some(Content(Some([Part(None), Part(Some(png))]))))]))));
    assert app.generatedImageUrl == Some(DataUri(png));
  }

  /** Steps through the example, second half: an excerpt, the card, its download
      name, and back to the start. */
  method ImagineScenarioCard() {
    var app, info := ImagineScenarioSearch();
    var excerpt := "Imagine there's no heaven";
    app.EditLyrics(excerpt);
    assert !IsWs(excerpt[0]);
    app.CreateCard();
    assert app.appState == CardReady && app.selectedLyrics == excerpt;

    var captured := app.DownloadClicked();
    var name := app.DownloadSucceeded(captured);
    DownloadFileNameExample(info);
    assert name == "John_Lennon-Imagine-lyrics.png";

    app.Reset();
    assert app.IsInitial();
  }

  /** Nothing cancels a request, so the model lets an art response arrive
      after a reset: the image is stored and the screen stays idle. The UI
      never produces this order (the card screen needs the search's image,
      so its art call is over before Start Over is shown). */
  method LateArtAfterReset(url: string)
    requires url != ""
  {
    var app := new App();
    app.Reset();
    app.ArtOk(url);
    assert app.appState == Idle && app.generatedImageUrl == Some(url);
    assert app.songInfo == None && app.error == None;
  }

  /** A download started on the card screen can fail after Start Over: the
      download message is then shown on the initial idle screen. */
  method LateDownloadFailureAfterReset() {
    var app, info := ImagineScenarioSearch();
    app.CreateCard();
    assert app.appState == CardReady;
    var captured := app.DownloadClicked();
    app.Reset();
    app.DownloadFailed();
    assert app.appState == Idle && app.songInfo == None && app.generatedImageUrl == None;
    assert app.error == Some(DownloadError);
  }

  /** A download started on the card screen can succeed after Start Over:
      the file is still named from the record captured at the click, while
      the screen is back to its initial state. */
  method LateDownloadSuccessAfterReset() {
    var app, info := ImagineScenarioSearch();
    app.CreateCard();
    assert app.appState == CardReady;
    var captured := app.DownloadClicked();
    app.Reset();
    var name := app.DownloadSucceeded(captured);
    DownloadFileNameExample(info);
    assert name == "John_Lennon-Imagine-lyrics.png";
    assert app.IsInitial();
  }
}
