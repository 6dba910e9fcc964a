/**
 * The page script (`frontend/main.js`): the submit handler, which validates the form, resets
 * the page, waits for the palette and the two catalog lookups, and then renders, and the
 * regenerate button. The DOM becomes a page state: the two form fields, the song last
 * submitted, the loading indicator, the two background colours, the children of the palette
 * display, the alerts shown, and the requests sent.
 */
module Moodboard {
  import opened Wrappers
  import opened Text

  /** The nodes the handler puts into the palette display. */
  datatype Element =
    | Paragraph(text: string, cls: string)
    | Image(src: string, alt: string, cls: string)
    | AudioPlayer(src: string, cls: string)          // an `<audio controls>`
    | Container(cls: string, children: seq<Element>)

  const PromptMessage: string := "Please enter both title and artist."
  const DefaultColorA: string := "#111"
  const DefaultColorB: string := "#222"
  const NoPaletteMessage: Element := Paragraph("\U{274C} Could not generate a palette.", "")
  const ErrorMessage: Element := Paragraph("Something went wrong. Try again.", "")
  const NoPreviewNote: Element := Paragraph("No preview available.", "")

  /**
   * The track fields read from a lookup: what `enrichSong` resolves to (the `/enrich` reply,
   * or `{}` with every field missing) and what `searchSpotifyTrack` resolves to when it does
   * not give `null`.
   */
  datatype TrackData = TrackData(title: Option<string>, artist: Option<string>,
                                 previewUrl: Option<string>, artwork: Option<string>)

  /** `data?.title`, `data?.artist`, `data?.previewUrl`, `data?.artwork`. */
  function TitleOf(data: Option<TrackData>): Option<string> {
    if data.Some? then data.value.title else None
  }

  function ArtistOf(data: Option<TrackData>): Option<string> {
    if data.Some? then data.value.artist else None
  }

  function PreviewOf(data: Option<TrackData>): Option<string> {
    if data.Some? then data.value.previewUrl else None
  }

  function ArtworkOf(data: Option<TrackData>): Option<string> {
    if data.Some? then data.value.artwork else None
  }

  /**
   * How the three awaited calls came out: an exception escaped into the handler's `catch`,
   * or the palette with its mood text, the enrichment (`None` for a falsy value) and the
   * Spotify match (`None` for `null`).
   */
  datatype Responses =
    | Threw
    | Answered(palette: seq<string>, moodDescription: string,
               itunes: Option<TrackData>, spotify: Option<TrackData>)

  /** The calls the handler makes to the server. */
  datatype Request =
    | PaletteRequest(title: string, artist: string)
    | EnrichRequest(title: string, artist: string)
    | SearchRequest(query: string)

  /** `getMoodPalette(title, artist)`, then `enrichSong({title, artist})` and `searchSpotifyTrack(`${title} ${artist}`)`. */
  function SongRequests(title: string, artist: string): (r: seq<Request>)
    ensures |r| == 3 && r[0] == PaletteRequest(title, artist) && r[1] == EnrichRequest(title, artist)
    ensures r[2].SearchRequest? && |r[2].query| == |title| + 1 + |artist|
    ensures r[2].query[..|title|] == title && r[2].query[|title|] == ' ' && r[2].query[|title| + 1..] == artist
  {
    [PaletteRequest(title, artist), EnrichRequest(title, artist), SearchRequest(title + " " + artist)]
  }

  /** `palette[1] || palette[0]`. */
  function SecondColor(palette: seq<string>): (c: string)
    requires |palette| > 0
    ensures c == palette[0] || (|palette| > 1 && c == palette[1])
    ensures |palette| > 1 && palette[1] != "" ==> c == palette[1]
    ensures |palette| == 1 || palette[1] == "" ==> c == palette[0]
  {
    if |palette| > 1 && palette[1] != "" then palette[1] else palette[0]
  }

  /** The song facts shown in the info block. */
  datatype SongInfo = SongInfo(title: string, artist: string, previewUrl: Option<string>, artwork: string)

  /**
   * The merge of the two lookups: title and artist from Spotify, else from the enrichment,
   * else as typed; the preview only from the enrichment; the artwork from Spotify, else from
   * the enrichment, else `''`.
   */
  function MergeSongInfo(title: string, artist: string, itunes: Option<TrackData>,
                         spotify: Option<TrackData>): (m: SongInfo)
    ensures title != "" ==> m.title != ""
    ensures artist != "" ==> m.artist != ""
    ensures m.title == if Truthy(TitleOf(spotify)) then TitleOf(spotify).value
                       else if Truthy(TitleOf(itunes)) then TitleOf(itunes).value
                       else title
    ensures m.artist == if Truthy(ArtistOf(spotify)) then ArtistOf(spotify).value
                        else if Truthy(ArtistOf(itunes)) then ArtistOf(itunes).value
                        else artist
    ensures m.previewUrl.Some? <==> Truthy(PreviewOf(itunes))
    ensures m.previewUrl.Some? ==> m.previewUrl == PreviewOf(itunes) && m.previewUrl.value != ""
    ensures m.artwork == if Truthy(ArtworkOf(spotify)) then ArtworkOf(spotify).value
                         else if Truthy(ArtworkOf(itunes)) then ArtworkOf(itunes).value
                         else ""
  {
    SongInfo(
      Or(TitleOf(spotify), Or(TitleOf(itunes), title)),
      Or(ArtistOf(spotify), Or(ArtistOf(itunes), artist)),
      if Truthy(PreviewOf(itunes)) then PreviewOf(itunes) else None,
      Or(ArtworkOf(spotify), Or(ArtworkOf(itunes), "")))
  }

  /**
   * The `song-info` block: the artwork image, then the "title – artist" line, then either the
   * audio player (exactly when there is a preview) or the "No preview available." note.
   */
  function SongInfoBlock(m: SongInfo): (e: Element)
    ensures e.Container? && e.cls == "song-info" && |e.children| == 3
    ensures e.children[0] == Image(m.artwork, m.title + " artwork", "album-art")
    ensures e.children[1] == Paragraph(m.title + " \U{2013} " + m.artist, "song-title")
    ensures e.children[2].AudioPlayer? <==> m.previewUrl.Some?
    ensures m.previewUrl.Some? ==> e.children[2] == AudioPlayer(m.previewUrl.value, "preview-player")
    ensures m.previewUrl.None? <==> e.children[2] == NoPreviewNote
  {
    var player := if m.previewUrl.Some? then AudioPlayer(m.previewUrl.value, "preview-player") else NoPreviewNote;
    Container("song-info", [Image(m.artwork, m.title + " artwork", "album-art"),
                            Paragraph(m.title + " \U{2013} " + m.artist, "song-title"),
                            player])
  }

  /** The mood paragraph, present only for a non-empty description. */
  function MoodPart(mood: string): seq<Element> {
    if mood != "" then [Paragraph(mood, "mood-text")] else []
  }

  /** The info block, present when either lookup gave a truthy value. */
  function InfoPart(title: string, artist: string, itunes: Option<TrackData>,
                    spotify: Option<TrackData>): seq<Element> {
    if itunes.Some? || spotify.Some? then [SongInfoBlock(MergeSongInfo(title, artist, itunes, spotify))] else []
  }

  /** The page as the handlers see it. */
  datatype PageState = PageState(
    titleField: string, artistField: string,   // the form's `title` and `artist` inputs
    currentTitle: string, currentArtist: string,
    loadingVisible: bool,
    colorA: string, colorB: string,            // `--colorA` and `--colorB` on the body; "" while unset
    display: seq<Element>,                     // the children of `paletteDisplay`
    alerts: seq<string>,
    requests: seq<Request>)

  /** The page once `DOMContentLoaded` has run: both fields and the current song empty. */
  const LoadedPage := PageState("", "", "", "", false, "", "", [], [], [])

  /** The trimmed fields, when neither is empty. */
  function ValidatedSong(s: PageState): (song: Option<(string, string)>)
    ensures song.Some? <==> Trim(s.titleField) != "" && Trim(s.artistField) != ""
    ensures song.Some? ==> song.value == (Trim(s.titleField), Trim(s.artistField))
  {
    var title := Trim(s.titleField);
    var artist := Trim(s.artistField);
    if title == "" || artist == "" then None else Some((title, artist))
  }

  /** The page while the requests are outstanding. */
  function Started(s: PageState, title: string, artist: string): PageState {
    s.(currentTitle := title, currentArtist := artist, loadingVisible := true, display := [],
       colorA := DefaultColorA, colorB := DefaultColorB)
  }

  /** The page after a non-empty palette: its first two colours, the mood paragraph and the info block. */
  function PaletteShown(s: PageState, title: string, artist: string, palette: seq<string>, mood: string,
                        itunes: Option<TrackData>, spotify: Option<TrackData>): PageState
    requires |palette| > 0
  {
    s.(colorA := palette[0], colorB := SecondColor(palette),
       display := s.display + MoodPart(mood) + InfoPart(title, artist, itunes, spotify))
  }

  /** The page once the `try` block or its `catch` has rendered `responses`. */
  function Shown(s: PageState, title: string, artist: string, responses: Responses): PageState {
    match responses
    case Threw => s.(display := [ErrorMessage])
    case Answered(palette, mood, itunes, spotify) =>
      if |palette| == 0 then s.(display := [NoPaletteMessage])
      else PaletteShown(s, title, artist, palette, mood, itunes, spotify)
  }

  /** The page once the awaited calls came out as `responses`, after the `finally`. */
  function Rendered(s: PageState, title: string, artist: string, responses: Responses): PageState {
    var sent := s.(requests := s.requests + SongRequests(title, artist));
    Shown(sent, title, artist, responses).(loadingVisible := false)
  }

  /**
   * One submission of the form. Invalid fields only raise the prompt. Otherwise the trimmed
   * song becomes the current one, the three requests go out, the loading indicator ends
   * hidden, and the display and colours depend on the responses: the generic error message
   * on an exception, the single "could not generate" message and the reset colours on an
   * empty palette, else the first two colours, the mood paragraph and the info block.
   */
  function SubmitStep(s: PageState, responses: Responses): (t: PageState)
    ensures Trim(s.titleField) == "" || Trim(s.artistField) == "" ==>
      t == s.(alerts := s.alerts + [PromptMessage])
    ensures Trim(s.titleField) != "" && Trim(s.artistField) != "" ==>
      t.currentTitle == Trim(s.titleField) && t.currentArtist == Trim(s.artistField)
      && !t.loadingVisible && t.alerts == s.alerts
      && t.requests == s.requests + SongRequests(t.currentTitle, t.currentArtist)
      && t.titleField == s.titleField && t.artistField == s.artistField
    ensures ValidatedSong(s).Some? && (responses.Threw? || responses.palette == []) ==>
      t.colorA == DefaultColorA && t.colorB == DefaultColorB
      && t.display == [if responses.Threw? then ErrorMessage else NoPaletteMessage]
    ensures ValidatedSong(s).Some? && responses.Answered? && responses.palette != [] ==>
      t.colorA == responses.palette[0] && t.colorB == SecondColor(responses.palette)
      && t.display == MoodPart(responses.moodDescription)
                      + InfoPart(t.currentTitle, t.currentArtist, responses.itunes, responses.spotify)
  {
    match ValidatedSong(s)
    case None => s.(alerts := s.alerts + [PromptMessage])
    case Some((title, artist)) => Rendered(Started(s, title, artist), title, artist, responses)
  }

  /** A click on the regenerate button: a submission, only once a song has been submitted. */
  function RegenerateStep(s: PageState, responses: Responses): (t: PageState)
    ensures s.currentTitle == "" || s.currentArtist == "" ==> t == s
    ensures s.currentTitle != "" && s.currentArtist != "" ==> t == SubmitStep(s, responses)
  {
    if s.currentTitle != "" && s.currentArtist != "" then SubmitStep(s, responses) else s
  }

  /**
   * The display after a successful palette: at most two nodes, the mood paragraph first when
   * there is a description, and last the info block with its three children in order.
   */
  lemma DisplayOrder(s: PageState, responses: Responses)
    requires ValidatedSong(s).Some? && responses.Answered? && responses.palette != []
    requires responses.itunes.Some? || responses.spotify.Some?
    ensures var t := SubmitStep(s, responses);
      var block := SongInfoBlock(MergeSongInfo(t.currentTitle, t.currentArtist, responses.itunes, responses.spotify));
      (responses.moodDescription != "" ==>
         t.display == [Paragraph(responses.moodDescription, "mood-text"), block])
      && (responses.moodDescription == "" ==> t.display == [block])
      && block.children[0].Image? && block.children[1].Paragraph?
      && (block.children[2].AudioPlayer? || block.children[2] == NoPreviewNote)
  {
  }

  /** `enrichSong` resolves to an object even on failure, so the info block is always shown. */
  lemma EnrichmentAlwaysShowsInfo(title: string, artist: string, itunes: TrackData,
                                  spotify: Option<TrackData>)
    ensures InfoPart(title, artist, Some(itunes), spotify) != []
  {
  }

  /**
   * Regenerating right after an accepted submission sends the same three requests again,
   * since the form fields still hold what was submitted.
   */
  lemma RegenerateRepeatsSong(s: PageState, first: Responses, again: Responses)
    requires ValidatedSong(s).Some?
    ensures var t := SubmitStep(s, first);
      RegenerateStep(t, again).requests == t.requests + SongRequests(t.currentTitle, t.currentArtist)
  {
    var t := SubmitStep(s, first);
    assert Trim(t.titleField) == t.currentTitle != "";
  }

  /**
   * The regenerate button re-reads the form: once a song has been submitted, edited fields
   * are what is submitted next, and blank ones only raise the prompt.
   */
  lemma RegenerateReadsFields(s: PageState, title: string, artist: string, responses: Responses)
    requires s.currentTitle != "" && s.currentArtist != ""
    ensures var edited := s.(titleField := title, artistField := artist);
      RegenerateStep(edited, responses) == SubmitStep(edited, responses)
  {
  }

  class MoodboardPage {
    var titleField: string
    var artistField: string
    var currentTitle: string
    var currentArtist: string
    var loadingVisible: bool
    var colorA: string
    var colorB: string
    var display: seq<Element>
    var alerts: seq<string>
    var requests: seq<Request>

    function State(): PageState
      reads this
    {
      PageState(titleField, artistField, currentTitle, currentArtist, loadingVisible,
                colorA, colorB, display, alerts, requests)
    }

    /** The `DOMContentLoaded` listener: both inputs cleared, no current song. */
    constructor ()
      ensures State() == LoadedPage
    {
      titleField, artistField := "", "";
      currentTitle, currentArtist := "", "";
      loadingVisible := false;
      colorA, colorB := "", "";
      display, alerts, requests := [], [], [];
    }

    /** The user types into the two inputs. */
    method EditFields(title: string, artist: string)
      modifies this
      ensures State() == old(State()).(titleField := title, artistField := artist)
    {
      titleField, artistField := title, artist;
    }

    /**
     * The submit handler up to its first `await`: trim and check both fields (alert and
     * stop when one is empty), record the song, show the loading indicator, empty the
     * display and reset both colours.
     */
    method BeginSubmit() returns (song: Option<(string, string)>)
      modifies this
      ensures song == ValidatedSong(old(State()))
      ensures song.None? ==> State() == old(State()).(alerts := old(alerts) + [PromptMessage])
      ensures song.Some? ==> State() == Started(old(State()), song.value.0, song.value.1)
    {
      var title := Trim(titleField);
      var artist := Trim(artistField);
      ghost var before := State();
      if title == "" || artist == "" {
        alerts := alerts + [PromptMessage];
        assert State() == before.(alerts := before.alerts + [PromptMessage]);
        return None;
      }
      currentTitle, currentArtist := title, artist;
      loadingVisible := true;
      display := [];
      colorA, colorB := DefaultColorA, DefaultColorB;
      song := Some((title, artist));
      assert State() == Started(before, title, artist);
    }

    /** The rest of the handler: send the requests, render what came back, hide the loading indicator. */
    method FinishSubmit(title: string, artist: string, responses: Responses)
      modifies this
      ensures State() == Rendered(old(State()), title, artist, responses)
    {
      requests := requests + [PaletteRequest(title, artist)];
      requests := requests + [EnrichRequest(title, artist), SearchRequest(title + " " + artist)];
      ShowResponses(title, artist, responses);
      loadingVisible := false;
    }

    /** The `try` block after its three `await`s, or the `catch`. */
    method ShowResponses(title: string, artist: string, responses: Responses)
      modifies this
      ensures State() == Shown(old(State()), title, artist, responses)
    {
      match responses {
        case Threw =>
          display := [ErrorMessage];
        case Answered(palette, mood, itunes, spotify) =>
          if |palette| == 0 {
            display := [NoPaletteMessage];
          } else {
            ShowPalette(title, artist, palette, mood, itunes, spotify);
          }
      }
    }

    /** A non-empty palette: set both colours, then append the mood paragraph and the info block. */
    method ShowPalette(title: string, artist: string, palette: seq<string>, mood: string,
                       itunes: Option<TrackData>, spotify: Option<TrackData>)
      requires |palette| > 0
      modifies this
      ensures State() == PaletteShown(old(State()), title, artist, palette, mood, itunes, spotify)
    {
      ghost var before := display;
      colorA := palette[0];
      colorB := SecondColor(palette);
      if mood != "" {
        display := display + [Paragraph(mood, "mood-text")];
      }
      if itunes.Some? || spotify.Some? {
        var block := BuildSongInfo(MergeSongInfo(title, artist, itunes, spotify));
        display := display + [block];
      }
      assert display == before + MoodPart(mood) + InfoPart(title, artist, itunes, spotify);
    }

    /** The `song-info` container, built child by child as the handler does. */
    static method BuildSongInfo(info: SongInfo) returns (block: Element)
      ensures block == SongInfoBlock(info)
    {
      var children := [Image(info.artwork, info.title + " artwork", "album-art")];
      children := children + [Paragraph(info.title + " \U{2013} " + info.artist, "song-title")];
      if info.previewUrl.Some? {
        children := children + [AudioPlayer(info.previewUrl.value, "preview-player")];
      } else {
        children := children + [NoPreviewNote];
      }
      block := Container("song-info", children);
    }

    /** The submit handler. */
    method Submit(responses: Responses)
      modifies this
      ensures State() == SubmitStep(old(State()), responses)
    {
      var song := BeginSubmit();
      if song.Some? {
        FinishSubmit(song.value.0, song.value.1, responses);
      }
    }

    /** The regenerate button's click listener. */
    method Regenerate(responses: Responses)
      modifies this
      ensures State() == RegenerateStep(old(State()), responses)
    {
      if currentTitle != "" && currentArtist != "" {
        Submit(responses);
      }
    }
  }
}
