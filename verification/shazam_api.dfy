/** `ShazamAPI.parseShazamResponse`: the alternative mapping of a service
    response to a song record, with genre and background image. Its Spotify
    loop `break`s only the inner loop, so it keeps scanning providers. */
module ShazamApi {
  import opened Wrappers
  import opened JsString
  import opened ShazamTrack
  import ShazamClient

  const UnknownGenre := "Unknown Genre"
  const English := "en"

  /** The song record of this mapper; `timestamp` is milliseconds since the epoch. */
  datatype ApiSongInfo = ApiSongInfo(
    title: string,
    artist: string,
    genre: Option<string>,
    album: Option<string>,
    coverArtUrl: Option<string>,
    backgroundUrl: Option<string>,
    spotifyUri: Option<string>,
    timestamp: nat)

  /** The English localized genre when non-empty, else the primary genre when
      non-empty, else the genre placeholder. */
  function Genre(t: Track): (r: string)
    ensures r != ""
    ensures r == UnknownGenre || GenreOfferedBy(t, r)
    ensures t.genres.None? ==> r == UnknownGenre
    ensures t.genres.Some? ==>
      var g := t.genres.value;
      var en := g.localized.Some? && English in g.localized.value && g.localized.value[English] != "";
      && (en ==> r == g.localized.value[English])
      && (!en && Truthy(g.primary) ==> r == g.primary.value)
      && (!en && !Truthy(g.primary) ==> r == UnknownGenre)
  {
    if t.genres.Some? then
      var g := t.genres.value;
      if g.localized.Some? && English in g.localized.value && g.localized.value[English] != "" then
        g.localized.value[English]
      else if Truthy(g.primary) then g.primary.value
      else UnknownGenre
    else UnknownGenre
  }

  /** `name` is one of the genres the track itself names. */
  ghost predicate GenreOfferedBy(t: Track, name: string) {
    t.genres.Some? &&
    (t.genres.value.primary == Some(name) ||
     (t.genres.value.localized.Some? && name in t.genres.value.localized.value.Values))
  }

  /** The album caption, defaulting exactly as the client's extraction does. */
  function Album(t: Track): (r: string)
    ensures r == ShazamClient.ExtractAlbum(t)
  {
    if AlbumPage(t).Some? then Or(AlbumPage(t).value.caption, ShazamClient.UnknownAlbum) else ShazamClient.UnknownAlbum
  }

  /** The provider loop with `spotifyUri = action.uri; break;`: every SPOTIFY
      provider that has a deep-link action overwrites `uri`, so the last such
      provider decides, and `uri` survives when none does. */
  function ScanLast(ps: seq<Provider>, uri: Option<string>): (r: Option<string>)
    ensures forall i | IsLastOffering(ps, i) :: r == ProviderUri(ps[i])
    ensures (forall i | 0 <= i < |ps| :: !Offers(ps[i])) ==> r == uri
  {
    if |ps| == 0 then uri
    else
      var found := if IsSpotify(ps[0]) then FirstDeepLink(ActionsOf(ps[0])) else None;
      assert forall i | IsLastOffering(ps, i) && 0 < i :: IsLastOffering(ps[1..], i - 1);
      ScanLast(ps[1..], if found.Some? then found.value.uri else uri)
  }

  /** The Spotify uri as this mapper computes it. */
  function ParseSpotifyUri(t: Track): (r: Option<string>)
    ensures forall i | IsLastOffering(ProvidersOf(t), i) :: r == ProviderUri(ProvidersOf(t)[i])
    ensures (forall i | 0 <= i < |ProvidersOf(t)| :: !Offers(ProvidersOf(t)[i])) ==> r == None
  {
    ScanLast(ProvidersOf(t), None)
  }

  /** `null` without a track; otherwise every field mapped with its default. */
  function ParseShazamResponse(response: Response, now: nat): (r: Option<ApiSongInfo>)
    ensures r.None? <==> response.track.None?
    ensures r.Some? ==>
      var t := response.track.value;
      && (Truthy(t.title) ==> r.value.title == t.title.value)
      && (!Truthy(t.title) ==> r.value.title == ShazamClient.UnknownTitle)
      && (Truthy(t.subtitle) ==> r.value.artist == t.subtitle.value)
      && (!Truthy(t.subtitle) ==> r.value.artist == ShazamClient.UnknownArtist)
      && r.value.genre == Some(Genre(t))
      && r.value.album == Some(ShazamClient.ExtractAlbum(t))
      && (t.images.Some? ==> r.value.coverArtUrl == t.images.value.coverart)
      && (t.images.Some? ==> r.value.backgroundUrl == t.images.value.background)
      && (t.images.None? ==> r.value.coverArtUrl == None && r.value.backgroundUrl == None)
      && r.value.spotifyUri == ParseSpotifyUri(t)
      && r.value.timestamp == now
  {
    match response.track
    case None => None
    case Some(t) =>
      Some(ApiSongInfo(
        title := Or(t.title, ShazamClient.UnknownTitle),
        artist := Or(t.subtitle, ShazamClient.UnknownArtist),
        genre := Some(Genre(t)),
        album := Some(Album(t)),
        coverArtUrl := CoverArt(t),
        backgroundUrl := Background(t),
        spotifyUri := ParseSpotifyUri(t),
        timestamp := now))
  }

  /** When exactly one SPOTIFY provider carries a deep link, both mappers
      agree on the Spotify uri. */
  lemma {:induction false} SpotifyUriAgreesOnSingleOffering(t: Track, i: int)
    requires 0 <= i < |ProvidersOf(t)| && Offers(ProvidersOf(t)[i])
    requires forall j | 0 <= j < |ProvidersOf(t)| && j != i :: !Offers(ProvidersOf(t)[j])
    ensures ParseSpotifyUri(t) == ShazamClient.ExtractSpotifyUri(t)
  {
  }

  /** On every response the two mappers agree on whether there is a song and
      on its title, artist, album, cover art and time: the Spotify uri is the
      only field they can disagree on, as `SpotifyUriFirstVersusLast` shows. */
  lemma MappersAgreeExceptSpotify(response: Response, now: nat)
    ensures ShazamClient.RecognizeSong(ShazamClient.Returned(Some(response)), now).Some? <==>
      ParseShazamResponse(response, now).Some?
    ensures response.track.Some? ==>
      var c := ShazamClient.RecognizeSong(ShazamClient.Returned(Some(response)), now).value;
      var a := ParseShazamResponse(response, now).value;
      && c.title == a.title
      && c.artist == a.artist
      && c.album == a.album
      && c.coverArtUrl == a.coverArtUrl
      && c.timestamp == a.timestamp
  {
  }

  /** A track whose first SPOTIFY provider links to `a` and a later one to `b`. */
  function TwoSpotifyProviders(a: string, b: string): Track {
    var link := (u: string) => Provider(Some(SpotifyType), Some([Action(Some(SpotifyDeepLink), Some(u))]));
    Track(Some("Song"), Some("Band"), None, None, None, Some(Hub(Some([link(a), link(b)]))))
  }

  /** The two mappers disagree when two SPOTIFY providers carry deep links:
      the client keeps the first uri, this mapper the last. */
  lemma {:induction false} SpotifyUriFirstVersusLast(a: string, b: string)
    ensures ShazamClient.ExtractSpotifyUri(TwoSpotifyProviders(a, b)) == Some(a)
    ensures ParseSpotifyUri(TwoSpotifyProviders(a, b)) == Some(b)
  {
    var ps := ProvidersOf(TwoSpotifyProviders(a, b));
    assert IsDeepLink(ActionsOf(ps[0])[0]) && IsDeepLink(ActionsOf(ps[1])[0]);
    assert IsFirstOffering(ps, 0);
    assert IsLastOffering(ps, 1);
    assert IsFirstDeepLink(ActionsOf(ps[0]), 0);
    assert IsFirstDeepLink(ActionsOf(ps[1]), 0);
  }
}
