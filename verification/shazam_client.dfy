/** The response-to-song mapping of the recognition client (`ShazamClient`):
    `recognizeSong` turns the external recognizer's outcome into a song
    record or "no match", with `extractAlbum` and `extractSpotifyUri`. */
module ShazamClient {
  import opened Wrappers
  import opened JsString
  import opened ShazamTrack

  const UnknownTitle := "Unknown Title"
  const UnknownArtist := "Unknown Artist"
  const UnknownAlbum := "Unknown Album"

  /** A recognized song; `timestamp` is milliseconds since the epoch. */
  datatype SongInfo = SongInfo(
    title: string,
    artist: string,
    album: Option<string>,
    coverArtUrl: Option<string>,
    spotifyUri: Option<string>,
    timestamp: nat)

  /** What the external full-recognition call did: it returned a (possibly
      null) result, or it threw. */
  datatype FullRecognition = Returned(result: Option<Response>) | Threw

  /** The caption of the second metadata page of the first section when it is
      present and non-empty; the album placeholder otherwise. */
  function ExtractAlbum(t: Track): (r: string)
    ensures r != ""
    ensures AlbumPage(t).Some? && Truthy(AlbumPage(t).value.caption) ==>
      r == t.sections.value[0].metapages.value[1].caption.value
    ensures !(AlbumPage(t).Some? && Truthy(AlbumPage(t).value.caption)) ==> r == UnknownAlbum
  {
    match AlbumPage(t)
    case Some(page) => Or(page.caption, UnknownAlbum)
    case None => UnknownAlbum
  }

  /** The provider loop with its early `return`: the deep-link action of the
      first SPOTIFY provider that has one. */
  function ScanFirst(ps: seq<Provider>): (r: Option<Action>)
    ensures forall i | IsFirstOffering(ps, i) :: r == FirstDeepLink(ActionsOf(ps[i]))
    ensures r == None <==> forall i | 0 <= i < |ps| :: !Offers(ps[i])
  {
    if |ps| == 0 then None
    else if IsSpotify(ps[0]) && FirstDeepLink(ActionsOf(ps[0])).Some? then
      FirstDeepLink(ActionsOf(ps[0]))
    else
      assert forall i | IsFirstOffering(ps, i) :: IsFirstOffering(ps[1..], i - 1);
      ScanFirst(ps[1..])
  }

  /** The uri of the first deep-link action of the first SPOTIFY provider
      carrying one; `undefined` when no provider does. */
  function ExtractSpotifyUri(t: Track): (r: Option<string>)
    ensures forall i | IsFirstOffering(ProvidersOf(t), i) :: r == ProviderUri(ProvidersOf(t)[i])
    ensures (forall i | 0 <= i < |ProvidersOf(t)| :: !Offers(ProvidersOf(t)[i])) ==> r == None
  {
    UriOf(ScanFirst(ProvidersOf(t)))
  }

  /** `recognizeSong` after the external call: a song exactly when a result
      with a track came back, `null` for a missing result, a missing track or
      an exception. */
  function RecognizeSong(outcome: FullRecognition, now: nat): (r: Option<SongInfo>)
    ensures r.Some? <==>
      outcome.Returned? && outcome.result.Some? && outcome.result.value.track.Some?
    ensures outcome.Threw? ==> r == None
    ensures r.Some? ==> r.value.title != "" && r.value.artist != ""
    ensures r.Some? ==>
      var t := outcome.result.value.track.value;
      && (Truthy(t.title) ==> r.value.title == t.title.value)
      && (!Truthy(t.title) ==> r.value.title == UnknownTitle)
      && (Truthy(t.subtitle) ==> r.value.artist == t.subtitle.value)
      && (!Truthy(t.subtitle) ==> r.value.artist == UnknownArtist)
      && r.value.album == Some(ExtractAlbum(t))
      && r.value.coverArtUrl == CoverArt(t)
      && r.value.spotifyUri == ExtractSpotifyUri(t)
      && r.value.timestamp == now
  {
    match outcome
    case Threw => None
    case Returned(result) =>
      if result.Some? && result.value.track.Some? then
        var t := result.value.track.value;
        Some(SongInfo(
          title := Or(t.title, UnknownTitle),
          artist := Or(t.subtitle, UnknownArtist),
          album := Some(ExtractAlbum(t)),
          coverArtUrl := CoverArt(t),
          spotifyUri := ExtractSpotifyUri(t),
          timestamp := now))
      else None
  }
}
