/** The shape of a recognition-service track record (the `ShazamTrack` and
    `ShazamResponse` interfaces) and the queries both response mappers make
    of it: the album metadata page and the Spotify deep-link actions.

    Every optional member of the interface is an `Option`; a JSON array is a
    `seq` whose elements are present objects. */
module ShazamTrack {
  import opened Wrappers

  const SpotifyType := "SPOTIFY"
  const SpotifyDeepLink := "hub:spotify:searchdeeplink"

  datatype Action = Action(name: Option<string>, uri: Option<string>)
  datatype Provider = Provider(kind: Option<string>, actions: Option<seq<Action>>)
  datatype Hub = Hub(providers: Option<seq<Provider>>)
  datatype Metapage = Metapage(caption: Option<string>)
  datatype Section = Section(metapages: Option<seq<Metapage>>)
  datatype Images = Images(coverart: Option<string>, background: Option<string>)
  /** `localized` is a string record keyed by language tag. */
  datatype Genres = Genres(primary: Option<string>, localized: Option<map<string, string>>)

  datatype Track = Track(
    title: Option<string>,
    subtitle: Option<string>,
    genres: Option<Genres>,
    sections: Option<seq<Section>>,
    images: Option<Images>,
    hub: Option<Hub>)

  datatype Response = Response(track: Option<Track>)

  /** `sections[0].metapages[1]`, when every step of that path exists. */
  function AlbumPage(t: Track): (r: Option<Metapage>)
    ensures r.Some? <==>
      t.sections.Some? && |t.sections.value| > 0 &&
      t.sections.value[0].metapages.Some? && |t.sections.value[0].metapages.value| > 1
  {
    if t.sections.Some? && |t.sections.value| > 0 then
      var pages := t.sections.value[0].metapages;
      if pages.Some? && |pages.value| > 1 then Some(pages.value[1]) else None
    else None
  }

  /** The image field selected by `get` (`track.images?.coverart` and the like). */
  function CoverArt(t: Track): Option<string> {
    if t.images.Some? then t.images.value.coverart else None
  }

  function Background(t: Track): Option<string> {
    if t.images.Some? then t.images.value.background else None
  }

  /** `track.hub.providers`, iterated as empty when the hub or the list is absent. */
  function ProvidersOf(t: Track): seq<Provider> {
    if t.hub.Some? then t.hub.value.providers.GetOr([]) else []
  }

  /** `provider.actions || []`. */
  function ActionsOf(p: Provider): seq<Action> {
    p.actions.GetOr([])
  }

  predicate IsDeepLink(a: Action) {
    a.name == Some(SpotifyDeepLink)
  }

  predicate IsSpotify(p: Provider) {
    p.kind == Some(SpotifyType)
  }

  /** A SPOTIFY provider that carries at least one deep-link action. */
  predicate Offers(p: Provider) {
    IsSpotify(p) && exists k | 0 <= k < |ActionsOf(p)| :: IsDeepLink(ActionsOf(p)[k])
  }

  ghost predicate IsFirstDeepLink(acts: seq<Action>, k: int) {
    0 <= k < |acts| && IsDeepLink(acts[k]) &&
    forall j | 0 <= j < k :: !IsDeepLink(acts[j])
  }

  ghost predicate IsFirstOffering(ps: seq<Provider>, i: int) {
    0 <= i < |ps| && Offers(ps[i]) &&
    forall j | 0 <= j < i :: !Offers(ps[j])
  }

  ghost predicate IsLastOffering(ps: seq<Provider>, i: int) {
    0 <= i < |ps| && Offers(ps[i]) &&
    forall j | i < j < |ps| :: !Offers(ps[j])
  }

  /** The inner loop of both mappers: the first action named as the Spotify
      deep link, scanning in order. */
  function FirstDeepLink(acts: seq<Action>): (r: Option<Action>)
    ensures forall k | IsFirstDeepLink(acts, k) :: r == Some(acts[k])
    ensures r == None <==> forall k | 0 <= k < |acts| :: !IsDeepLink(acts[k])
  {
    if |acts| == 0 then None
    else if IsDeepLink(acts[0]) then Some(acts[0])
    else
      assert forall k | IsFirstDeepLink(acts, k) :: IsFirstDeepLink(acts[1..], k - 1);
      FirstDeepLink(acts[1..])
  }

  /** The `uri` of an action that was found, `undefined` otherwise. */
  function UriOf(a: Option<Action>): Option<string> {
    if a.Some? then a.value.uri else None
  }

  /** The uri a provider contributes: that of its first deep-link action. */
  function ProviderUri(p: Provider): Option<string> {
    UriOf(FirstDeepLink(ActionsOf(p)))
  }
}
