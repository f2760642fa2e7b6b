/**
 * Normalisation of the upstream "currently playing" body into the stable
 * eight-field snapshot returned by `GET /api/now-playing`.
 *
 * The upstream JSON is modelled as nested records whose every field is
 * optional: `None` stands for both a missing key and a JSON `null`, the two
 * values that JavaScript's optional chaining `?.` and `??` treat alike.
 */
module NowPlaying {
  import opened Wrappers

  // ---------------------------------------------------------------------------
  // The upstream body
  // ---------------------------------------------------------------------------

  datatype ExternalUrls = ExternalUrls(spotify: Option<string>)

  datatype Image = Image(url: Option<string>)

  datatype ArtistInfo = ArtistInfo(name: Option<string>, externalUrls: Option<ExternalUrls>)

  /** An array element is `None` when it is JSON `null`. */
  datatype Album = Album(images: Option<seq<Option<Image>>>, artists: Option<seq<Option<ArtistInfo>>>)

  datatype Item = Item(
    name: Option<string>,
    artists: Option<seq<Option<ArtistInfo>>>,
    durationMs: Option<int>,
    externalUrls: Option<ExternalUrls>,
    album: Option<Album>)

  datatype Song = Song(isPlaying: Option<bool>, progressMs: Option<int>, item: Option<Item>)

  /**
   * The parsed body. Only `null` makes `song.item` throw; any other value that
   * is not an object reads every key as `undefined`, as `Object(Song(None, None, None))` does.
   */
  datatype Body = NullBody | Object(song: Song)

  // ---------------------------------------------------------------------------
  // The snapshot
  // ---------------------------------------------------------------------------

  datatype Snapshot = Snapshot(
    albumImageUrl: Option<string>,
    artist: string,
    isPlaying: bool,
    songUrl: Option<string>,
    title: Option<string>,
    timePlayed: int,
    timeTotal: int,
    artistUrl: Option<string>)

  /** Every field at its default: what an upstream body without any of the keys gives. */
  const DefaultSnapshot := Snapshot(None, "", false, None, None, 0, 0, None)

  /** The separator `join(', ')` puts between artist names. */
  const ArtistSeparator := ", "

  // ---------------------------------------------------------------------------
  // `Array.prototype.join`
  // ---------------------------------------------------------------------------

  /** `parts.join(sep)`: the parts in order with `sep` between neighbours. */
  function Join(parts: seq<string>, sep: string): string
  {
    if parts == [] then ""
    else if |parts| == 1 then parts[0]
    else parts[0] + sep + Join(parts[1..], sep)
  }

  /** Joining two non-empty lists puts one separator between their joins. */
  lemma {:induction false} JoinConcat(xs: seq<string>, ys: seq<string>, sep: string)
    requires xs != [] && ys != []
    ensures Join(xs + ys, sep) == Join(xs, sep) + sep + Join(ys, sep)
  {
    if |xs| == 1 {
      assert (xs + ys)[1..] == ys;
    } else {
      assert (xs + ys)[1..] == xs[1..] + ys;
      JoinConcat(xs[1..], ys, sep);
    }
  }

  /** Appending a name adds the separator and the name at the end: names stay in order. */
  lemma JoinAppend(xs: seq<string>, y: string, sep: string)
    ensures Join(xs + [y], sep) == if xs == [] then y else Join(xs, sep) + sep + y
  {
    if xs == [] {
      assert xs + [y] == [y];
    } else {
      JoinConcat(xs, [y], sep);
    }
  }

  // ---------------------------------------------------------------------------
  // The eight fields
  // ---------------------------------------------------------------------------

  /** `xs?.[0]`: the first element, or nothing when the array is absent or empty. */
  function FirstOf<T>(xs: Option<seq<Option<T>>>): (r: Option<T>)
    ensures r.Some? <==> xs.Some? && |xs.value| > 0 && xs.value[0].Some?
    ensures r.Some? ==> r == xs.value[0]
  {
    match xs
    case None => None
    case Some(s) => if s == [] then None else s[0]
  }

  /** `song.item?.album?.images?.[0]?.url ?? null` */
  function AlbumImageUrl(song: Song): (r: Option<string>)
    ensures r.Some? <==>
      song.item.Some? && song.item.value.album.Some? &&
      FirstOf(song.item.value.album.value.images).Some? &&
      FirstOf(song.item.value.album.value.images).value.url.Some?
    ensures r.Some? ==> r == FirstOf(song.item.value.album.value.images).value.url
  {
    match song.item
    case None => None
    case Some(item) =>
      match item.album
      case None => None
      case Some(album) =>
        match FirstOf(album.images)
        case None => None
        case Some(image) => image.url
  }

  /** `song.item?.external_urls?.spotify ?? null` */
  function SongUrl(song: Song): (r: Option<string>)
    ensures r.Some? <==>
      song.item.Some? && song.item.value.externalUrls.Some? &&
      song.item.value.externalUrls.value.spotify.Some?
    ensures r.Some? ==> r == song.item.value.externalUrls.value.spotify
  {
    match song.item
    case None => None
    case Some(item) =>
      match item.externalUrls
      case None => None
      case Some(urls) => urls.spotify
  }

  /** `song.item?.name ?? null` */
  function Title(song: Song): (r: Option<string>)
    ensures r.Some? <==> song.item.Some? && song.item.value.name.Some?
    ensures r.Some? ==> r == song.item.value.name
  {
    match song.item
    case None => None
    case Some(item) => item.name
  }

  /** `song.item?.duration_ms ?? 0`: a present `0` is kept, an absent value becomes `0`. */
  function TimeTotal(song: Song): (r: int)
    ensures song.item.Some? && song.item.value.durationMs.Some? ==> r == song.item.value.durationMs.value
    ensures song.item.None? || song.item.value.durationMs.None? ==> r == 0
  {
    match song.item
    case None => 0
    case Some(item) => item.durationMs.GetOr(0)
  }

  /** `song.item?.album?.artists?.[0]?.external_urls?.spotify ?? null` */
  function ArtistUrl(song: Song): (r: Option<string>)
    ensures r.Some? <==>
      song.item.Some? && song.item.value.album.Some? &&
      FirstOf(song.item.value.album.value.artists).Some? &&
      FirstOf(song.item.value.album.value.artists).value.externalUrls.Some? &&
      FirstOf(song.item.value.album.value.artists).value.externalUrls.value.spotify.Some?
    ensures r.Some? ==> r == FirstOf(song.item.value.album.value.artists).value.externalUrls.value.spotify
  {
    match song.item
    case None => None
    case Some(item) =>
      match item.album
      case None => None
      case Some(album) =>
        match FirstOf(album.artists)
        case None => None
        case Some(artist) =>
          match artist.externalUrls
          case None => None
          case Some(urls) => urls.spotify
  }

  /**
   * `artists.map(a => a.name)`: `None` when an element is `null`, where `a.name`
   * throws; otherwise the names in order, a missing name read as `""` (which
   * is how `join` prints `undefined` and `null`).
   */
  function Names(artists: seq<Option<ArtistInfo>>): (r: Option<seq<string>>)
    ensures r.None? <==> exists i :: 0 <= i < |artists| && artists[i].None?
    ensures r.Some? ==> (|r.value| == |artists| &&
      forall i :: 0 <= i < |artists| ==> r.value[i] == artists[i].value.name.GetOr(""))
  {
    if artists == [] then Some([])
    else
      match artists[0]
      case None => None
      case Some(a) =>
        match Names(artists[1..])
        case None =>
          assert exists i :: 0 <= i < |artists[1..]| && artists[1..][i].None?;
          None
        case Some(rest) =>
          assert forall i :: 1 <= i < |artists| ==> artists[i] == artists[1..][i - 1];
          Some([a.name.GetOr("")] + rest)
  }

  /** The artist list `song.item?.artists ?? []`. */
  function ArtistList(song: Song): seq<Option<ArtistInfo>>
  {
    match song.item
    case None => []
    case Some(item) => item.artists.GetOr([])
  }

  /** `artists.map(a => a.name).join(', ')`; `None` when it throws. */
  function ArtistLine(artists: seq<Option<ArtistInfo>>): Option<string>
  {
    match Names(artists)
    case None => None
    case Some(names) => Some(Join(names, ArtistSeparator))
  }

  /**
   * The object literal handed to `res.json`. `None` when building it throws:
   * the body is `null`, or the artist list holds a `null` element.
   */
  function Normalize(body: Body): (r: Option<Snapshot>)
    ensures r.None? <==>
      body.NullBody? || exists i :: 0 <= i < |ArtistList(body.song)| && ArtistList(body.song)[i].None?
    ensures r.Some? ==>
      var song := body.song;
      && r.value.albumImageUrl == AlbumImageUrl(song)
      && r.value.isPlaying == song.isPlaying.GetOr(false)
      && r.value.songUrl == SongUrl(song)
      && r.value.title == Title(song)
      && r.value.timePlayed == song.progressMs.GetOr(0)
      && r.value.timeTotal == TimeTotal(song)
      && r.value.artistUrl == ArtistUrl(song)
      && Some(r.value.artist) == ArtistLine(ArtistList(song))
  {
    match body
    case NullBody => None
    case Object(song) =>
      match ArtistLine(ArtistList(song))
      case None => None
      case Some(artist) =>
        Some(Snapshot(
          albumImageUrl := AlbumImageUrl(song),
          artist := artist,
          isPlaying := song.isPlaying.GetOr(false),
          songUrl := SongUrl(song),
          title := Title(song),
          timePlayed := song.progressMs.GetOr(0),
          timeTotal := TimeTotal(song),
          artistUrl := ArtistUrl(song)))
  }

  // ---------------------------------------------------------------------------
  // Properties
  // ---------------------------------------------------------------------------

  /**
   * The artist field: empty for no artists, the bare name (or `""`) for one,
   * and each further artist appends the separator and its name, so the names
   * appear in the order of the upstream list.
   */
  lemma ArtistLineInOrder(artists: seq<Option<ArtistInfo>>, a: ArtistInfo)
    ensures ArtistLine([]) == Some("")
    ensures ArtistLine([Some(a)]) == Some(a.name.GetOr(""))
    ensures ArtistLine(artists + [Some(a)]) ==
      match ArtistLine(artists)
      case None => None
      case Some(line) => Some(if artists == [] then a.name.GetOr("") else line + ArtistSeparator + a.name.GetOr(""))
  {
    var all := artists + [Some(a)];
    assert forall i :: 0 <= i < |artists| ==> all[i] == artists[i];
    if ArtistLine(artists).Some? {
      var names := Names(artists).value;
      var allNames := Names(all).value;
      assert allNames == names + [a.name.GetOr("")];
      JoinAppend(names, a.name.GetOr(""), ArtistSeparator);
    } else {
      var i :| 0 <= i < |artists| && artists[i].None?;
      assert all[i].None?;
    }
  }

  /**
   * Normalisation never fails on a missing intermediate: a body that is an
   * object and whose artist list holds no `null` always gives a snapshot.
   * An object body without any of the keys gives the all-defaults snapshot.
   */
  lemma NormalizeTotal(song: Song)
    ensures (forall i :: 0 <= i < |ArtistList(song)| ==> ArtistList(song)[i].Some?) ==>
      Normalize(Object(song)).Some?
    ensures Normalize(Object(Song(None, None, None))) == Some(DefaultSnapshot)
  {
    assert Names([]) == Some([]);
  }

  /**
   * Fields whose path is absent take their defaults; present values, `0` and
   * `false` included, are copied unchanged.
   */
  lemma FieldsFollowPaths(song: Song, snap: Snapshot)
    requires Normalize(Object(song)) == Some(snap)
    ensures song.isPlaying.Some? ==> snap.isPlaying == song.isPlaying.value
    ensures song.isPlaying.None? ==> !snap.isPlaying
    ensures song.progressMs.Some? ==> snap.timePlayed == song.progressMs.value
    ensures song.progressMs.None? ==> snap.timePlayed == 0
    ensures song.item.None? ==>
      snap.albumImageUrl.None? && snap.songUrl.None? && snap.title.None? &&
      snap.artistUrl.None? && snap.timeTotal == 0 && snap.artist == ""
    ensures song.item.Some? && song.item.value.name.Some? ==> snap.title == song.item.value.name
    ensures song.item.Some? && song.item.value.name.None? ==> snap.title.None?
  {
  }

  /** A full example body: two artists, album art and times. */
  lemma ExampleBody()
    ensures Normalize(Object(Song(
      isPlaying := Some(true),
      progressMs := Some(5000),
      item := Some(Item(
        name := Some("Song A"),
        artists := Some([Some(ArtistInfo(Some("X"), None)), Some(ArtistInfo(Some("Y"), None))]),
        durationMs := Some(200000),
        externalUrls := Some(ExternalUrls(Some("u1"))),
        album := Some(Album(
          images := Some([Some(Image(Some("img")))]),
          artists := Some([Some(ArtistInfo(None, Some(ExternalUrls(Some("au")))))]))))))))
      == Some(Snapshot(
        albumImageUrl := Some("img"),
        artist := "X, Y",
        isPlaying := true,
        songUrl := Some("u1"),
        title := Some("Song A"),
        timePlayed := 5000,
        timeTotal := 200000,
        artistUrl := Some("au")))
  {
    var x, y := ArtistInfo(Some("X"), None), ArtistInfo(Some("Y"), None);
    ArtistLineInOrder([Some(x)], y);
    assert [Some(x)] + [Some(y)] == [Some(x), Some(y)];
    assert "X" + ArtistSeparator + "Y" == "X, Y";
    assert ArtistLine([Some(x), Some(y)]) == Some("X, Y");
  }
}
