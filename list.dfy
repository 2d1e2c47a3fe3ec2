/** The read-through listing cache (src/handlers/list.rs): the album list is
    served from the shared state unless it is marked outdated, and a single
    album's listing is served from a map keyed by the requested id, filled on
    a miss that found the album.

    The database is a `Pool` whose query answers are fixed; each query the
    handlers issue is appended to the pool's log, so "no query is issued" is
    a statement about that log. */
module List {
  import opened Wrappers
  import opened RustStr

  // ---------------------------------------------------------------------------
  // The listing records and the rows of the queries that build them

  datatype ListAlbum = ListAlbum(id: i32, name: string, artistName: string, artPath: Option<string>)

  datatype ListTrack = ListTrack(
    id: i32, number: i32, artist: string, name: string, path: string,
    artPath: Option<string>, lengthSeconds: int)

  datatype ListDisc = ListDisc(number: i32, tracks: seq<ListTrack>)

  datatype ListAlbumID = ListAlbumID(
    id: i32, name: string, albumArtistName: string, artPath: Option<string>, discs: seq<ListDisc>)

  /** The `album_cache` part of the shared state. */
  datatype AlbumCache = AlbumCache(listAlbumCacheOutdated: bool, listAlbumCache: Option<seq<ListAlbum>>)

  /** A row of the single-album query (`DBAlbum`). */
  datatype AlbumRow = AlbumRow(id: i32, name: string, albumArtistName: string, artPath: Option<string>)

  /** A row of the per-disc track query; `track_no` may be NULL. */
  datatype TrackRow = TrackRow(
    trackId: i32, trackNo: Option<i32>, artistName: string, trackName: string, path: string,
    artPath: Option<string>, lengthSeconds: int)

  datatype DbError = DbError(message: string)

  /** The `(StatusCode, String)` a handler fails with. */
  datatype HttpError = HttpError(status: int, message: string)

  /** `internal_error`: every failure becomes a 500 carrying the error's text. */
  function InternalError(e: DbError): HttpError {
    HttpError(500, e.message)
  }

  datatype Query =
    | AllAlbums
    | AlbumById(albumId: i32)
    | DiscsOfAlbum(albumId: i32)
    | TracksOfDisc(albumId: i32, disc: Option<i32>)

  /** The connection pool. What each query answers is fixed when the pool is
      made; `log` records the queries sent, oldest first. */
  class Pool {
    const albums: Result<seq<ListAlbum>, DbError>
    const albumRow: i32 -> Result<Option<AlbumRow>, DbError>
    const discRows: i32 -> Result<seq<Option<i32>>, DbError>
    const trackRows: (i32, Option<i32>) -> Result<seq<TrackRow>, DbError>
    var log: seq<Query>

    constructor (albums: Result<seq<ListAlbum>, DbError>,
                 albumRow: i32 -> Result<Option<AlbumRow>, DbError>,
                 discRows: i32 -> Result<seq<Option<i32>>, DbError>,
                 trackRows: (i32, Option<i32>) -> Result<seq<TrackRow>, DbError>)
      ensures this.albums == albums && this.albumRow == albumRow
      ensures this.discRows == discRows && this.trackRows == trackRows
      ensures log == []
    {
      this.albums := albums;
      this.albumRow := albumRow;
      this.discRows := discRows;
      this.trackRows := trackRows;
      log := [];
    }

    method FetchAllAlbums() returns (r: Result<seq<ListAlbum>, DbError>)
      modifies this`log
      ensures r == albums && log == old(log) + [AllAlbums]
    {
      r := albums;
      log := log + [AllAlbums];
    }

    method FetchAlbum(albumId: i32) returns (r: Result<Option<AlbumRow>, DbError>)
      modifies this`log
      ensures r == albumRow(albumId) && log == old(log) + [AlbumById(albumId)]
    {
      r := albumRow(albumId);
      log := log + [AlbumById(albumId)];
    }

    method FetchDiscs(albumId: i32) returns (r: Result<seq<Option<i32>>, DbError>)
      modifies this`log
      ensures r == discRows(albumId) && log == old(log) + [DiscsOfAlbum(albumId)]
    {
      r := discRows(albumId);
      log := log + [DiscsOfAlbum(albumId)];
    }

    method FetchTracks(albumId: i32, disc: Option<i32>) returns (r: Result<seq<TrackRow>, DbError>)
      modifies this`log
      ensures r == trackRows(albumId, disc) && log == old(log) + [TracksOfDisc(albumId, disc)]
    {
      r := trackRows(albumId, disc);
      log := log + [TracksOfDisc(albumId, disc)];
    }
  }

  // ---------------------------------------------------------------------------
  // Specification functions

  /** The `ListTrack` made from one track row (src/handlers/list.rs:143-151). */
  function ToListTrack(row: TrackRow): ListTrack {
    ListTrack(row.trackId, row.trackNo.GetOr(0), row.artistName, row.trackName, row.path,
              row.artPath, row.lengthSeconds)
  }

  function ToListTracks(rows: seq<TrackRow>): seq<ListTrack> {
    seq(|rows|, k requires 0 <= k < |rows| => ToListTrack(rows[k]))
  }

  /** The discs assembled from the disc rows in order, or the error of the
      first track query that failed. */
  function AssembleDiscs(pool: Pool, albumId: i32, discs: seq<Option<i32>>): Result<seq<ListDisc>, DbError>
    decreases |discs|
  {
    if discs == [] then Success([])
    else
      match AssembleDiscs(pool, albumId, discs[..|discs| - 1])
      case Failure(e) => Failure(e)
      case Success(done) =>
        var disc := discs[|discs| - 1];
        match pool.trackRows(albumId, disc)
        case Failure(e) => Failure(e)
        case Success(rows) => Success(done + [ListDisc(disc.GetOr(0), ToListTracks(rows))])
  }

  /** The track queries issued while assembling: one per disc up to and
      including the first that fails. */
  function DiscQueries(pool: Pool, albumId: i32, discs: seq<Option<i32>>): seq<Query>
    decreases |discs|
  {
    if discs == [] then []
    else
      var before := discs[..|discs| - 1];
      if AssembleDiscs(pool, albumId, before).Failure? then DiscQueries(pool, albumId, before)
      else DiscQueries(pool, albumId, before) + [TracksOfDisc(albumId, discs[|discs| - 1])]
  }

  /** What `list_album_id` returns once the id has parsed. */
  function AlbumResult(pool: Pool, albumId: i32): Result<Option<ListAlbumID>, DbError> {
    match pool.albumRow(albumId)
    case Failure(e) => Failure(e)
    case Success(None) => Success(None)
    case Success(Some(alb)) =>
      match pool.discRows(albumId)
      case Failure(e) => Failure(e)
      case Success(discs) =>
        match AssembleDiscs(pool, albumId, discs)
        case Failure(e) => Failure(e)
        case Success(built) =>
          Success(Some(ListAlbumID(alb.id, alb.name, alb.albumArtistName, alb.artPath, built)))
  }

  /** The queries `list_album_id` sends once the id has parsed. */
  function AlbumQueries(pool: Pool, albumId: i32): seq<Query> {
    [AlbumById(albumId)] +
    match pool.albumRow(albumId)
    case Failure(_) => []
    case Success(None) => []
    case Success(Some(_)) =>
      [DiscsOfAlbum(albumId)] +
      match pool.discRows(albumId)
      case Failure(_) => []
      case Success(discs) => DiscQueries(pool, albumId, discs)
  }

  /** What `list_album_id` returns: nothing for an id that is not an `i32`. */
  function AlbumIdResult(pool: Pool, id: string): Result<Option<ListAlbumID>, DbError> {
    match ParseI32(id)
    case Failure(_) => Success(None)
    case Success(albumId) => AlbumResult(pool, albumId)
  }

  /** The queries `list_album_id` sends. */
  function AlbumIdQueries(pool: Pool, id: string): seq<Query> {
    match ParseI32(id)
    case Failure(_) => []
    case Success(albumId) => AlbumQueries(pool, albumId)
  }

  // ---------------------------------------------------------------------------
  // Queries

  /** `list_albums`: the listing query's rows, always wrapped in `Some`. */
  method ListAlbums(pool: Pool) returns (r: Result<Option<seq<ListAlbum>>, DbError>)
    modifies pool`log
    ensures pool.albums.Success? ==> r == Success(Some(pool.albums.value))
    ensures pool.albums.Failure? ==> r == Failure(pool.albums.error)
    ensures pool.log == old(pool.log) + [AllAlbums]
  {
    var albums := pool.FetchAllAlbums();
    if albums.Failure? {
      return Failure(albums.error);
    }
    r := Success(Some(albums.value));
  }

  /** The disc loop of `list_album_id` (src/handlers/list.rs:128-158): one
      track query per disc, a `ListDisc` pushed for each, stopping at the first
      query that fails. */
  method CollectDiscs(pool: Pool, albumId: i32, discs: seq<Option<i32>>) returns (r: Result<seq<ListDisc>, DbError>)
    modifies pool`log
    ensures r == AssembleDiscs(pool, albumId, discs)
    ensures pool.log == old(pool.log) + DiscQueries(pool, albumId, discs)
  {
    var discStructs: seq<ListDisc> := [];
    for i := 0 to |discs|
      invariant AssembleDiscs(pool, albumId, discs[..i]) == Success(discStructs)
      invariant pool.log == old(pool.log) + DiscQueries(pool, albumId, discs[..i])
    {
      var disc := discs[i];
      assert discs[..i + 1][..i] == discs[..i];
      var tracks := pool.FetchTracks(albumId, disc);
      if tracks.Failure? {
        FailureStops(pool, albumId, discs, i + 1);
        return Failure(tracks.error);
      }
      discStructs := discStructs + [ListDisc(disc.GetOr(0), ToListTracks(tracks.value))];
    }
    assert discs[..|discs|] == discs;
    r := Success(discStructs);
  }

  /** The part of `list_album_id` after the id parsed (src/handlers/list.rs:105-169). */
  method FetchAlbumListing(pool: Pool, albumId: i32) returns (r: Result<Option<ListAlbumID>, DbError>)
    modifies pool`log
    ensures r == AlbumResult(pool, albumId)
    ensures pool.log == old(pool.log) + AlbumQueries(pool, albumId)
  {
    var album := pool.FetchAlbum(albumId);
    if album.Failure? {
      return Failure(album.error);
    }
    if album.value.None? {
      return Success(None);
    }
    var alb := album.value.value;
    var discsRead := pool.FetchDiscs(albumId);
    if discsRead.Failure? {
      return Failure(discsRead.error);
    }
    var discStructs := CollectDiscs(pool, albumId, discsRead.value);
    if discStructs.Failure? {
      return Failure(discStructs.error);
    }
    r := Success(Some(ListAlbumID(alb.id, alb.name, alb.albumArtistName, alb.artPath, discStructs.value)));
  }

  /** `list_album_id`: an id that is not an `i32` is answered with no album. */
  method ListAlbumId(pool: Pool, id: string) returns (r: Result<Option<ListAlbumID>, DbError>)
    modifies pool`log
    ensures r == AlbumIdResult(pool, id)
    ensures pool.log == old(pool.log) + AlbumIdQueries(pool, id)
  {
    var idParse := ParseI32(id);
    if idParse.Failure? {
      return Success(None);
    }
    r := FetchAlbumListing(pool, idParse.value);
  }

  // ---------------------------------------------------------------------------
  // The shared state and the handlers

  /** The state shared by the handlers (behind one lock in the server). */
  class SharedState {
    var albumCache: AlbumCache
    var albumIdCache: map<string, ListAlbumID>

    constructor (albumCache: AlbumCache, albumIdCache: map<string, ListAlbumID>)
      ensures this.albumCache == albumCache && this.albumIdCache == albumIdCache
    {
      this.albumCache := albumCache;
      this.albumIdCache := albumIdCache;
    }

    /** A list marked up to date is present. */
    ghost predicate Coherent()
      reads this
    {
      !albumCache.listAlbumCacheOutdated ==> albumCache.listAlbumCache.Some?
    }

    /** `list_albums_handler`. */
    method ListAlbumsHandler(pool: Pool) returns (r: Result<Option<seq<ListAlbum>>, HttpError>)
      modifies this`albumCache, pool`log
      ensures !old(albumCache.listAlbumCacheOutdated) ==>
        r == Success(old(albumCache.listAlbumCache)) && albumCache == old(albumCache) && pool.log == old(pool.log)
      ensures old(albumCache.listAlbumCacheOutdated) ==> pool.log == old(pool.log) + [AllAlbums]
      ensures old(albumCache.listAlbumCacheOutdated) && pool.albums.Failure? ==>
        r == Failure(InternalError(pool.albums.error)) && albumCache == old(albumCache)
      ensures old(albumCache.listAlbumCacheOutdated) && pool.albums.Success? ==>
        albumCache == AlbumCache(false, Some(pool.albums.value)) && r == Success(albumCache.listAlbumCache)
      ensures old(Coherent()) ==> Coherent()
      ensures old(Coherent()) && r.Success? ==> r.value.Some?
    {
      if !albumCache.listAlbumCacheOutdated {
        return Success(albumCache.listAlbumCache);
      }
      var fetched := ListAlbums(pool);
      if fetched.Failure? {
        return Failure(InternalError(fetched.error));
      }
      albumCache := AlbumCache(false, fetched.value);
      r := Success(fetched.value);
    }

    /** `list_album_id_handler`. */
    method ListAlbumIdHandler(pool: Pool, id: string) returns (r: Result<Option<ListAlbumID>, HttpError>)
      modifies this`albumIdCache, pool`log
      ensures id in old(albumIdCache) ==>
        r == Success(Some(old(albumIdCache)[id])) && albumIdCache == old(albumIdCache) && pool.log == old(pool.log)
      ensures id !in old(albumIdCache) ==> pool.log == old(pool.log) + AlbumIdQueries(pool, id)
      ensures id !in old(albumIdCache) && AlbumIdResult(pool, id).Failure? ==>
        r == Failure(InternalError(AlbumIdResult(pool, id).error)) && albumIdCache == old(albumIdCache)
      ensures id !in old(albumIdCache) && AlbumIdResult(pool, id) == Success(None) ==>
        r == Success(None) && albumIdCache == old(albumIdCache)
      ensures id !in old(albumIdCache) && AlbumIdResult(pool, id).Success? && AlbumIdResult(pool, id).value.Some? ==>
        r == Success(AlbumIdResult(pool, id).value) && albumIdCache == old(albumIdCache)[id := AlbumIdResult(pool, id).value.value]
      ensures forall k :: k != id ==>
        (k in albumIdCache <==> k in old(albumIdCache)) && (k in albumIdCache ==> albumIdCache[k] == old(albumIdCache)[k])
    {
      if id in albumIdCache {
        return Success(Some(albumIdCache[id]));
      }
      var fetched := ListAlbumId(pool, id);
      if fetched.Failure? {
        return Failure(InternalError(fetched.error));
      }
      if fetched.value.Some? {
        albumIdCache := albumIdCache[id := fetched.value.value];
      }
      r := Success(fetched.value);
    }
  }

  /** Listing twice: the second call is answered from the cache with the same
      list, and the listing query is sent at most once. */
  method ListAlbumsTwice(state: SharedState, pool: Pool)
    returns (first: Result<Option<seq<ListAlbum>>, HttpError>, second: Result<Option<seq<ListAlbum>>, HttpError>)
    modifies state`albumCache, pool`log
    ensures first.Success? ==> second == first
    ensures first.Success? ==>
      pool.log == old(pool.log) + (if old(state.albumCache.listAlbumCacheOutdated) then [AllAlbums] else [])
  {
    first := state.ListAlbumsHandler(pool);
    second := state.ListAlbumsHandler(pool);
  }

  /** Asking twice for an album that exists: the second answer comes from the
      cache, equal to the first, with no query sent. */
  method ListAlbumIdTwice(state: SharedState, pool: Pool, id: string)
    returns (first: Result<Option<ListAlbumID>, HttpError>, second: Result<Option<ListAlbumID>, HttpError>)
    modifies state`albumIdCache, pool`log
    ensures first.Success? && first.value.Some? ==> second == first
    ensures first.Success? && first.value.Some? ==> id in state.albumIdCache && state.albumIdCache[id] == first.value.value
    ensures first.Success? && first.value.Some? ==>
      pool.log == old(pool.log) + (if id in old(state.albumIdCache) then [] else AlbumIdQueries(pool, id))
  {
    first := state.ListAlbumIdHandler(pool, id);
    second := state.ListAlbumIdHandler(pool, id);
  }

  // ---------------------------------------------------------------------------
  // Properties

  /** Once a track query fails, later discs change neither result nor queries. */
  lemma {:induction false} FailureStops(pool: Pool, albumId: i32, discs: seq<Option<i32>>, n: nat)
    requires n <= |discs|
    requires AssembleDiscs(pool, albumId, discs[..n]).Failure?
    ensures AssembleDiscs(pool, albumId, discs) == AssembleDiscs(pool, albumId, discs[..n])
    ensures DiscQueries(pool, albumId, discs) == DiscQueries(pool, albumId, discs[..n])
    decreases |discs| - n
  {
    if n < |discs| {
      var longer := discs[..|discs| - 1];
      assert longer[..n] == discs[..n];
      FailureStops(pool, albumId, longer, n);
    } else {
      assert discs[..n] == discs;
    }
  }

  /** An assembled album has one disc per disc row, in order, numbered by that
      row or 0, holding the copies of that disc's track rows in order. */
  lemma {:induction false} AssembleDiscsShape(pool: Pool, albumId: i32, discs: seq<Option<i32>>)
    requires AssembleDiscs(pool, albumId, discs).Success?
    ensures var built := AssembleDiscs(pool, albumId, discs).value;
      |built| == |discs| &&
      forall i :: 0 <= i < |discs| ==>
        built[i].number == discs[i].GetOr(0) &&
        pool.trackRows(albumId, discs[i]).Success? &&
        |built[i].tracks| == |pool.trackRows(albumId, discs[i]).value| &&
        forall k :: 0 <= k < |built[i].tracks| ==>
          built[i].tracks[k] == ToListTrack(pool.trackRows(albumId, discs[i]).value[k])
    decreases |discs|
  {
    if discs != [] {
      AssembleDiscsShape(pool, albumId, discs[..|discs| - 1]);
    }
  }

  /** Assembling fails exactly when some disc's track query fails, and then
      with the error of the first such disc. */
  lemma {:induction false} AssembleDiscsFailure(pool: Pool, albumId: i32, discs: seq<Option<i32>>)
    ensures AssembleDiscs(pool, albumId, discs).Failure? <==>
      exists i :: 0 <= i < |discs| && pool.trackRows(albumId, discs[i]).Failure?
    ensures AssembleDiscs(pool, albumId, discs).Failure? ==>
      exists i :: 0 <= i < |discs| && pool.trackRows(albumId, discs[i]).Failure?
        && AssembleDiscs(pool, albumId, discs).error == pool.trackRows(albumId, discs[i]).error
        && forall j :: 0 <= j < i ==> pool.trackRows(albumId, discs[j]).Success?
    decreases |discs|
  {
    if discs != [] {
      var before := discs[..|discs| - 1];
      AssembleDiscsFailure(pool, albumId, before);
      assert forall j :: 0 <= j < |before| ==> before[j] == discs[j];
      if AssembleDiscs(pool, albumId, before).Success? {
        assert forall j :: 0 <= j < |before| ==> pool.trackRows(albumId, discs[j]).Success?;
      }
    }
  }

  /** An id that is not an `i32` yields no album and sends no query. */
  lemma UnparsableIdIsNone(pool: Pool, id: string)
    requires ParseI32(id).Failure?
    ensures AlbumIdResult(pool, id) == Success(None) && AlbumIdQueries(pool, id) == []
  {
  }

  /** An id of no album yields no album after the one album query. */
  lemma MissingAlbumIsNone(pool: Pool, id: string)
    requires ParseI32(id).Success? && pool.albumRow(ParseI32(id).value) == Success(None)
    ensures AlbumIdResult(pool, id) == Success(None)
    ensures AlbumIdQueries(pool, id) == [AlbumById(ParseI32(id).value)]
  {
  }

  /** A found album carries the album row's fields, and its discs are those
      assembled from the disc rows. */
  lemma FoundAlbum(pool: Pool, id: string)
    requires AlbumIdResult(pool, id).Success? && AlbumIdResult(pool, id).value.Some?
    ensures ParseI32(id).Success?
    ensures var albumId := ParseI32(id).value;
      var a := AlbumIdResult(pool, id).value.value;
      pool.albumRow(albumId).Success? && pool.albumRow(albumId).value.Some?
      && pool.discRows(albumId).Success?
      && var alb := pool.albumRow(albumId).value.value;
      a.id == alb.id && a.name == alb.name && a.albumArtistName == alb.albumArtistName
      && a.artPath == alb.artPath && |a.discs| == |pool.discRows(albumId).value|
      && forall i :: 0 <= i < |a.discs| ==> a.discs[i].number == pool.discRows(albumId).value[i].GetOr(0)
  {
    var albumId := ParseI32(id).value;
    AssembleDiscsShape(pool, albumId, pool.discRows(albumId).value);
  }
}
