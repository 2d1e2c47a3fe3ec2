# musicthing-backend: tag normalisation and the listing cache, in Dafny

This project models the two parts of the music server's backend that carry
logic, and proves properties of the model.

- **Tag normalisation** (`src/handlers/tag_parser/mod.rs`, module `TagParser`).
  `parse_tag` takes a file path and turns the tag that the id3 or metaflac
  decoder read from that file into a `TrackInfo` record. It dispatches on the
  file extension, which must be exactly `"mp3"` or `"flac"`. It takes the art
  from the first front-cover picture. Missing text becomes `""` and missing
  numbers become `0`. For FLAC, multi-valued Vorbis comments are joined with
  `", "`, the first `TRACKNUMBER`/`DISCNUMBER` value is parsed as a `u32`, and
  the length is `total_samples / sample_rate` in whole seconds.
- **Read-through listing cache** (`src/handlers/list.rs`, module `List`).
  `list_albums_handler` serves the album list from the shared state unless
  the list is marked outdated. On a miss it queries, stores the result and
  clears the flag. `list_album_id_handler` serves one album from a map keyed
  by the requested id. On a miss it runs `list_album_id`, which parses the id
  as an `i32`, fetches the album, its discs and each disc's tracks, and it
  caches the answer only when an album was found.

Supporting modules: `Wrappers` holds `Option` and `Result`. `RustStr` holds the
fixed-width integers and the Rust standard-library behaviour the core relies
on: `str::parse::<u32>` and `str::parse::<i32>`, modelled with Rust's rules (an
optional `+`, a leading `-` only for `i32`, a lone sign rejected, the first
failure deciding the error kind, and overflow), plus `[String]::join`.

How the model is built:

- The filesystem and the tag decoders are inputs. One `AudioFile` value holds
  what they report about one file: the modification-time result, the result of
  `Path::extension` plus `to_str`, and what `id3::Tag::read_from_path`,
  `mp3_duration::from_path` and `metaflac::Tag::read_from_path` return.
- The picture-selection loops are one method, `SelectFrontCover`. It runs the
  iterator loop and is proved equal to the function `FirstFrontCover`.
  `ParseMp3`, `ParseFlac` and `ParseTag` are methods proved equal to the
  functions `Mp3Result`, `FlacResult` and `TagResult`. The lemmas then state the
  fallbacks, failure cases and art selection for those functions.
- The database is a `Pool` object with fixed query answers, given as functions
  of the query parameters. Every query a handler sends is added to the pool's
  `log`. So "no query is sent" is the statement `pool.log == old(pool.log)`.
  The shared state is the class `SharedState`, with the fields `albumCache`
  (the `outdated` flag and the cached list) and `albumIdCache` (a map from id
  text to album). The handlers are methods on that class.
- These types are imported from `crate::utils` but not defined in
  `src/utils/mod.rs`: `SharedState`, `AlbumCache`, `ListAlbum`, `ListAlbumID`,
  `ListDisc` and `ListTrack`. Their fields are taken from how `list.rs` uses
  them (lines 24-34, 72-80, 143-166). Column types the code does not state are
  `i32` for ids and numbers, and unbounded `int` for `length_seconds`.

Facts about the code that the model keeps:

- Missing text becomes `""`, both for id3 frames and for absent Vorbis comment
  keys.
- Art comes only from the pictures embedded in the tag.
- No code sets `list_album_cache_outdated` or clears `album_id_cache`. The
  reload handlers in `src/handlers/reload.rs` return fixed strings. So the
  model has no invalidation operation.

## Model

| member | source | states |
|---|---|---|
| TagParser.SelectFrontCover | src/handlers/tag_parser/mod.rs:53-65 | the picture loop returns exactly the data of the first CoverFront picture, or None (the same loop appears at lines 96-108) |
| TagParser.FirstFrontCoverSpec | src/handlers/tag_parser/mod.rs:96-108 | art is present iff some picture is a front cover, and it is then the data of the first one; every earlier picture is of another type |
| TagParser.ParsedArtIsFirstFrontCover | src/handlers/tag_parser/mod.rs:76 | the art of a successfully parsed MP3 or FLAC file is None iff the file has no front-cover picture, and otherwise the data of its first front cover |
| TagParser.ParseMp3 | src/handlers/tag_parser/mod.rs:49-81 | parse_mp3 fails with the decoder's error when id3 cannot read the tag, and otherwise returns the record of Mp3Result with the art of the cover loop |
| TagParser.Mp3Fallbacks | src/handlers/tag_parser/mod.rs:67-80 | with a readable id3 tag parse_mp3 always succeeds: each of title/artist/album/album-artist is the tag's value when present and "" when absent, track/disc are the tag's number when present and 0 when absent, the length is the duration's whole seconds or 0 when it cannot be computed, and path and modification time are the inputs |
| TagParser.ParseFlac | src/handlers/tag_parser/mod.rs:83-142 | parse_flac returns the decoder's error, or the record of FlacResult with the length of the conditional division and the art of the cover loop |
| TagParser.FlacLength | src/handlers/tag_parser/mod.rs:87-92 | FLAC length is 0 without STREAMINFO; otherwise it is the truncated quotient q, with q·rate ≤ total_samples < (q+1)·rate |
| TagParser.TextFieldSpec | src/handlers/tag_parser/mod.rs:114-117 | a FLAC text field is "" when its key is absent, a single value unchanged, and one more value appends ", " and that value |
| TagParser.NumberFieldSpec | src/handlers/tag_parser/mod.rs:118-119 | a FLAC number is 0 when its key is absent or has no value; otherwise it is the u32 parse of the first value only, so later values do not matter; it succeeds iff that value is an optional + and decimal digits that fit in 32 bits |
| TagParser.FlacRejectsTrackOfTotal | src/handlers/tag_parser/mod.rs:118 | a first TRACKNUMBER value of "3/12" makes the whole parse_flac fail with an invalid-digit error, whatever the other comments and later values are |
| TagParser.FlacOutcome | src/handlers/tag_parser/mod.rs:110-124 | parse_flac fails iff metaflac fails or a comment block is present and the track or disc number does not parse; a success carries the path, time, computed length and selected art |
| TagParser.FlacWithoutComments | src/handlers/tag_parser/mod.rs:126-139 | without a Vorbis comment block, parse_flac succeeds with all texts "" and numbers 0, and still has the computed length and the selected art |
| TagParser.FlacWithComments | src/handlers/tag_parser/mod.rs:113-119 | with a comment block whose numbers parse, each text field is the joined values of its key and each number is the parse of the first value |
| TagParser.ParseTag | src/handlers/tag_parser/mod.rs:27-47 | parse_tag succeeds only for extension exactly "mp3" or "flac"; a metadata failure is reported first; any other extension is an unsupported-extension error naming path and extension |
| TagParser.ErrorMessages | src/handlers/tag_parser/mod.rs:34-45 | the error texts parse_tag reports: "File at {path} has no extension", "File at {path} has invalid extension", "File at {path} has unsupported extension {ext}", the I/O error's text for metadata, and ParseIntError's text for a FLAC number |
| TagParser.ParseTagOutcome | src/handlers/tag_parser/mod.rs:34-46 | a missing or non-Unicode extension and "MP3" are errors; for "mp3" the parse succeeds iff id3 reads the tag; every success keeps path_str and last_modified equal to the inputs |
| RustStr.AccumulateDigits | src/handlers/tag_parser/mod.rs:118-119 | the digit loop of from_str never yields a value beyond the target type's limit |
| RustStr.AccumulateDigitsSpec | src/handlers/tag_parser/mod.rs:118-119 | the digit loop succeeds iff every character is a decimal digit and the value fits, and then yields that decimal value |
| RustStr.ParseU32Spec | src/handlers/tag_parser/mod.rs:118-119 | parse::<u32> accepts exactly an optional + followed by one or more decimal digits whose value is at most 2^32-1, and yields that value |
| RustStr.ParseU32RoundTrip | src/handlers/tag_parser/mod.rs:118-119 | parsing the decimal text of any u32 gives back that u32 |
| RustStr.ParseU32Examples | src/handlers/tag_parser/mod.rs:118-119 | "", "+", "3/12", "-0" and " 3" are rejected, "+07" is 7, and 4294967296 overflows |
| RustStr.JoinSnoc | src/handlers/tag_parser/mod.rs:114-117 | joining one value more appends the separator and that value |
| RustStr.JoinLength | src/handlers/tag_parser/mod.rs:114-117 | the joined text is as long as all values plus one separator between each two; no values join to "" |
| RustStr.JoinContents | src/handlers/tag_parser/mod.rs:114-117 | in the joined text each value sits at its offset (the lengths of the values before it plus one separator for each), and the separator follows every value but the last |
| RustStr.ParseI32Spec | src/handlers/list.rs:99-103 | parse::<i32> accepts exactly an optional sign and one or more digits in the i32 range, and yields the signed decimal value |
| List.ListAlbums | src/handlers/list.rs:41-58 | list_albums sends one listing query and returns Some(rows) when it succeeds, never None; a failing query's error is returned |
| List.SharedState.ListAlbumsHandler | src/handlers/list.rs:17-39 | a fresh cache is returned with no query and no state change; when outdated, a failed query returns a 500 with the state untouched, and a success stores {outdated: false, Some(rows)} and returns it; a non-outdated list stays present, so a success is then never None |
| List.ListAlbumsTwice | src/handlers/list.rs:24-35 | after a successful listing the next call returns the same value from the cache, and the listing query was sent at most once |
| List.CollectDiscs | src/handlers/list.rs:128-158 | the disc loop sends one track query per disc up to the first failure and returns the AssembleDiscs value |
| List.AssembleDiscsShape | src/handlers/list.rs:128-158 | an assembled album has one ListDisc per disc row in the same order, numbered disc_no or 0, holding one ListTrack per track row in order, with number track_no or 0 and the other fields copied |
| List.AssembleDiscsFailure | src/handlers/list.rs:131-141 | assembling fails iff some disc's track query fails, and then with the error of the first such disc |
| List.FetchAlbumListing | src/handlers/list.rs:105-169 | after the id parsed: one album query; no album row gives None; otherwise the disc query and the disc loop; the first failing query's error is returned; result and queries sent are AlbumResult and AlbumQueries |
| List.ListAlbumId | src/handlers/list.rs:89-103 | list_album_id answers an id that is not an i32 with Ok(None) and otherwise the album listing; it sends the queries of AlbumIdQueries, in order |
| List.UnparsableIdIsNone | src/handlers/list.rs:99-102 | an id that is not an i32 yields Ok(None) and sends no query |
| List.MissingAlbumIsNone | src/handlers/list.rs:116-120 | an id with no album row yields Ok(None) after exactly the album query |
| List.FoundAlbum | src/handlers/list.rs:160-166 | a found album carries the album row's id, name, album-artist and art path, and has one disc per disc row numbered disc_no or 0 |
| List.SharedState.ListAlbumIdHandler | src/handlers/list.rs:60-85 | a cached id returns Some(cached) with no query and no change; on a miss the map gains id -> album only when an album was found; None or an error leaves it unchanged; other keys are never altered |
| List.ListAlbumIdTwice | src/handlers/list.rs:72-81 | after a request that found an album, the id is cached with that album and the next request returns the same answer without sending a query |

## Left out

- Filesystem access, the tag decoders (id3, metaflac, mp3_duration) and `Path::extension` are inputs, not models. The relation between the path text and its extension is therefore not captured.
- The `NonUnicode` extension case cannot arise in the server: the path comes from a `&str`, so `to_str` always succeeds. It is kept because the code handles it.
- TagParser.ParseFlac: a STREAMINFO block with sample rate 0 makes the Rust code panic at the division; this is a precondition (`SampleRateNonZero`, `NoPanic` for `ParseTag`), not an error result.
- Picture MIME type and description are not modelled, and neither are the Vorbis vendor string or the decoders' key case handling. The id3 and metaflac picture-type enumerations are one datatype.
- `PrimitiveDateTime` is passed through as an opaque `Timestamp`. Its conversion from `SystemTime` is not modelled.
- SQL query text, joins and `ORDER BY` are not modelled. Each query is an answer fixed in the `Pool` (`list.rs:43-54, 106-141`), and the order of rows is whatever that answer gives.
- The async `RwLock` is not modelled. Nor is the race between the read-lock check and the later write in both handlers (`list.rs:21-32, 69-80`). The handlers are sequential state updates.
- The panic when the route has no `"id"` parameter (`list.rs:66`) is routing plumbing. The handler takes the id text directly.
- `src/main.rs` builds no `SharedState`, so the initial state is a constructor parameter: `SharedState`'s constructor takes any initial value, and `Coherent` states the invariant the handler keeps.
- Not modelled, because they are bootstrap, configuration, fixed strings or UI: `src/main.rs`, `src/utils/mod.rs` (only `internal_error` is modelled, as `List.InternalError`), `src/handlers/demo.rs`, `src/handlers/utils/mod.rs`, `src/handlers/reload.rs` and `static/button.js`. `src/handlers/mod.rs` only declares a struct, and its module `play` is not part of this model.
