/** Tag normalisation (src/handlers/tag_parser/mod.rs): from a file path and
    the tag the id3 or metaflac decoder read from the file, the `TrackInfo`
    record the rest of the server stores.

    The filesystem and the decoders are not modelled: what they report about
    one file is the `AudioFile` value the parser is given. */
module TagParser {
  import opened Wrappers
  import opened RustStr

  // ---------------------------------------------------------------------------
  // What the decoders hand over

  /** `PrimitiveDateTime` of the file's last modification; only passed through. */
  datatype Timestamp = Timestamp(unixNanos: int)

  /** The APIC / METADATA_BLOCK_PICTURE picture types (the id3 and metaflac
      enumerations list the same twenty-one; id3 adds `Undefined`). */
  datatype PictureType =
    | Other | Icon | OtherIcon | CoverFront | CoverBack | Leaflet | Media
    | LeadArtist | Artist | Conductor | Band | Composer | Lyricist
    | RecordingLocation | DuringRecording | DuringPerformance | ScreenCapture
    | BrightFish | Illustration | BandLogo | PublisherLogo | Undefined(code: byte)

  datatype Picture = Picture(pictureType: PictureType, data: seq<byte>)

  /** The parts of an `id3::Tag` the parser reads. */
  datatype Id3Tag = Id3Tag(
    title: Option<string>,
    artist: Option<string>,
    album: Option<string>,
    albumArtist: Option<string>,
    track: Option<u32>,
    disc: Option<u32>,
    pictures: seq<Picture>)

  /** `std::time::Duration`, of which the parser keeps whole seconds. */
  datatype Duration = Duration(secs: u64, subsecNanos: u32)

  datatype StreamInfo = StreamInfo(totalSamples: u64, sampleRate: u32)

  /** The parts of a `metaflac::Tag` the parser reads: the STREAMINFO block,
      the PICTURE blocks and the Vorbis comment block's key to values map. */
  datatype FlacTag = FlacTag(
    streamInfo: Option<StreamInfo>,
    pictures: seq<Picture>,
    vorbisComments: Option<map<string, seq<string>>>)

  datatype IoError = IoError(message: string)
  datatype DecodeError = DecodeError(message: string)

  /** `Path::extension` followed by `OsStr::to_str`. */
  datatype PathExtension = NoExtension | NonUnicode | Extension(text: string)

  /** Everything the parser learns from the filesystem and the decoders about
      one file: `metadata()?.modified()?`, the extension, and what each
      decoder returns when run on the file. */
  datatype AudioFile = AudioFile(
    modified: Result<Timestamp, IoError>,
    extension: PathExtension,
    id3: Result<Id3Tag, DecodeError>,
    mp3Duration: Result<Duration, DecodeError>,
    flac: Result<FlacTag, DecodeError>)

  // ---------------------------------------------------------------------------
  // What the parser produces

  datatype TrackInfo = TrackInfo(
    trackName: string,
    artistName: string,
    albumName: string,
    albumArtistName: string,
    trackNumber: u32,
    discNumber: u32,
    lengthSeconds: u64,
    art: Option<seq<byte>>,
    pathStr: string,
    lastModified: Timestamp)

  /** The errors `parse_tag` returns boxed. */
  datatype TagError =
    | Metadata(io: IoError)
    | MissingExtension(path: string)
    | InvalidExtension(path: string)
    | UnsupportedExtension(path: string, extension: string)
    | Unreadable(decode: DecodeError)
    | InvalidNumber(kind: IntErrorKind)
  {
    function Message(): string {
      match this
      case Metadata(e) => e.message
      case MissingExtension(p) => "File at " + p + " has no extension"
      case InvalidExtension(p) => "File at " + p + " has invalid extension"
      case UnsupportedExtension(p, x) => "File at " + p + " has unsupported extension " + x
      case Unreadable(e) => e.message
      case InvalidNumber(k) => IntErrorMessage(k)
    }
  }

  // ---------------------------------------------------------------------------
  // Specification functions

  /** The bytes of the first front-cover picture, if any. */
  function FirstFrontCover(pictures: seq<Picture>): Option<seq<byte>> {
    if pictures == [] then None
    else if pictures[0].pictureType == CoverFront then Some(pictures[0].data)
    else FirstFrontCover(pictures[1..])
  }

  predicate IsFirstFrontCover(pictures: seq<Picture>, i: int) {
    0 <= i < |pictures| && pictures[i].pictureType == CoverFront &&
    forall j :: 0 <= j < i ==> pictures[j].pictureType != CoverFront
  }

  /** `unwrap_or("")` on a text frame. */
  function OrEmpty(text: Option<string>): string {
    text.GetOr("")
  }

  /** The record built from an id3 tag (src/handlers/tag_parser/mod.rs:67-80). */
  function Mp3Info(tag: Id3Tag, duration: Result<Duration, DecodeError>, art: Option<seq<byte>>,
                   path: string, lastModified: Timestamp): TrackInfo
  {
    TrackInfo(
      OrEmpty(tag.title), OrEmpty(tag.artist), OrEmpty(tag.album), OrEmpty(tag.albumArtist),
      tag.track.GetOr(0), tag.disc.GetOr(0),
      if duration.Success? then duration.value.secs else 0,
      art, path, lastModified)
  }

  /** What `parse_mp3` returns. */
  function Mp3Result(path: string, lastModified: Timestamp, tagRead: Result<Id3Tag, DecodeError>,
                     duration: Result<Duration, DecodeError>): Result<TrackInfo, TagError>
  {
    match tagRead
    case Failure(e) => Failure(Unreadable(e))
    case Success(tag) => Success(Mp3Info(tag, duration, FirstFrontCover(tag.pictures), path, lastModified))
  }

  /** The one input on which `parse_flac` panics: a STREAMINFO block with sample rate 0. */
  predicate SampleRateNonZero(tag: FlacTag) {
    tag.streamInfo.Some? ==> tag.streamInfo.value.sampleRate != 0
  }

  /** Track length in whole seconds (src/handlers/tag_parser/mod.rs:87-92). */
  function FlacLength(info: Option<StreamInfo>): (r: u64)
    requires info.Some? ==> info.value.sampleRate != 0
    ensures info.None? ==> r == 0
    ensures info.Some? ==>
      r as int * info.value.sampleRate as int <= info.value.totalSamples as int
      < (r as int + 1) * info.value.sampleRate as int
  {
    match info
    case None => 0
    case Some(s) => (s.totalSamples as int / s.sampleRate as int) as u64
  }

  /** All values under `key` joined with ", ", or "" without the key. */
  function TextField(comments: map<string, seq<string>>, key: string): string {
    Join(if key in comments then comments[key] else [], ", ")
  }

  /** The first value under `key` (or "0") parsed as a `u32`. */
  function NumberField(comments: map<string, seq<string>>, key: string): Result<u32, IntErrorKind> {
    var values := if key in comments then comments[key] else [];
    ParseU32(if |values| > 0 then values[0] else "0")
  }

  /** The record built from a FLAC tag (src/handlers/tag_parser/mod.rs:110-141);
      the track number is parsed before the disc number. */
  function FlacInfo(comments: Option<map<string, seq<string>>>, length: u64, art: Option<seq<byte>>,
                    path: string, lastModified: Timestamp): Result<TrackInfo, TagError>
  {
    match comments
    case None => Success(TrackInfo("", "", "", "", 0, 0, length, art, path, lastModified))
    case Some(c) =>
      match NumberField(c, "TRACKNUMBER")
      case Failure(k) => Failure(InvalidNumber(k))
      case Success(track) =>
        match NumberField(c, "DISCNUMBER")
        case Failure(k) => Failure(InvalidNumber(k))
        case Success(disc) =>
          Success(TrackInfo(
            TextField(c, "TITLE"), TextField(c, "ARTIST"), TextField(c, "ALBUM"), TextField(c, "ALBUMARTIST"),
            track, disc, length, art, path, lastModified))
  }

  /** What `parse_flac` returns. */
  function FlacResult(path: string, lastModified: Timestamp, tagRead: Result<FlacTag, DecodeError>): Result<TrackInfo, TagError>
    requires tagRead.Success? ==> SampleRateNonZero(tagRead.value)
  {
    match tagRead
    case Failure(e) => Failure(Unreadable(e))
    case Success(tag) =>
      FlacInfo(tag.vorbisComments, FlacLength(tag.streamInfo), FirstFrontCover(tag.pictures), path, lastModified)
  }

  /** `parse_tag` reaches the FLAC division only for an existing ".flac" file that metaflac read. */
  predicate NoPanic(file: AudioFile) {
    file.modified.Success? && file.extension == Extension("flac") && file.flac.Success?
    ==> SampleRateNonZero(file.flac.value)
  }

  /** What `parse_tag` returns: metadata first, then the extension, then the format's parser. */
  function TagResult(path: string, file: AudioFile): Result<TrackInfo, TagError>
    requires NoPanic(file)
  {
    match file.modified
    case Failure(e) => Failure(Metadata(e))
    case Success(lastModified) =>
      match file.extension
      case NoExtension => Failure(MissingExtension(path))
      case NonUnicode => Failure(InvalidExtension(path))
      case Extension(ext) =>
        if ext == "mp3" then Mp3Result(path, lastModified, file.id3, file.mp3Duration)
        else if ext == "flac" then FlacResult(path, lastModified, file.flac)
        else Failure(UnsupportedExtension(path, ext))
  }

  // ---------------------------------------------------------------------------
  // The parser

  /** The picture loop of src/handlers/tag_parser/mod.rs:53-65 and 96-108:
      advance the iterator until a front cover is seen or it runs out. */
  method SelectFrontCover(pictures: seq<Picture>) returns (picture: Option<seq<byte>>)
    ensures picture == FirstFrontCover(pictures)
  {
    var rest := pictures;
    picture := None;
    while true
      invariant FirstFrontCover(rest) == FirstFrontCover(pictures)
      invariant picture == None
      decreases |rest|
    {
      if rest != [] {
        var current := rest[0];
        rest := rest[1..];
        if current.pictureType == CoverFront {
          picture := Some(current.data);
          break;
        }
      } else {
        break;
      }
    }
  }

  method ParseMp3(path: string, lastModified: Timestamp, tagRead: Result<Id3Tag, DecodeError>,
                  duration: Result<Duration, DecodeError>) returns (r: Result<TrackInfo, TagError>)
    ensures r == Mp3Result(path, lastModified, tagRead, duration)
  {
    if tagRead.Failure? {
      return Failure(Unreadable(tagRead.error));
    }
    var tag := tagRead.value;
    var picture := SelectFrontCover(tag.pictures);
    r := Success(Mp3Info(tag, duration, picture, path, lastModified));
  }

  method ParseFlac(path: string, lastModified: Timestamp, tagRead: Result<FlacTag, DecodeError>)
    returns (r: Result<TrackInfo, TagError>)
    requires tagRead.Success? ==> SampleRateNonZero(tagRead.value)
    ensures r == FlacResult(path, lastModified, tagRead)
  {
    if tagRead.Failure? {
      return Failure(Unreadable(tagRead.error));
    }
    var tag := tagRead.value;
    var trackLength: u64;
    if tag.streamInfo.Some? {
      var info := tag.streamInfo.value;
      trackLength := (info.totalSamples as int / info.sampleRate as int) as u64;
    } else {
      trackLength := 0;
    }
    var picture := SelectFrontCover(tag.pictures);
    r := FlacInfo(tag.vorbisComments, trackLength, picture, path, lastModified);
  }

  /** `parse_tag`: only the exact, lower-case extensions "mp3" and "flac" are parsed. */
  method ParseTag(path: string, file: AudioFile) returns (r: Result<TrackInfo, TagError>)
    requires NoPanic(file)
    ensures r == TagResult(path, file)
    ensures r.Success? ==> file.extension == Extension("mp3") || file.extension == Extension("flac")
    ensures file.modified.Failure? ==> r == Failure(Metadata(file.modified.error))
    ensures file.modified.Success? && file.extension.Extension? && file.extension.text !in {"mp3", "flac"}
      ==> r == Failure(UnsupportedExtension(path, file.extension.text))
  {
    if file.modified.Failure? {
      return Failure(Metadata(file.modified.error));
    }
    var lastModified := file.modified.value;
    match file.extension
    case NoExtension => r := Failure(MissingExtension(path));
    case NonUnicode => r := Failure(InvalidExtension(path));
    case Extension(ext) =>
      if ext == "mp3" {
        r := ParseMp3(path, lastModified, file.id3, file.mp3Duration);
      } else if ext == "flac" {
        r := ParseFlac(path, lastModified, file.flac);
      } else {
        r := Failure(UnsupportedExtension(path, ext));
      }
  }

  // ---------------------------------------------------------------------------
  // Properties

  /** The art is the data of the first front-cover picture; other picture
      types are skipped, and there is none without a front cover. */
  lemma {:induction false} FirstFrontCoverSpec(pictures: seq<Picture>)
    ensures FirstFrontCover(pictures).Some? <==>
      exists i :: 0 <= i < |pictures| && pictures[i].pictureType == CoverFront
    ensures FirstFrontCover(pictures).Some? ==>
      exists i :: IsFirstFrontCover(pictures, i) && FirstFrontCover(pictures).value == pictures[i].data
  {
    if pictures != [] && pictures[0].pictureType != CoverFront {
      var rest := pictures[1..];
      FirstFrontCoverSpec(rest);
      if exists i :: 0 <= i < |pictures| && pictures[i].pictureType == CoverFront {
        var i :| 0 <= i < |pictures| && pictures[i].pictureType == CoverFront;
        assert rest[i - 1] == pictures[i];
      }
      if FirstFrontCover(rest).Some? {
        var i :| IsFirstFrontCover(rest, i) && FirstFrontCover(rest).value == rest[i].data;
        assert forall j :: 1 <= j <= i ==> pictures[j] == rest[j - 1];
        assert IsFirstFrontCover(pictures, i + 1);
      }
    } else if pictures != [] {
      assert IsFirstFrontCover(pictures, 0);
    }
  }

  /** Any failure of `parse_tag` other than a bad number in a FLAC comment,
      and every success, is decided by the file's metadata, extension and decoder. */
  lemma ParseTagOutcome(path: string, file: AudioFile)
    requires NoPanic(file)
    ensures TagResult(path, file).Success? ==>
      (file.modified.Success?
       && TagResult(path, file).value.pathStr == path
       && TagResult(path, file).value.lastModified == file.modified.value)
    ensures file.modified.Success? && file.extension == NoExtension
      ==> TagResult(path, file) == Failure(MissingExtension(path))
    ensures file.modified.Success? && file.extension == NonUnicode
      ==> TagResult(path, file) == Failure(InvalidExtension(path))
    ensures file.modified.Success? && file.extension == Extension("mp3")
      ==> (TagResult(path, file).Success? <==> file.id3.Success?)
    ensures file.modified.Success? && file.extension == Extension("MP3")
      ==> TagResult(path, file) == Failure(UnsupportedExtension(path, "MP3"))
  {
    assert "MP3" != "mp3" && "MP3" != "flac";
  }

  /** The text of each error `parse_tag` reports on its own (src/handlers/tag_parser/mod.rs:35,36,45),
      and that of a FLAC number that does not parse. */
  lemma ErrorMessages(path: string, file: AudioFile)
    requires NoPanic(file)
    ensures var r := TagResult(path, file);
      r.Failure? ==>
        (r.error.MissingExtension? ==> r.error.Message() == "File at " + path + " has no extension")
        && (r.error.InvalidExtension? ==> r.error.Message() == "File at " + path + " has invalid extension")
        && (r.error.UnsupportedExtension? ==>
              r.error.Message() == "File at " + path + " has unsupported extension " + file.extension.text)
        && (r.error.InvalidNumber? ==> r.error.Message() == IntErrorMessage(r.error.kind))
        && (r.error.Metadata? ==> r.error.Message() == file.modified.error.message)
  {
  }

  /** MP3 fallbacks: absent text frames become "", absent numbers 0, and a
      duration that cannot be computed gives length 0 instead of an error. */
  lemma Mp3Fallbacks(path: string, lastModified: Timestamp, tag: Id3Tag, duration: Result<Duration, DecodeError>)
    ensures var r := Mp3Result(path, lastModified, Success(tag), duration);
      r.Success?
      && (tag.title.None? ==> r.value.trackName == "")
      && (tag.title.Some? ==> r.value.trackName == tag.title.value)
      && (tag.artist.None? ==> r.value.artistName == "")
      && (tag.artist.Some? ==> r.value.artistName == tag.artist.value)
      && (tag.album.None? ==> r.value.albumName == "")
      && (tag.album.Some? ==> r.value.albumName == tag.album.value)
      && (tag.albumArtist.None? ==> r.value.albumArtistName == "")
      && (tag.albumArtist.Some? ==> r.value.albumArtistName == tag.albumArtist.value)
      && (tag.track.None? ==> r.value.trackNumber == 0)
      && (tag.track.Some? ==> r.value.trackNumber == tag.track.value)
      && (tag.disc.None? ==> r.value.discNumber == 0)
      && (tag.disc.Some? ==> r.value.discNumber == tag.disc.value)
      && (duration.Failure? ==> r.value.lengthSeconds == 0)
      && (duration.Success? ==> r.value.lengthSeconds == duration.value.secs)
      && r.value.pathStr == path && r.value.lastModified == lastModified
  {
  }

  /** The art of a parsed MP3 or FLAC file is that of its first front cover. */
  lemma ParsedArtIsFirstFrontCover(path: string, file: AudioFile)
    requires NoPanic(file)
    ensures var r := TagResult(path, file);
      r.Success? ==>
        var pictures := if file.extension == Extension("mp3") then file.id3.value.pictures else file.flac.value.pictures;
        (r.value.art.None? <==> forall i :: 0 <= i < |pictures| ==> pictures[i].pictureType != CoverFront)
        && (r.value.art.Some? ==> exists i :: IsFirstFrontCover(pictures, i) && r.value.art.value == pictures[i].data)
  {
    var r := TagResult(path, file);
    if r.Success? {
      if file.extension == Extension("mp3") {
        FirstFrontCoverSpec(file.id3.value.pictures);
      } else {
        FirstFrontCoverSpec(file.flac.value.pictures);
      }
    }
  }

  /** A FLAC text field is every value under its key joined with ", ": a
      single value unchanged, "" when the key is absent. */
  lemma TextFieldSpec(comments: map<string, seq<string>>, key: string, extra: string)
    ensures key !in comments ==> TextField(comments, key) == ""
    ensures key in comments && |comments[key]| == 1 ==> TextField(comments, key) == comments[key][0]
    ensures key in comments && |comments[key]| > 0 ==>
      TextField(comments[key := comments[key] + [extra]], key) == TextField(comments, key) + ", " + extra
  {
    if key in comments && |comments[key]| > 0 {
      JoinSnoc(comments[key], extra, ", ");
    }
  }

  /** A FLAC number is the first value under its key as a `u32`, 0 when the
      key is absent or has no value; later values are ignored. */
  lemma NumberFieldSpec(comments: map<string, seq<string>>, key: string, later: seq<string>)
    ensures key !in comments ==> NumberField(comments, key) == Success(0)
    ensures key in comments && comments[key] == [] ==> NumberField(comments, key) == Success(0)
    ensures key in comments && |comments[key]| > 0 ==>
      NumberField(comments[key := comments[key] + later], key) == ParseU32(comments[key][0])
    ensures key in comments && |comments[key]| > 0 ==>
      (NumberField(comments, key).Success? <==>
        (var d := UnsignedDigits(comments[key][0]); d != [] && AllDigits(d) && ValueFrom(0, d) <= U32_MAX))
  {
    assert ParseU32("0") == Success(0);
    if key in comments && |comments[key]| > 0 {
      ParseU32Spec(comments[key][0]);
    }
  }

  /** A FLAC file whose first track number is written "3/12" is not parsed at
      all, whatever its other comments say. */
  lemma FlacRejectsTrackOfTotal(path: string, lastModified: Timestamp, tag: FlacTag)
    requires SampleRateNonZero(tag) && tag.vorbisComments.Some?
    requires "TRACKNUMBER" in tag.vorbisComments.value
    requires |tag.vorbisComments.value["TRACKNUMBER"]| > 0
    requires tag.vorbisComments.value["TRACKNUMBER"][0] == "3/12"
    ensures FlacResult(path, lastModified, Success(tag)) == Failure(InvalidNumber(InvalidDigit))
  {
    ParseU32Examples();
  }

  /** `parse_flac` fails exactly when metaflac fails or a number does not parse. */
  lemma FlacOutcome(path: string, lastModified: Timestamp, tagRead: Result<FlacTag, DecodeError>)
    requires tagRead.Success? ==> SampleRateNonZero(tagRead.value)
    ensures var r := FlacResult(path, lastModified, tagRead);
      r.Failure? <==>
        (tagRead.Failure? ||
         (tagRead.value.vorbisComments.Some? &&
          (NumberField(tagRead.value.vorbisComments.value, "TRACKNUMBER").Failure? ||
           NumberField(tagRead.value.vorbisComments.value, "DISCNUMBER").Failure?)))
    ensures var r := FlacResult(path, lastModified, tagRead);
      r.Success? ==>
        (r.value.pathStr == path && r.value.lastModified == lastModified
         && r.value.lengthSeconds == FlacLength(tagRead.value.streamInfo)
         && r.value.art == FirstFrontCover(tagRead.value.pictures))
  {
  }

  /** Without a Vorbis comment block every text is "" and every number 0, but
      the length and the art are still those of the file. */
  lemma FlacWithoutComments(path: string, lastModified: Timestamp, tag: FlacTag)
    requires SampleRateNonZero(tag) && tag.vorbisComments.None?
    ensures var r := FlacResult(path, lastModified, Success(tag));
      r.Success?
      && r.value.trackName == "" && r.value.artistName == "" && r.value.albumName == ""
      && r.value.albumArtistName == "" && r.value.trackNumber == 0 && r.value.discNumber == 0
      && r.value.lengthSeconds == FlacLength(tag.streamInfo)
      && r.value.art == FirstFrontCover(tag.pictures)
  {
  }

  /** With a comment block whose numbers parse, each text field is the joined
      values of its key and each number the first value's. */
  lemma FlacWithComments(path: string, lastModified: Timestamp, tag: FlacTag)
    requires SampleRateNonZero(tag) && tag.vorbisComments.Some?
    requires NumberField(tag.vorbisComments.value, "TRACKNUMBER").Success?
    requires NumberField(tag.vorbisComments.value, "DISCNUMBER").Success?
    ensures var c := tag.vorbisComments.value;
      var r := FlacResult(path, lastModified, Success(tag));
      r.Success?
      && r.value.trackName == TextField(c, "TITLE") && r.value.artistName == TextField(c, "ARTIST")
      && r.value.albumName == TextField(c, "ALBUM") && r.value.albumArtistName == TextField(c, "ALBUMARTIST")
      && r.value.trackNumber == NumberField(c, "TRACKNUMBER").value
      && r.value.discNumber == NumberField(c, "DISCNUMBER").value
  {
  }
}
