/**
 * src/types.rs: the relay state with its outbound IRC queue, the
 * configuration record, the extraction of a downloadable file from a
 * Telegram message, and the naming of downloaded media on disk and on the web.
 */
module Types {
  import opened Wrappers
  import opened Strings
  import opened Web
  import opened Telegram

  /** The routing maps and chat ids, plus the queue of lines bound for IRC. */
  class RelayState {
    /** IRC channel to Telegram group. */
    var tgGroup: map<string, string>
    /** Telegram group to IRC channel. */
    var ircChannel: map<string, string>
    /** Telegram group title to numeric chat id. */
    var chatIds: map<string, int>
    /** Lines waiting to be sent in the Telegram to IRC direction (a `VecDeque`). */
    var ircMessageQueue: seq<string>

    /** `RelayState::new`: the three maps as given and an empty queue. */
    constructor (tgGroup: map<string, string>, ircChannel: map<string, string>, chatIds: map<string, int>)
      ensures this.tgGroup == tgGroup && this.ircChannel == ircChannel && this.chatIds == chatIds
      ensures ircMessageQueue == []
    {
      this.tgGroup := tgGroup;
      this.ircChannel := ircChannel;
      this.chatIds := chatIds;
      ircMessageQueue := [];
    }

    /** `send_message_irc`: `push_back` onto the queue; the maps are untouched. */
    method SendMessageIrc(msg: string)
      modifies this`ircMessageQueue
      ensures |ircMessageQueue| == |old(ircMessageQueue)| + 1
      ensures ircMessageQueue[..|old(ircMessageQueue)|] == old(ircMessageQueue)
      ensures ircMessageQueue[|ircMessageQueue| - 1] == msg
    {
      ircMessageQueue := ircMessageQueue + [msg];
    }
  }

  /** The decoded configuration file (connection settings and token left out). */
  datatype Config = Config(
    maps: map<string, string>,
    debug: Option<bool>,
    relayMedia: Option<bool>,
    baseUrl: Option<Url>,
    downloadDir: Option<Path>)

  /** A file a Telegram message refers to, with a known size. */
  datatype TGFile = TGFile(id: string, size: int) {
    function FileId(): string { id }
    function FileSize(): int { size }
  }

  /**
   * `file_id_size`: the id and declared size of the largest (last) photo, or of
   * the document, audio, video or voice item; nothing for any other kind,
   * stickers included. An empty photo list makes `unwrap` panic, hence the
   * precondition.
   */
  function FileIdSize(msg: MessageType): (r: Option<(string, Option<int>)>)
    requires msg.Photo? ==> |msg.photos| > 0
    ensures msg.Photo? ==> r == Some((msg.photos[|msg.photos| - 1].fileId, msg.photos[|msg.photos| - 1].fileSize))
    ensures (msg.Document? || msg.Audio? || msg.Video? || msg.Voice?) ==> r == Some((msg.file.fileId, msg.file.fileSize))
    ensures r.None? <==> (msg.Text? || msg.Sticker? || msg.Other?)
  {
    match msg
    case Photo(photos) =>
      var largest := Last(photos).value;
      Some((largest.fileId, largest.fileSize))
    case Document(document) => Some((document.fileId, document.fileSize))
    case Audio(audio) => Some((audio.fileId, audio.fileSize))
    case Video(video) => Some((video.fileId, video.fileSize))
    case Voice(voice) => Some((voice.fileId, voice.fileSize))
    case _ => None
  }

  /** `TGFile::from_message`: a file exactly when `file_id_size` finds one whose size is known. */
  function FromMessage(msg: MessageType): (r: Option<TGFile>)
    requires msg.Photo? ==> |msg.photos| > 0
    ensures r.Some? <==> FileIdSize(msg).Some? && FileIdSize(msg).value.1.Some?
    ensures r.Some? ==> r.value.FileId() == FileIdSize(msg).value.0
    ensures r.Some? ==> Some(r.value.FileSize()) == FileIdSize(msg).value.1
  {
    match FileIdSize(msg)
    case Some((fileId, Some(fileSize))) => Some(TGFile(fileId, fileSize))
    case _ => None
  }

  /** Length of the random stem given to downloaded files. */
  const NameLength: nat := 6

  /** The characters `gen_ascii_chars` draws from. */
  predicate IsAsciiAlphanumeric(c: char) {
    'A' <= c <= 'Z' || 'a' <= c <= 'z' || '0' <= c <= '9'
  }

  /**
   * `generate_name`: the first six characters of the generator's stream of
   * random alphanumeric characters, which is passed in as `randomChars`.
   */
  function GenerateName(randomChars: seq<char>): (name: string)
    requires |randomChars| >= NameLength
    requires forall i | 0 <= i < |randomChars| :: IsAsciiAlphanumeric(randomChars[i])
    ensures |name| == NameLength
    ensures forall i | 0 <= i < |name| :: IsAsciiAlphanumeric(name[i])
  {
    randomChars[..NameLength]
  }

  /**
   * `replace_filename`: the new stem, a dot, and the last piece of the
   * original name split at dots.
   */
  function ReplaceFilename(filename: string, name: string): string {
    match Last(Split(filename, '.'))
    case Some(ext) => name + "." + ext
    case None => name
  }

  /**
   * The renamed file is the stem, a dot and the original's extension, that is
   * the text after its last dot; the `None` arm is never taken, since a split
   * always has a last piece.
   */
  lemma ReplaceFilenameKeepsExtension(filename: string, name: string)
    ensures Last(Split(filename, '.')).Some?
    ensures var r := ReplaceFilename(filename, name);
      && |r| > |name|
      && r[..|name| + 1] == name + "."
      && IsFinalPiece(filename, '.', r[|name| + 1..])
  {
    var ps := Split(filename, '.');
    LastPieceIsFinal(filename, '.');
    var r := ReplaceFilename(filename, name);
    assert r == name + "." + ps[|ps| - 1];
    assert r[|name| + 1..] == ps[|ps| - 1];
  }

  /** A name without a dot is kept whole after the stem and a dot: `"catfile"` gives `"abc123.catfile"`. */
  lemma ReplaceFilenameDotless(filename: string, name: string)
    requires '.' !in filename
    ensures ReplaceFilename(filename, name) == name + "." + filename
  {
    ReplaceFilenameKeepsExtension(filename, name);
    var r := ReplaceFilename(filename, name);
    assert r == name + "." + r[|name| + 1..];
  }

  /** `"cat.jpg"` renamed with stem `"abc123"` is `"abc123.jpg"`. */
  lemma ReplaceFilenameWithExtension()
    ensures ReplaceFilename("cat.jpg", "abc123") == "abc123.jpg"
  {
    var r := ReplaceFilename("cat.jpg", "abc123");
    ReplaceFilenameKeepsExtension("cat.jpg", "abc123");
    var e := r[7..];
    assert "cat.jpg"[4..] == "jpg" && "cat.jpg"[3] == '.';
    assert '.' !in "jpg";
    FinalPieceUnique("cat.jpg", '.', e, "jpg");
    assert r == r[..7] + e;
  }

  /** `get_username`: the user's handle, or `"anonymous"` when there is none. */
  function GetUsername(user: User): (key: string)
    ensures user.username.Some? ==> key == user.username.value
    ensures user.username.None? ==> key == "anonymous"
  {
    match user.username
    case Some(name) => name
    case None => "anonymous"
  }

  /** `user_path`: the download directory with exactly the user's key appended. */
  method UserPath(user: User, path: Path) returns (userPath: Path)
    ensures userPath.components == path.components + [GetUsername(user)]
  {
    userPath := path;
    userPath := userPath.Push(GetUsername(user));
  }

  /** `push_url`: one more path segment, everything else of the URL kept. */
  method PushUrl(url: Url, item: string) returns (r: Url)
    ensures r.origin == url.origin
    ensures |r.path| == |url.path| + 1
    ensures r.path[..|url.path|] == url.path && r.path[|url.path|] == item
  {
    r := url;
    r := r.PushSegment(item);
  }

  /** `user_url`: the base URL with the user's key as one more segment. */
  method UserUrl(user: User, baseUrl: Url) returns (r: Url)
    ensures r == Url(baseUrl.origin, baseUrl.path + [GetUsername(user)])
  {
    r := PushUrl(baseUrl, GetUsername(user));
  }

  /**
   * `download_file` without its transfer: the file is written under
   * `destination` and published under `baseurl` with one and the same name,
   * the random stem plus the extension of the URL's last segment. Whether
   * `download_to_file` succeeded is the parameter `transferred`; on failure no
   * URL is returned. A URL with an empty path makes `unwrap` panic.
   */
  method DownloadFile(url: Url, destination: Path, baseurl: Url, randomChars: seq<char>, transferred: bool)
    returns (path: Path, result: Option<Url>)
    requires |url.path| > 0
    requires |randomChars| >= NameLength
    requires forall i | 0 <= i < |randomChars| :: IsAsciiAlphanumeric(randomChars[i])
    ensures var name := ReplaceFilename(url.path[|url.path| - 1], GenerateName(randomChars));
      && path == Path(destination.components + [name])
      && (result.Some? ==> result.value == Url(baseurl.origin, baseurl.path + [name]))
    ensures result.Some? <==> transferred
  {
    var filename := Last(url.path).value;
    var hash := GenerateName(randomChars);
    var name := ReplaceFilename(filename, hash);
    path := destination;
    path := path.Push(name);
    path := path.SetFileName(name);
    assert path.components == destination.components + [name];
    if !transferred {
      return path, None;
    }
    var returl := PushUrl(baseurl, name);
    result := Some(returl);
  }

  /**
   * `download_file_user`: the file lands at `base_dir/<user>/<F>` and the
   * returned URL is `base_url/<user>/<F>`, where `F` is the random six-character
   * stem, a dot, and the extension of the source URL's last segment.
   */
  method DownloadFileUser(url: Url, user: User, baseDownloadDir: Path, baseUrl: Url,
                          randomChars: seq<char>, transferred: bool)
    returns (path: Path, result: Option<Url>)
    requires |url.path| > 0
    requires |randomChars| >= NameLength
    requires forall i | 0 <= i < |randomChars| :: IsAsciiAlphanumeric(randomChars[i])
    ensures var name := ReplaceFilename(url.path[|url.path| - 1], GenerateName(randomChars));
      && path == Path(baseDownloadDir.components + [GetUsername(user), name])
      && (result.Some? ==> result.value == Url(baseUrl.origin, baseUrl.path + [GetUsername(user), name]))
    ensures result.Some? <==> transferred
    ensures var name := path.components[|path.components| - 1];
      && |name| > NameLength
      && name[..NameLength + 1] == GenerateName(randomChars) + "."
      && IsFinalPiece(url.path[|url.path| - 1], '.', name[NameLength + 1..])
  {
    var baseUserPath := UserPath(user, baseDownloadDir);
    var baseUserUrl := UserUrl(user, baseUrl);
    var key := GetUsername(user);
    var name := ReplaceFilename(url.path[|url.path| - 1], GenerateName(randomChars));
    path, result := DownloadFile(url, baseUserPath, baseUserUrl, randomChars, transferred);
    assert baseDownloadDir.components + [key] + [name] == baseDownloadDir.components + [key, name];
    assert baseUrl.path + [key] + [name] == baseUrl.path + [key, name];
    ReplaceFilenameKeepsExtension(url.path[|url.path| - 1], GenerateName(randomChars));
  }
}
