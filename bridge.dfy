/**
 * src/main.rs: the shared relay state built at start-up, and what each of the
 * two ingest threads does with one message while it holds the state's lock.
 * The IRC side relays a channel message to the mapped Telegram group when
 * that group's chat id is known; the Telegram side first learns the chat id of
 * any group it hears from, then relays text (and, when enabled, a link to a
 * downloaded photo) to the mapped IRC channel. Sends are returned as values.
 */
module Bridge {
  import opened Wrappers
  import opened Web
  import opened Telegram
  import Types

  /** The IRC commands the handler tells apart; everything but PRIVMSG is ignored. */
  datatype Command =
    | Privmsg(target: string, text: string)
    | Notice(target: string, text: string)
    | Join(channel: string)
    | OtherCommand(name: string)

  /** An IRC message with the nickname taken from its prefix, when it has one. */
  datatype IrcMessage = IrcMessage(sourceNick: Option<string>, command: Command)

  /** `tg.send_message(id, text, ..)`. */
  datatype TgSend = TgSend(chatId: int, text: string)

  /** What the Telegram handler does towards IRC: nothing, `send_privmsg`, or a panic on an `unwrap`. */
  datatype IrcAction = NoSend | SendPrivmsg(channel: string, text: string) | Halt

  /** `format_tg_nick`: the first name, followed by a space and the last name when there is one. */
  function FormatTgNick(user: User): (nick: string)
    ensures |nick| >= |user.firstName| && nick[..|user.firstName|] == user.firstName
    ensures user.lastName.None? <==> |nick| == |user.firstName|
    ensures user.lastName.Some? ==> nick[|user.firstName|..] == " " + user.lastName.value
  {
    match user.lastName
    case None => user.firstName
    case Some(last) => user.firstName + " " + last
  }

  /** The relayed line `"<nick> message"` both directions send. */
  function RelayLine(nick: string, message: string): (line: string)
    ensures |line| == |nick| + |message| + 3
    ensures line[0] == '<' && line[1..|nick| + 1] == nick
    ensures line[|nick| + 1..|nick| + 3] == "> " && line[|nick| + 3..] == message
  {
    "<" + nick + "> " + message
  }

  /** The position of the first `c` in `s`, or `|s|` when there is none. */
  function IndexOf(s: string, c: char): (i: nat)
    ensures i <= |s|
    ensures i < |s| ==> s[i] == c
    ensures c !in s[..i]
  {
    if |s| == 0 then 0
    else if s[0] == c then 0
    else 1 + IndexOf(s[1..], c)
  }

  /**
   * Reads a relayed line back: the text between a leading `<` and the first
   * `>`, and what follows the `"> "` after it.
   */
  function ParseRelayLine(line: string): Option<(string, string)> {
    if |line| == 0 || line[0] != '<' then None
    else
      var k := IndexOf(line[1..], '>');
      if k + 2 < |line| && line[k + 1] == '>' && line[k + 2] == ' ' then Some((line[1..k + 1], line[k + 3..]))
      else None
  }

  /**
   * A relayed line gives back its sender and its body as long as the nick has
   * no `>` (IRC forbids it in nicknames), so different senders or bodies never
   * produce the same line.
   */
  lemma RelayLineRoundTrip(nick: string, message: string)
    requires '>' !in nick
    ensures ParseRelayLine(RelayLine(nick, message)) == Some((nick, message))
  {
    var line := RelayLine(nick, message);
    var rest := line[1..];
    assert rest == nick + "> " + message;
    assert rest[|nick|] == '>';
    assert rest[..|nick|] == nick;
    assert IndexOf(rest, '>') == |nick|;
    assert line[1..|nick| + 1] == nick;
    assert line[|nick| + 3..] == message;
  }

  /**
   * The reversed mapping `maps.iter().map(|(k, v)| (v, k)).collect()`, where
   * `order` is the order in which the map hands out its keys: a pair inserted
   * later replaces an earlier one with the same channel.
   */
  function Inverse(maps: map<string, string>, order: seq<string>): (inverse: map<string, string>)
    requires forall g | g in order :: g in maps
    ensures inverse.Keys == set g | g in order :: maps[g]
    ensures forall c | c in inverse :: inverse[c] in order && maps[inverse[c]] == c
    decreases |order|
  {
    if |order| == 0 then map[]
    else
      var g := order[|order| - 1];
      var front := order[..|order| - 1];
      assert forall h | h in order :: h in front || h == g;
      Inverse(maps, front)[maps[g] := g]
  }

  ghost predicate Injective(m: map<string, string>) {
    forall a, b | a in m && b in m && a != b :: m[a] != m[b]
  }

  /**
   * With a one-to-one configuration the two maps are inverse bijections: every
   * group's channel leads back to the group, and every channel to a group that
   * leads back to it.
   */
  lemma InverseOfInjective(maps: map<string, string>, order: seq<string>)
    requires forall g :: g in order <==> g in maps
    requires Injective(maps)
    ensures Inverse(maps, order).Keys == maps.Values
    ensures forall g | g in maps :: maps[g] in Inverse(maps, order) && Inverse(maps, order)[maps[g]] == g
    ensures forall c | c in Inverse(maps, order) :: Inverse(maps, order)[c] in maps && maps[Inverse(maps, order)[c]] == c
  {
    var inverse := Inverse(maps, order);
    forall g | g in maps ensures maps[g] in inverse && inverse[maps[g]] == g {
      assert g in order;
      assert maps[g] in inverse.Keys;
      var h := inverse[maps[g]];
      assert maps[h] == maps[g];
    }
    forall c | c in maps.Values ensures c in inverse {
      var g :| g in maps && maps[g] == c;
      assert g in order;
    }
  }

  /**
   * Discovery: a group chat whose title has no known id adds that title with
   * the chat's id; nothing else ever changes the chat ids.
   */
  function Discover(chatIds: map<string, int>, chat: Chat): (r: map<string, int>)
    ensures forall g | g in chatIds :: g in r && r[g] == chatIds[g]
    ensures chat.Group? ==> chat.title in r
    ensures chat.Group? && chat.title !in chatIds ==> r[chat.title] == chat.id
    ensures r.Keys <= chatIds.Keys + (if chat.Group? then {chat.title} else {})
    ensures !chat.Group? ==> r == chatIds
  {
    if chat.Group? && chat.title !in chatIds then chatIds[chat.title := chat.id] else chatIds
  }

  /** Hearing the same chat again learns nothing more. */
  lemma DiscoverIdempotent(chatIds: map<string, int>, chat: Chat)
    ensures Discover(Discover(chatIds, chat), chat) == Discover(chatIds, chat)
  {
  }

  /**
   * The link relayed for a downloaded photo: the base URL with the user's key
   * and the file's name pushed, as text. It reads as the base URL's own text
   * followed by `/<user>/<file name>`.
   */
  function MediaLink(baseUrl: Url, user: User, fileUrl: Url): (link: string)
    requires |fileUrl.path| > 0
    ensures link == baseUrl.ToString() + "/" + Types.GetUsername(user) + "/" + fileUrl.path[|fileUrl.path| - 1]
  {
    var name := fileUrl.path[|fileUrl.path| - 1];
    var key := Types.GetUsername(user);
    var withUser := baseUrl.path + [key];
    var segments := withUser + [name];
    assert segments == baseUrl.path + [key, name];
    assert segments[..|segments| - 1] == withUser;
    assert withUser[..|withUser| - 1] == baseUrl.path;
    assert SegmentsText(withUser) == SegmentsText(baseUrl.path) + "/" + key;
    assert SegmentsText(segments) == SegmentsText(withUser) + "/" + name;
    Url(baseUrl.origin, segments).ToString()
  }

  /**
   * main.rs `download_file`, names only: the file keeps the last segment of
   * its URL as its name, both on disk under `destination` and in the returned
   * URL under `baseurl`. The transfer itself is not part of this model.
   */
  method DownloadFile(url: Url, destination: Path, baseurl: Url) returns (path: Path, returl: Url)
    requires |url.path| > 0
    ensures path.components == destination.components + [url.path[|url.path| - 1]]
    ensures returl == Url(baseurl.origin, baseurl.path + [url.path[|url.path| - 1]])
  {
    var filename := Last(url.path).value;
    path := destination;
    path := path.Push(filename);
    returl := baseurl;
    returl := returl.PushSegment(filename);
  }

  /** The state both threads share behind one lock. */
  class RelayState {
    /** IRC channel to Telegram group. */
    var tgGroup: map<string, string>
    /** Telegram group to IRC channel. */
    var ircChannel: map<string, string>
    /** Telegram group title to numeric chat id; only ever grows. */
    var chatIds: map<string, int>

    /**
     * The state `main` builds: the configured `maps` as group to channel, its
     * reverse as channel to group, and the chat ids loaded from disk.
     */
    constructor (maps: map<string, string>, order: seq<string>, chatIds: map<string, int>)
      requires forall g :: g in order <==> g in maps
      ensures ircChannel == maps && tgGroup == Inverse(maps, order) && this.chatIds == chatIds
    {
      ircChannel := maps;
      tgGroup := Inverse(maps, order);
      this.chatIds := chatIds;
    }

    /**
     * One message of `handle_irc`: a PRIVMSG with a sender nick, on a mapped
     * channel whose group has a known chat id, is sent to that id as
     * `"<nick> text"`; anything else is dropped. The state is only read.
     */
    method HandleIrc(msg: IrcMessage) returns (send: Option<TgSend>)
      ensures send.Some? <==>
        && msg.command.Privmsg?
        && msg.sourceNick.Some?
        && msg.command.target in tgGroup
        && tgGroup[msg.command.target] in chatIds
      ensures send.Some? ==>
        send.value == TgSend(chatIds[tgGroup[msg.command.target]], RelayLine(msg.sourceNick.value, msg.command.text))
    {
      send := None;
      match msg.command {
        case Privmsg(channel, t) =>
          match msg.sourceNick {
            case Some(nick) =>
              if channel in tgGroup {
                var group := tgGroup[channel];
                if group in chatIds {
                  var id := chatIds[group];
                  send := Some(TgSend(id, RelayLine(nick, t)));
                }
              }
            case None =>
          }
        case _ =>
      }
    }

    /**
     * One message of `handle_tg`. Messages from anything but a group are
     * ignored. From a group, discovery runs first (recording and saving an
     * unknown title's id); then, if the group is mapped, a text is sent to the
     * channel as `"<first last> text"`, and a photo, when media relay is on,
     * becomes a link to its downloaded copy. `file` is the URL the Telegram
     * API gives for the largest photo (`None` when it reports no file path).
     * `saved` is the table `save_chat_ids` writes, if it is called.
     */
    method HandleTg(config: Types.Config, m: Message, file: Option<Url>) returns (action: IrcAction, saved: Option<map<string, int>>)
      modifies this`chatIds
      ensures chatIds == Discover(old(chatIds), m.chat)
      ensures saved.Some? <==> m.chat.Group? && m.chat.title !in old(chatIds)
      ensures saved.Some? ==> saved.value == chatIds
      ensures !(m.chat.Group? && m.chat.title in ircChannel) ==> action == NoSend
      ensures m.chat.Group? && m.chat.title in ircChannel && m.msg.Text? ==>
        action == SendPrivmsg(ircChannel[m.chat.title], RelayLine(FormatTgNick(m.from), m.msg.text))
      ensures !m.msg.Text? && !m.msg.Photo? ==> action == NoSend
      ensures m.msg.Photo? && !(config.relayMedia == Some(true) && |m.msg.photos| > 0 && file.Some?) ==> action == NoSend
      ensures m.chat.Group? && m.chat.title in ircChannel && m.msg.Photo?
              && config.relayMedia == Some(true) && |m.msg.photos| > 0 && file.Some? ==>
        action == if config.downloadDir.None? || config.baseUrl.None? || |file.value.path| == 0 then Halt
                  else SendPrivmsg(ircChannel[m.chat.title],
                                   RelayLine(FormatTgNick(m.from), MediaLink(config.baseUrl.value, m.from, file.value)))
    {
      action, saved := NoSend, None;
      match m.chat {
        case Group(id, title, _) =>
          if title !in chatIds {
            chatIds := chatIds[title := id];
            saved := Some(chatIds);
          }
          if title in ircChannel {
            var channel := ircChannel[title];
            var nick := FormatTgNick(m.from);
            match m.msg {
              case Text(t) =>
                action := SendPrivmsg(channel, RelayLine(nick, t));
              case Photo(ps) =>
                if config.relayMedia.GetOr(false) && Last(ps).Some? && file.Some? {
                  if config.downloadDir.None? || config.baseUrl.None? {
                    action := Halt;
                  } else {
                    var downloadDir := config.downloadDir.value;
                    var baseUrl := config.baseUrl.value;
                    var userPath := Types.GetUsername(m.from);
                    var downloadDirUser := downloadDir.Push(userPath);
                    baseUrl := baseUrl.PushSegment(userPath);
                    var tgUrl := file.value;
                    if |tgUrl.path| == 0 {
                      action := Halt;
                    } else {
                      var localPath, localUrl := DownloadFile(tgUrl, downloadDirUser, baseUrl);
                      assert localUrl.path == config.baseUrl.value.path + [userPath, tgUrl.path[|tgUrl.path| - 1]];
                      action := SendPrivmsg(channel, RelayLine(nick, localUrl.ToString()));
                    }
                  }
                }
              case _ =>
            }
          }
        case _ =>
      }
    }

    /**
     * The Telegram thread handles a group message, then the IRC thread a
     * PRIVMSG on a channel mapped to that group: the id just learned (or the
     * one already known) is where the line goes, with no reload in between.
     * When the Telegram handler panicked (`Halt`), the lock it held is
     * poisoned and the IRC thread sends nothing, so no send is promised then.
     */
    method DiscoveryThenIrc(config: Types.Config, m: Message, file: Option<Url>, channel: string, nick: string, text: string)
      returns (action: IrcAction, send: Option<TgSend>)
      requires m.chat.Group? && channel in tgGroup && tgGroup[channel] == m.chat.title
      modifies this`chatIds
      ensures m.chat.title in chatIds
      ensures chatIds[m.chat.title] == if m.chat.title in old(chatIds) then old(chatIds)[m.chat.title] else m.chat.id
      ensures action == Halt <==>
        && m.chat.title in ircChannel && m.msg.Photo? && config.relayMedia == Some(true)
        && |m.msg.photos| > 0 && file.Some?
        && (config.downloadDir.None? || config.baseUrl.None? || |file.value.path| == 0)
      ensures action != Halt ==> send == Some(TgSend(chatIds[m.chat.title], RelayLine(nick, text)))
    {
      var saved;
      action, saved := HandleTg(config, m, file);
      send := HandleIrc(IrcMessage(Some(nick), Privmsg(channel, text)));
    }

    /** The same Telegram message twice: the second time nothing is learned and nothing saved. */
    method RepeatedTgMessage(config: Types.Config, m: Message, file: Option<Url>)
      returns (first: IrcAction, second: IrcAction, savedAgain: Option<map<string, int>>)
      modifies this`chatIds
      ensures chatIds == Discover(old(chatIds), m.chat)
      ensures savedAgain.None?
      ensures second == first
    {
      var saved;
      first, saved := HandleTg(config, m, file);
      DiscoverIdempotent(old(chatIds), m.chat);
      second, savedAgain := HandleTg(config, m, file);
    }
  }
}
