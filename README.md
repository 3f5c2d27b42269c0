# tiercel relay core in Dafny

tiercel bridges IRC channels and Telegram groups. Each configured pair links
one Telegram group title to one IRC channel. When a PRIVMSG arrives on a
mapped channel, it is sent to the group's numeric chat id as
`"<nick> text"`, once that id is known. When a group text arrives, it is sent
to the mapped channel as `"<first last> text"`. With media relay on, a group
photo is downloaded and a link to the copy is sent instead. Group chat ids are
learned from the first message a group sends, saved, and never changed after
that.

This model covers the per-message decisions of the two handlers in
`src/main.rs`, the reversed routing map built at start-up, and the
file-extraction and media-naming helpers of `src/types.rs`. It has six modules:

- `Wrappers` holds `Option`, as in Rust, and `Last`, which is `last()` on a slice.
- `Strings` models `str::split` on one character. It proves that splitting
  always yields a piece, that joining the pieces gives the string back, and
  that the last piece is exactly the text after the final separator.
- `Web` represents a `PathBuf` as its components. A `hyper::Url` is an origin
  plus its path segments. It also gives `push`, `set_file_name`, and the `Display`
  form of a URL.
- `Telegram` holds the update values the bridge reads: users, chats, message kinds.
- `Types` models `src/types.rs`. It has `RelayState` with its outbound queue,
  `Config`, `file_id_size`, `TGFile`, `generate_name`, `replace_filename`,
  `get_username`, `user_path`, `push_url`, `user_url`, `download_file` and
  `download_file_user`.
- `Bridge` models `src/main.rs`. It has `format_tg_nick`, the reversed map,
  discovery, the names-only `download_file`, and the shared `RelayState` as a
  class. One `HandleIrc` or `HandleTg` call handles one message.

Both handlers return the send they would make as a value: a `TgSend` for
Telegram, an `IrcAction` for IRC. `HandleTg` also returns the table that
`save_chat_ids` would write, or `None` when nothing is saved. Calls to code
outside the model are inputs:

- which characters the random generator yields;
- the URL Telegram gives for a photo;
- whether a download succeeded;
- the order in which the configured `HashMap` lists its keys.

`src/main.rs:137-142` (`user_path`) has the same body as `get_username` in
`src/types.rs:187-192`, so both are modelled once, by `Types.GetUsername`. The
`Config` record of `src/main.rs:41-50` matches the one in
`src/types.rs:61-70` and is modelled once, as `Types.Config`.

## Behaviour worth noting

- `replace_filename` in `src/types.rs:129-134` keeps a dotless name whole:
  `"catfile"` with stem `"abc123"` becomes `"abc123.catfile"`. `split('.')`
  always has a last piece, so its `None` arm is never reached (see
  `Types.ReplaceFilenameDotless` and `Types.ReplaceFilenameKeepsExtension`).
- The Telegram handler in `src/main.rs:226-293` sends text as
  `"<first last> text"` and photos as a link. Every other message kind sends
  nothing, and so do messages from private chats and channels. Supergroups
  arrive as groups (`Chat::Group` with `is_supergroup` set), so they are
  discovered and relayed like any other group.
- The photo path in `src/main.rs` calls the `download_file` of
  `src/main.rs:111-131`, which keeps the file's original name. The random
  six-character renaming is done only by `src/types.rs`, which `main.rs` does
  not call.
- With media relay on and a photo to fetch, a missing download directory or
  base URL makes the handler panic at `unwrap` (`src/main.rs:260-261`). In the
  model this is the `Halt` action.

## Model

| member | source | states |
|---|---|---|
| `Types.RelayState.constructor` | src/types.rs:32-41 | the three maps are stored as given and the IRC queue starts empty |
| `Types.RelayState.SendMessageIrc` | src/types.rs:43-45 | the queue grows by exactly one, earlier entries are unchanged, the new last entry is `msg`, and only the queue is modified |
| `Types.FileIdSize` | src/types.rs:96-109 | Photo gives the id and size of the last (largest) size; Document, Audio, Video and Voice give their own; the result is `None` exactly for Text, Sticker and every other kind; an empty photo list is excluded because `unwrap` panics on it |
| `Types.FromMessage` | src/types.rs:78-93 | a `TGFile` exists exactly when `file_id_size` finds an id whose size is known, and `file_id()` and `file_size()` then return that id and size |
| `Types.GenerateName` | src/types.rs:124-127 | the stem has exactly six characters, all ASCII letters or digits |
| `Strings.Split` | src/types.rs:130 | `split` always yields at least one piece |
| `Strings.SplitJoin` | src/types.rs:130 | joining the pieces with the separator gives back the original string, and no piece contains the separator |
| `Strings.LastPieceIsFinal` | src/types.rs:130 | the last piece is a suffix without a separator, and it is either the whole string or directly preceded by a separator |
| `Strings.FinalPieceUnique` | src/types.rs:130 | only one string fits that description, so "the text after the last dot" is well defined |
| `Types.ReplaceFilenameKeepsExtension` | src/types.rs:129-134 | the `None` arm is unreachable; the result is the new name, a dot, and exactly the text after the last dot of the original |
| `Types.ReplaceFilenameDotless` | src/types.rs:129-134 | a name without a dot is kept whole: the result is `name + "." + filename` |
| `Types.ReplaceFilenameWithExtension` | src/types.rs:129-134 | `"cat.jpg"` with stem `"abc123"` becomes `"abc123.jpg"` |
| `Types.GetUsername` | src/types.rs:187-192 | the result is the username when there is one, otherwise `"anonymous"` |
| `Types.UserPath` | src/types.rs:171-175 | the base directory with exactly one component, the username key, appended |
| `Types.PushUrl` | src/types.rs:177-181 | the origin is kept, the path grows by exactly one segment, earlier segments are unchanged, and the new last segment is the item |
| `Types.UserUrl` | src/types.rs:183-185 | the base URL with the username key as its one extra segment |
| `Types.DownloadFile` | src/types.rs:149-165 | the file goes to `destination/F` and the returned URL is `baseurl/F`, where `F` is `replace_filename` of the source URL's last segment with the generated stem; a URL is returned exactly when the transfer succeeds |
| `Types.DownloadFileUser` | src/types.rs:111-122 | the file goes to `base_dir/<user>/F` and the URL is `base_url/<user>/F`, with the same `F`; `F` is the six-character stem, a dot, and the source name's text after its last dot |
| `Bridge.FormatTgNick` | src/main.rs:52-59 | the result starts with the first name; it is exactly the first name when there is no last name, otherwise the first name followed by `" " + last` |
| `Bridge.RelayLine` | src/main.rs:177-179 | the line is `<`, the nick, `> ` and the message, in that order, and nothing else: its length is the two lengths plus three |
| `Bridge.RelayLineRoundTrip` | src/main.rs:177-179 | a `"<nick> message"` line gives its nick and message back when the nick has no `>`, so the relayed text identifies sender and body |
| `Bridge.Inverse` | src/main.rs:330-332 | the reversed map has exactly the configured channels as keys, and every channel maps to a group that the configuration maps back to it |
| `Bridge.InverseOfInjective` | src/main.rs:330-332 | with a one-to-one configuration, `tg_group[irc_channel[g]] == g` for every group, every channel leads back to itself, and the channel set is the configuration's values |
| `Bridge.Discover` | src/main.rs:230-235 | existing chat ids are never changed or removed; a group title always ends up present; an unknown title gets the chat's id; nothing besides that title is added; other chat kinds change nothing |
| `Bridge.DiscoverIdempotent` | src/main.rs:230-235 | handling the same chat twice learns no more than handling it once |
| `Bridge.MediaLink` | src/main.rs:265-278 | the relayed link is the base URL's text followed by `/`, the user's key, `/` and the last segment of the file URL |
| `Bridge.DownloadFile` | src/main.rs:111-131 | the local path is `destination/<last URL segment>` and the returned URL is `baseurl/<same segment>` |
| `Bridge.RelayState.constructor` | src/main.rs:329-339 | `irc_channel` is the configured `maps`, `tg_group` is its reverse, and the chat ids are those loaded |
| `Bridge.RelayState.HandleIrc` | src/main.rs:168-194 | a send happens exactly for a PRIVMSG with a source nick on a channel in `tg_group` whose group has a chat id; it goes to that id with text `"<nick> text"`; the state is only read |
| `Bridge.RelayState.HandleTg` | src/main.rs:226-293 | chat ids become `Discover` of the old ones; a save happens exactly when a group's title was unknown, and it writes the new table; only a group in `irc_channel` is relayed to; a text is sent as `"<first last> text"`; a photo with relay on becomes a link to `base_url/<user>/<file>` or a halt when a setting is missing; other kinds, and photos with relay off, send nothing |
| `Bridge.RelayState.DiscoveryThenIrc` | src/main.rs:230-235 | after the Telegram handler has seen a group, its id is known (the one just learned, or the earlier one); the handler halts exactly when it would download a photo for a mapped group and the download directory, the base URL or the file URL's path is missing; unless it halted, the next PRIVMSG on the group's mapped channel goes to that id |
| `Bridge.RelayState.RepeatedTgMessage` | src/main.rs:230-235 | handling the same Telegram message twice gives the same action twice, saves nothing the second time, and leaves the chat ids as after the first time |

## Left out

- `src/error.rs`: it only wraps library error types and has no logic; errors appear in the model as `None` or `Halt`.
- TOML loading and saving (`load_toml`, `load_config`, `load_chat_ids`, `save_chat_ids`): file I/O and a library. A save is modelled only by the table that would be written. Writing the channel list into the IRC settings (`src/main.rs:97`) is also left out.
- HTTP and filesystem effects are left out: `download_to_file`, the request in `src/main.rs:113-114`, `File::create`, `io::copy`, `ensure_dir`, `tg.get_file` and `get_file_url`. Whether a transfer succeeds, and the file URL Telegram returns, are inputs.
- Threads, the `Mutex`, the loops over incoming IRC messages and Telegram updates, the error branches that log or exit, and `process::exit`: one call handles one message, as if holding the lock.
- The panics of `unwrap` on transport calls (`src/main.rs:252`, `258`, `272`, `273`, `283`) and on failing file creation are not modelled. The photo path treats these calls as successful.
- The randomness of `generate_name`: its character stream is an input.
- `Url` internals: only URLs with a hierarchical path (http, https) are modelled. A URL without one would panic at `path_mut().unwrap()` (`src/types.rs:179`, `src/main.rs:129`, `src/main.rs:271`). A URL with an empty path would panic at `path().unwrap().last().unwrap()` (`src/types.rs:151`, `src/main.rs:117`); `Types.DownloadFile`, `Types.DownloadFileUser` and `Bridge.DownloadFile` require a non-empty path instead. Queries, fragments and percent-encoding are not modelled.
- `PathBuf` internals: a pushed component is treated as one plain component. An absolute component would replace the path in Rust; the model does not do this.
- How the IRC client derives the sender nick from the message prefix: the nick is part of the input.
- Bootstrap in `main`: connecting, SASL, `identify`, `get_me`, the three-second wait and joining the threads. The `debug` flag only controls logging, and all logging is left out.
- Telegram's 64-bit `Integer` ids and sizes are unbounded integers.
- Message kinds the bridge never inspects, such as contacts and locations, are merged into one `Other` kind.
- `Bridge.RelayState.HandleTg`: `Halt` covers every `unwrap` panic the model keeps, without telling them apart: a missing download directory, a missing base URL, or a file URL with an empty path.
- `Bridge.RelayState.HandleTg`: in the source a `Halt` is a panic while the lock taken at `src/main.rs:214` is held. The panic poisons the lock, so every later `lock().unwrap()` (`src/main.rs:155`, `214`) panics too and relaying ends in both directions. The model does not carry this across calls; a later call works as if the lock were still usable.
