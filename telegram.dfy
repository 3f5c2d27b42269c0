/**
 * The Telegram Bot API values one update carries, reduced to the fields the
 * bridge reads. Integers are the API's 64-bit `Integer`, kept unbounded here.
 */
module Telegram {
  import opened Wrappers

  datatype User = User(id: int, firstName: string, lastName: Option<string>, username: Option<string>)

  /** What every downloadable attachment (and each size of a photo) carries. */
  datatype FileInfo = FileInfo(fileId: string, fileSize: Option<int>)

  /** The kind of a message and its payload; kinds the bridge never reads are folded into `Other`. */
  datatype MessageType =
    | Text(text: string)
    | Audio(file: FileInfo)
    | Document(file: FileInfo)
    | Photo(photos: seq<FileInfo>)
    | Sticker(file: FileInfo)
    | Video(file: FileInfo)
    | Voice(file: FileInfo)
    | Other

  /** A supergroup arrives as a `Group` whose `isSupergroup` flag is set. */
  datatype Chat =
    | Private(id: int)
    | Group(id: int, title: string, isSupergroup: bool)
    | Channel(id: int, title: string)

  datatype Message = Message(from: User, chat: Chat, msg: MessageType)
}
