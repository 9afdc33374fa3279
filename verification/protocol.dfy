/**
 * The values the dispatch logic works on: connection handles, the message
 * header and content, the status notices the server writes itself, and one
 * write issued on a connection.
 */
module Protocol {
  import opened Ids

  /** An opaque handle for one Netty channel. */
  datatype ConnId = ConnId(id: nat)

  /**
   * The header's `chatType` byte. `Unrecognised` stands for a byte that
   * equals none of the five `ChatType` constants: no branch of the handler
   * takes it.
   */
  datatype ChatType = Ping | Login | Chat | GroupChat | Broadcast | Unrecognised

  datatype Header = Header(chatType: ChatType, fromId: Int32, toId: Int32, length: int)

  datatype Message = Message(header: Header, content: seq<bv8>)

  /** The two-entry map (`status`, `message`) that LOGIN serialises as content. */
  datatype Notice = Notice(status: string, message: string)

  const STATUS_OK: string := "1000"
  /** Sent to a session that another login displaces. */
  const DISPLACED_TEXT: string := "你被蹬下线了！"
  /** Sent to the connection that has just logged in. */
  const LOGGED_IN_TEXT: string := "你登录成功了！"

  const DisplacedNotice: Notice := Notice(STATUS_OK, DISPLACED_TEXT)
  const LoggedInNotice: Notice := Notice(STATUS_OK, LOGGED_IN_TEXT)

  /** One `writeAndFlush(msg)` issued on connection `conn`. */
  datatype Send = Send(conn: ConnId, msg: Message)

  /**
   * How `f.sync().isSuccess()` turned out for the eviction write: the write
   * completed, the future completed without success, or `sync()` rethrew
   * the write's failure.
   */
  datatype FlushResult = Flushed | NotFlushed | Raised

  datatype IdleState = ReaderIdle | WriterIdle | AllIdle

  /** What `userEventTriggered` may receive. */
  datatype UserEvent = IdleStateEvent(state: IdleState) | OtherEvent

  /**
   * The header and content rewrite LOGIN applies before each notice: the
   * content becomes the serialised notice, the length field its length,
   * and the ids are swapped by reading back the registry-key texts
   * `fromKey` and `toKey` with `Integer.valueOf`.
   */
  function Readdress(m: Message, fromKey: string, toKey: string, content: seq<bv8>): Message
    requires ParseInt(fromKey).Some? && ParseInt(toKey).Some?
  {
    var h := m.header.(length := |content|);
    var h := h.(toId := ParseInt(fromKey).value);
    var h := h.(fromId := ParseInt(toKey).value);
    Message(h, content)
  }

  /** The notice LOGIN writes, built from the inbound message `m`. */
  function NoticeFor(m: Message, notice: Notice, encode: Notice -> seq<bv8>): (r: Message)
    ensures r.header.chatType == m.header.chatType
    ensures r.header.toId == m.header.fromId && r.header.fromId == m.header.toId
    ensures r.content == encode(notice) && r.header.length == |r.content|
  {
    ParseValueOf(m.header.fromId);
    ParseValueOf(m.header.toId);
    Readdress(m, ValueOf(m.header.fromId), ValueOf(m.header.toId), encode(notice))
  }
}
