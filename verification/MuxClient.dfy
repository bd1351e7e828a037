/**
 * The client's end of one WSS connection: the session records of src/client/tunnel.cpp and the pre-open
 * buffering of src/client/local_proxy.cpp.  Every function is one atomic step of the source.
 */
module MuxClient {
  import opened Common

  type Id = nat

  /** Messages a client sends, in the order it writes them. */
  datatype Up =
    | Connect(id: Id, host: string, port: nat)
    | UpData(id: Id, payload: Bytes)
    | HalfClose(id: Id)
    | UpClose(id: Id)

  /** Messages a server sends. */
  datatype Down =
    | Connected(id: Id)
    | DownData(id: Id, payload: Bytes)
    | Close(id: Id, reason: string)
    | Error(id: Id, message: string)

  /** `Open` and writable, `Open` but the next write fails, or no longer `Open`.  A link never recovers. */
  datatype Link = Healthy | Broken | Shut

  datatype State = Connecting | Open | Closed

  datatype Cause =
    | ServerClose(reason: string)
    | ServerError(message: string)
    | ClientClosed
    | SendFailed
    | LinkDown(reason: string)

  /** The calls the tunnel makes on a session's callbacks. */
  datatype Callback = OnOpen | OnData(payload: Bytes) | OnError(message: string) | OnClose(cause: Cause)

  /**
   * One tunnel session together with the proxy closure that owns it.  `openAt`, `halfAt` and `closeAt` remember
   * where in the connection's upstream the session's own control messages were written.
   */
  datatype Session = Session(
    host: string, port: nat,
    state: State, closed: bool, uplinkClosed: bool,
    head: seq<Bytes>, pending: seq<Bytes>, ready: bool, halfPending: bool,
    pumpDone: bool, proxyClosed: bool,
    uploaded: Bytes, calls: seq<Callback>,
    openAt: nat, halfAt: Option<nat>, closeAt: Option<nat>)

  /** `live` is the key set of `sessions_`; `up` is everything written to this connection so far. */
  datatype Client = Client(link: Link, live: set<Id>, sess: map<Id, Session>, up: seq<Up>)

  /** Everything the pump has to deliver: the rebuilt request head, then what it read. */
  function Upload(t: Session): Bytes {
    Flat(t.head) + t.uploaded
  }

  function Update(c: Client, i: Id, t: Session): Client {
    c.(sess := c.sess[i := t])
  }

  // ----- WssTunnel --------------------------------------------------------------

  function NewSession(host: string, port: nat, head: seq<Bytes>, at: nat): Session {
    Session(host, port, Connecting, false, false, head, [], false, false, false, false, [], [], at, None, None)
  }

  /** `openSession` after `allocId`, with the proxy's callbacks attached; no session unless the connect is written. */
  function OpenSession(c: Client, i: Id, host: string, port: nat, head: seq<Bytes>): Client {
    if !c.link.Healthy? then c
    else c.(live := c.live + {i}, sess := c.sess[i := NewSession(host, port, head, |c.up|)],
            up := c.up + [Connect(i, host, port)])
  }

  /** `closeSession`; `onClose` also marks the proxy closed. */
  function CloseSession(c: Client, i: Id, cause: Cause, notifyServer: bool): Client
    requires i in c.sess
  {
    var t := c.sess[i];
    if t.closed then c
    else
      var told := notifyServer && c.link.Healthy?;
      var t' := t.(closed := true, state := Closed, proxyClosed := true, calls := t.calls + [OnClose(cause)],
                   closeAt := if told then Some(|c.up|) else t.closeAt);
      c.(live := c.live - {i}, sess := c.sess[i := t'], up := if told then c.up + [UpClose(i)] else c.up)
  }

  /** `push` */
  function Push(c: Client, i: Id, data: Bytes): (r: (Client, bool))
    requires i in c.sess
    ensures i in r.0.sess
  {
    var t := c.sess[i];
    if t.closed || t.uplinkClosed || c.link.Shut? then (c, false)
    else if c.link.Broken? then (CloseSession(c, i, SendFailed, false), false)
    else (c.(up := c.up + [UpData(i, data)]), true)
  }

  /** `pushEnd` */
  function PushEnd(c: Client, i: Id): (c': Client)
    requires i in c.sess
    ensures i in c'.sess
  {
    var t := c.sess[i];
    if t.closed || t.uplinkClosed then c
    else if c.link.Healthy? then
      c.(sess := c.sess[i := t.(uplinkClosed := true, halfAt := Some(|c.up|))], up := c.up + [HalfClose(i)])
    else Update(c, i, t.(uplinkClosed := true))
  }

  // ----- the proxy's callbacks and pump -------------------------------------------

  function PushAll(c: Client, i: Id, chunks: seq<Bytes>): (c': Client)
    requires i in c.sess
    ensures i in c'.sess
    decreases |chunks|
  {
    if chunks == [] then c else PushAll(Push(c, i, chunks[0]).0, i, chunks[1..])
  }

  /** Session `i`, now in state `t`, has its waiting bytes sent. */
  function Flushed(c: Client, i: Id, t: Session): (c': Client)
    requires i in c.sess
    ensures i in c'.sess
  {
    var c1 := Update(c, i, t);
    var c2 := PushAll(c1, i, t.head + t.pending);
    Update(c2, i, c2.sess[i].(pending := []))
  }

  /** The proxy's `onOpen`: note the opening, send what waited, then a half-close that waited. */
  function ProxyOpened(c: Client, i: Id, t: Session): (c': Client)
    requires i in c.sess
  {
    var c' := Flushed(c, i, t.(ready := true));
    if c'.sess[i].halfPending then PushEnd(c', i) else c'
  }

  /** One successful read of the pump. */
  function PumpRead(c: Client, i: Id, chunk: Bytes): Client
    requires i in c.sess
  {
    var t := c.sess[i].(uploaded := c.sess[i].uploaded + chunk);
    if t.ready then
      var (c', ok) := Push(Update(c, i, t), i, chunk);
      if ok then c' else Update(c', i, c'.sess[i].(pumpDone := true))
    else Update(c, i, t.(pending := t.pending + [chunk]))
  }

  /** The pump reads end of file. */
  function PumpEof(c: Client, i: Id): Client
    requires i in c.sess
  {
    var t := c.sess[i].(pumpDone := true);
    if t.ready then PushEnd(Update(c, i, t), i) else Update(c, i, t.(halfPending := true))
  }

  /** The pump stops because the local socket went away. */
  function PumpStop(c: Client, i: Id): Client
    requires i in c.sess
  {
    Update(c, i, c.sess[i].(pumpDone := true))
  }

  /** After the pump has ended the proxy closes the session unless it was closed already. */
  function ProxyExit(c: Client, i: Id): Client
    requires i in c.sess
  {
    if c.sess[i].proxyClosed then c
    else CloseSession(Update(c, i, c.sess[i].(proxyClosed := true)), i, ClientClosed, true)
  }

  // ----- messages from the server ---------------------------------------------------

  function Ended(t: Session, calls: seq<Callback>): Session {
    t.(closed := true, state := Closed, proxyClosed := true, calls := t.calls + calls)
  }

  /** `handleControl` and the binary handler. */
  function Receive(c: Client, m: Down): Client
    requires c.live <= c.sess.Keys
  {
    var i := m.id;
    if i !in c.live then c
    else
      var t := c.sess[i];
      match m
      case Connected(_) =>
        if t.state != Connecting then c
        else ProxyOpened(c, i, t.(state := Open, calls := t.calls + [OnOpen]))
      case DownData(_, p) =>
        if t.closed then c else Update(c, i, t.(calls := t.calls + [OnData(p)]))
      case Close(_, reason) =>
        c.(live := c.live - {i}, sess := c.sess[i := Ended(t, [OnClose(ServerClose(reason))])])
      case Error(_, message) =>
        c.(live := c.live - {i},
           sess := c.sess[i := Ended(t, [OnError(message), OnClose(ServerError(message))])])
  }

  /** `onDisconnected`: the link is no longer open and every live session ends. */
  function Disconnected(c: Client, reason: string): Client {
    Client(Shut, {},
           map i | i in c.sess ::
             if i in c.live then Ended(c.sess[i], [OnError(reason), OnClose(LinkDown(reason))]) else c.sess[i],
           c.up)
  }
}
