/**
 * The server's end of one WSS connection: src/server/session_manager.cpp.  `handleConnect` and `closeSession` are
 * split at their locks and blocking calls, so that other threads' steps fall between their phases.
 */
module MuxServer {
  import opened Common
  import opened MuxClient
  import Ssrf

  /** `session->socket_`: not yet dialed, connected, or closed and dropped. */
  datatype Socket = NoSocket | Live | Released

  /** The thread that carries target bytes to the client; `Holding` is a chunk read and not yet sent. */
  datatype Reader = NotStarted | Waiting | Holding(chunk: Bytes) | Done

  /** What a `closeSession` still has to do once it has taken the session out of the map. */
  datatype Release = CloseSocket(notify: bool, reason: string) | Notify(reason: string)

  /**
   * One server session.  `written` and `finSent` are what its target received; `produced` and `peerClosed` what
   * the target did; `read` what the reader thread has taken of it.  `release` is a `closeSession` under way, and
   * `announcedAt` and `closeAt` remember where downstream the session's `connected` and `close` were written.
   */
  datatype Target = Target(
    host: string, port: nat, socket: Socket, uplinkClosed: bool, published: bool,
    written: Bytes, finSent: bool,
    produced: Bytes, peerClosed: bool, read: Bytes, reader: Reader,
    release: Option<Release>, announcedAt: Option<nat>, closeAt: Option<nat>)

  /** Where the read loop is inside `handleConnect`. */
  datatype Handler =
    | Idle
    | Checked(id: Id, host: string, port: nat)
    | Inserted(id: Id)
    | Resolved(id: Id, dial: Dial)
    | Failing(id: Id)
    | Dialed(id: Id)
    | Published(id: Id)
    | Announced(id: Id)

  /** An address handed to `TcpSocket::connectTo`, with the guard's answer it came from. */
  datatype Dial = Dial(host: string, lookup: Ssrf.Lookup, address: string)

  /**
   * `live` is the key set of `sessions_`, `targets` every session object made, `down` everything written to this
   * connection so far; `endAt` remembers where in it a session's first `close` or `error` is.
   */
  datatype Server = Server(
    link: Link, maxSessions: nat, closed: bool, stopped: bool, cleared: bool,
    live: set<Id>, targets: map<Id, Target>, handler: Handler, down: seq<Down>,
    endAt: map<Id, nat>, dials: seq<Dial>)

  const TARGET_CLOSED := "target closed"

  function Set(s: Server, i: Id, t: Target): Server {
    s.(targets := s.targets[i := t])
  }

  /** A write to the connection: it goes out only while the link is healthy. */
  function Send(s: Server, m: Down): Server {
    if !s.link.Healthy? then s
    else
      s.(down := s.down + [m],
         endAt := if (m.Close? || m.Error?) && m.id !in s.endAt then s.endAt[m.id := |s.down|] else s.endAt)
  }

  /** Where the next message will stand, if the link takes it. */
  function NextAt(s: Server): Option<nat> {
    if s.link.Healthy? then Some(|s.down|) else None
  }

  // ----- handleConnect, phase by phase --------------------------------------------

  function ConnectCheck(s: Server, i: Id, host: string, port: nat): Server {
    if s.closed then s
    else if i in s.live then Send(s, Error(i, "duplicate sessionId"))
    else if |s.live| >= s.maxSessions then Send(s, Error(i, "per-connection session limit reached"))
    else s.(handler := Checked(i, host, port))
  }

  function Insert(s: Server): Server
    requires s.handler.Checked?
  {
    var i := s.handler.id;
    var t := Target(s.handler.host, s.handler.port, NoSocket, false, false, [], false, [], false, [], NotStarted,
                    None, None, None);
    s.(live := s.live + {i}, targets := s.targets[i := t], handler := Inserted(i))
  }

  /** `guardTarget` returns; `lookup` is what the resolver did. */
  function GuardPhase(s: Server, lookup: Ssrf.Lookup): Server
    requires s.handler.Inserted? && s.handler.id in s.targets
  {
    var i := s.handler.id;
    var host := s.targets[i].host;
    var guard := Ssrf.Guard(host, lookup);
    if s.closed then s.(live := s.live - {i}, handler := Idle)
    else if !guard.ok then Send(s, Error(i, guard.reason)).(handler := Failing(i))
    else s.(handler := Resolved(i, Dial(host, lookup, if guard.addresses == [] then host else guard.addresses[0])))
  }

  /** `connectTo` is handed the checked address and returns a socket or nothing. */
  function DialPhase(s: Server, connected: bool): Server
    requires s.handler.Resolved? && s.handler.id in s.targets
  {
    var i := s.handler.id;
    var s' := s.(dials := s.dials + [s.handler.dial]);
    if connected then Set(s', i, s.targets[i].(socket := Live)).(handler := Dialed(i))
    else Send(s', Error(i, "target socket error: connect failed")).(handler := Failing(i))
  }

  /** The session of a connect that failed leaves the map; it never had a socket. */
  function FailPhase(s: Server): Server
    requires s.handler.Failing?
  {
    s.(live := s.live - {s.handler.id}, handler := Idle)
  }

  /** The second look at the map: publish the socket, or drop it when the session is gone. */
  function PublishPhase(s: Server): Server
    requires s.handler.Dialed? && s.handler.id in s.targets
  {
    var i := s.handler.id;
    if s.closed || i !in s.live then Set(s, i, s.targets[i].(socket := Released)).(handler := Idle)
    else Set(s, i, s.targets[i].(published := true)).(handler := Published(i))
  }

  function AnnouncePhase(s: Server): Server
    requires s.handler.Published? && s.handler.id in s.targets
  {
    var i := s.handler.id;
    Set(Send(s, Connected(i)), i, s.targets[i].(announcedAt := NextAt(s))).(handler := Announced(i))
  }

  function StartReader(s: Server): Server
    requires s.handler.Announced? && s.handler.id in s.targets
  {
    var i := s.handler.id;
    Set(s, i, s.targets[i].(reader := Waiting)).(handler := Idle)
  }

  // ----- closing ----------------------------------------------------------------------

  /** `closeSession` up to the end of its lock. */
  function BeginClose(s: Server, i: Id, reason: string, notify: bool): Server
    requires s.live <= s.targets.Keys
  {
    if i !in s.live then s
    else Set(s, i, s.targets[i].(release := Some(CloseSocket(notify, reason)))).(live := s.live - {i})
  }

  /** The rest of `closeSession`: the socket, then the notification. */
  function ReleaseStep(s: Server, i: Id): Server
    requires i in s.targets && s.targets[i].release.Some?
  {
    var t := s.targets[i];
    match t.release.value
    case CloseSocket(notify, reason) =>
      Set(s, i, t.(socket := if t.socket.Live? then Released else t.socket,
                   release := if notify then Some(Notify(reason)) else None))
    case Notify(reason) =>
      Set(Send(s, Close(i, reason)), i, t.(release := None, closeAt := NextAt(s)))
  }

  /** `stop`, then `destroyAll`, each raise a flag before the map is touched. */
  function RaiseStopped(s: Server): Server {
    s.(stopped := true)
  }

  function RaiseClosed(s: Server): Server {
    s.(closed := true)
  }

  /** `destroyAll` empties the map under the lock; the sockets are closed afterwards, one by one. */
  function ClearAll(s: Server): Server {
    s.(cleared := true, live := {},
       targets := map i | i in s.targets ::
         if i in s.live then s.targets[i].(release := Some(CloseSocket(true, "manager stopped"))) else s.targets[i])
  }

  // ----- messages from the client --------------------------------------------------------

  /** `handleData`; the target accepts the first `taken` bytes, and the write fails unless it takes them all. */
  function HandleData(s: Server, i: Id, payload: Bytes, taken: nat): Server
    requires taken <= |payload| && s.live <= s.targets.Keys
  {
    if s.closed || i !in s.live then s
    else
      var t := s.targets[i];
      if !t.socket.Live? || t.uplinkClosed then s
      else
        var s' := Set(s, i, t.(written := t.written + payload[..taken]));
        if taken < |payload| then BeginClose(s', i, "target write failed", true) else s'
  }

  function HandleHalfClose(s: Server, i: Id): Server
    requires s.live <= s.targets.Keys
  {
    if s.closed || i !in s.live then s
    else
      var t := s.targets[i];
      Set(s, i, t.(uplinkClosed := true, finSent := t.finSent || t.socket.Live?))
  }

  function HandleClose(s: Server, i: Id): Server
    requires s.live <= s.targets.Keys
  {
    BeginClose(s, i, "client closed", false)
  }

  // ----- the target and its reader thread ---------------------------------------------------

  function TargetSend(s: Server, i: Id, bytes: Bytes): Server
    requires i in s.targets
  {
    Set(s, i, s.targets[i].(produced := s.targets[i].produced + bytes))
  }

  function TargetEnd(s: Server, i: Id): Server
    requires i in s.targets
  {
    Set(s, i, s.targets[i].(peerClosed := true))
  }

  /** `readSome` returns the next `n` bytes. */
  function ReaderTake(s: Server, i: Id, n: nat): Server
    requires i in s.targets && |s.targets[i].read| + n <= |s.targets[i].produced|
  {
    var t := s.targets[i];
    var chunk := t.produced[|t.read|..|t.read| + n];
    Set(s, i, t.(read := t.read + chunk, reader := Holding(chunk)))
  }

  /** The chunk goes to the client, or the session ends because the connection does not take it. */
  function ReaderSend(s: Server, i: Id): Server
    requires i in s.targets && s.targets[i].reader.Holding? && s.live <= s.targets.Keys
  {
    var t := s.targets[i];
    match s.link
    case Healthy => Send(Set(s, i, t.(reader := Waiting)), DownData(i, t.reader.chunk))
    case Broken => BeginClose(Set(s, i, t.(reader := Done)), i, "wss send failed", false)
    case Shut => BeginClose(Set(s, i, t.(reader := Done)), i, "wss closed", false)
  }

  /** `readSome` returns end of file, or the session has been idle too long. */
  function ReaderEnd(s: Server, i: Id, reason: string): Server
    requires i in s.targets && s.live <= s.targets.Keys
  {
    BeginClose(Set(s, i, s.targets[i].(reader := Done)), i, reason, true)
  }

  /** The thread notices that the manager stopped or the socket is gone. */
  function ReaderExit(s: Server, i: Id): Server
    requires i in s.targets
  {
    Set(s, i, s.targets[i].(reader := Done))
  }
}
