/**
 * The server object of src/server/session_manager.cpp.  Each method is the sequential body of the source's; what it
 * does to the state is a composition of the step functions of `MuxServer`, so that a method that runs undisturbed is
 * one of the interleavings the protocol's proofs cover.
 */
module SessionManager {
  import opened Common
  import opened MuxClient
  import opened MuxServer
  import opened MuxCross
  import M = Mux
  import D = DataFrame
  import Ssrf

  // ----- compositions ------------------------------------------------------------------------

  /** `handleConnect` past the insertion, with no other thread in between. */
  function AfterInsert(s: Server, lookup: Ssrf.Lookup, dialed: bool): Server
    requires s.handler.Inserted? && s.handler.id in s.targets
  {
    var s2 := GuardPhase(s, lookup);
    if s2.handler.Failing? then FailPhase(s2)
    else if !s2.handler.Resolved? then s2
    else
      var s3 := DialPhase(s2, dialed);
      if s3.handler.Failing? then FailPhase(s3)
      else
        var s4 := PublishPhase(s3);
        if s4.handler.Published? then StartReader(AnnouncePhase(s4)) else s4
  }

  /** `handleConnect` */
  function ConnectAll(s: Server, i: Id, host: string, port: nat, lookup: Ssrf.Lookup, dialed: bool): Server {
    var s1 := ConnectCheck(s, i, host, port);
    if s1.handler.Checked? then AfterInsert(Insert(s1), lookup, dialed) else s1
  }

  lemma ReleaseFrame(s: Server, i: Id)
    requires i in s.targets && s.targets[i].release.Some?
    ensures var s' := ReleaseStep(s, i);
            && s'.targets.Keys == s.targets.Keys && s'.live == s.live
            && (s'.targets[i].release.Some? ==> s.targets[i].release.value.CloseSocket?)
            && forall j | j in s.targets && j != i :: s'.targets[j] == s.targets[j]
  {
  }

  /** The rest of a `closeSession` that has taken the session out of the map. */
  function FinishClose(s: Server, i: Id): (s': Server)
    requires i in s.targets && s.targets[i].release.Some?
    ensures s'.targets.Keys == s.targets.Keys && s'.live == s.live
    ensures forall j | j in s.targets && j != i :: s'.targets[j] == s.targets[j]
  {
    ReleaseFrame(s, i);
    var s1 := ReleaseStep(s, i);
    if s1.targets[i].release.None? then s1
    else
      ReleaseFrame(s1, i);
      ReleaseStep(s1, i)
  }

  /** `closeSession` */
  function CloseNow(s: Server, i: Id, reason: string, notify: bool): (s': Server)
    requires s.live <= s.targets.Keys
    ensures s'.live == s.live - {i} && s'.targets.Keys == s.targets.Keys
  {
    if i !in s.live then s else FinishClose(BeginClose(s, i, reason, notify), i)
  }

  function CloseEach(s: Server, ids: seq<Id>, reason: string): (s': Server)
    requires s.live <= s.targets.Keys
    ensures s'.live == s.live - (set i | i in ids) && s'.targets.Keys == s.targets.Keys
    decreases |ids|
  {
    if ids == [] then s
    else
      assert forall i: Id :: i in ids <==> i == ids[0] || i in ids[1..];
      CloseEach(CloseNow(s, ids[0], reason, true), ids[1..], reason)
  }

  lemma CloseFirst(s: Server, ids: seq<Id>, reason: string)
    requires s.live <= s.targets.Keys && ids != []
    ensures CloseEach(s, ids, reason) == CloseEach(CloseNow(s, ids[0], reason, true), ids[1..], reason)
  {
    hide CloseNow;
  }

  lemma CloseNone(s: Server, reason: string)
    requires s.live <= s.targets.Keys
    ensures CloseEach(s, [], reason) == s
  {
  }

  /** The loop of `destroyAll`. */
  function ReleaseEach(s: Server, ids: seq<Id>): (s': Server)
    requires forall i | i in ids :: i in s.targets && s.targets[i].release.Some?
    requires Distinct(ids)
    decreases |ids|
  {
    if ids == [] then s
    else
      assert forall j | 0 < j < |ids| :: ids[j] != ids[0] && ids[j] == ids[1..][j - 1];
      ReleaseEach(FinishClose(s, ids[0]), ids[1..])
  }

  /** What one turn of `targetReadLoop` reads. */
  datatype Read = Chunk(n: nat) | Eof | Nothing(idle: bool)

  predicate Readable(t: Target, r: Read) {
    match r
    case Chunk(n) => 0 < n <= M.CHUNK && |t.read| + n <= |t.produced|
    case Eof => t.peerClosed && t.read == t.produced
    case Nothing(_) => true
  }

  /** A session that leaves the map through the reader thread. */
  function ReaderCloses(s: Server, i: Id, reason: string, notify: bool): Server
    requires i in s.targets && s.live <= s.targets.Keys
  {
    CloseNow(Set(s, i, s.targets[i].(reader := Done)), i, reason, notify)
  }

  function ReadTurn(s: Server, i: Id, r: Read): Server
    requires i in s.targets && s.live <= s.targets.Keys && Readable(s.targets[i], r)
  {
    if s.stopped || !s.targets[i].socket.Live? then ReaderExit(s, i)
    else
      match r
      case Eof => ReaderCloses(s, i, TARGET_CLOSED, true)
      case Nothing(idle) => if idle then ReaderCloses(s, i, "target idle timeout", true) else s
      case Chunk(n) =>
        var s1 := ReaderTake(s, i, n);
        match s.link
        case Healthy => ReaderSend(s1, i)
        case Broken => ReaderCloses(s1, i, "wss send failed", false)
        case Shut => ReaderCloses(s1, i, "wss closed", false)
  }

  // ----- the object ------------------------------------------------------------------------------

  class SessionManager {
    const maxSessions: nat
    const idleTimeout: int
    /** The connection as this object sees it, and what it has written. */
    var link: Link
    var down: seq<Down>
    var closed: bool
    var stopped: bool
    /** The key set of `sessions_`, every session object, and `lastActiveMs_` of each. */
    var live: set<Id>
    var targets: map<Id, Target>
    var lastActive: map<Id, int>
    ghost var cleared: bool
    ghost var handler: Handler
    ghost var endAt: map<Id, nat>
    ghost var dials: seq<Dial>

    ghost function View(): Server
      reads this
    {
      Server(link, maxSessions, closed, stopped, cleared, live, targets, handler, down, endAt, dials)
    }

    ghost predicate Valid()
      reads this
    {
      live <= targets.Keys && targets.Keys <= lastActive.Keys && handler.Idle?
    }

    constructor (maxSessions: nat, idleTimeout: int)
      ensures Valid() && this.maxSessions == maxSessions && this.idleTimeout == idleTimeout
      ensures View() == Server(Healthy, maxSessions, false, false, false, {}, map[], Idle, [], map[], [])
    {
      this.maxSessions, this.idleTimeout := maxSessions, idleTimeout;
      link, down, closed, stopped, cleared := Healthy, [], false, false, false;
      live, targets, lastActive, handler, endAt, dials := {}, map[], map[], Idle, map[], [];
    }

    /** `sendJson` and `sendBinary` */
    method SendDown(m: Down) returns (ok: bool)
      modifies this`down, this`endAt
      ensures View() == Send(old(View()), m) && ok == link.Healthy?
    {
      ok := link.Healthy?;
      if ok {
        if (m.Close? || m.Error?) && m.id !in endAt { endAt := endAt[m.id := |down|]; }
        down := down + [m];
      }
    }

    /** `handleConnect`; `lookup` is what the resolver answers, `dialed` whether the dial succeeds. */
    method HandleConnect(i: Id, host: string, port: nat, lookup: Ssrf.Lookup, dialed: bool, now: int)
      requires Valid()
      modifies this
      ensures Valid() && View() == ConnectAll(old(View()), i, host, port, lookup, dialed)
      ensures lastActive == if !closed && i !in old(live) && |old(live)| < maxSessions
                            then old(lastActive)[i := now] else old(lastActive)
    {
      hide Ssrf.Guard, AnnouncePhase, AfterInsert, Send;
      if closed { return; }
      if i in live {
        var _ := SendDown(Error(i, "duplicate sessionId"));
        return;
      }
      if |live| >= maxSessions {
        var _ := SendDown(Error(i, "per-connection session limit reached"));
        return;
      }
      Enter(i, host, port, now);
      var guard := Ssrf.GuardTarget(host, lookup);
      Dialing(i, host, guard, lookup, dialed, now);
    }

    /** The new session enters the map. */
    method Enter(i: Id, host: string, port: nat, now: int)
      requires Valid()
      modifies this`live, this`targets, this`lastActive
      ensures Valid() && i in live && targets[i].host == host && targets[i].socket.NoSocket?
      ensures View().(handler := Inserted(i)) == Insert(old(View()).(handler := Checked(i, host, port)))
      ensures lastActive == old(lastActive)[i := now]
    {
      live := live + {i};
      targets := targets[i := Target(host, port, NoSocket, false, false, [], false, [], false, [], NotStarted, None, None, None)];
      lastActive := lastActive[i := now];
    }

    /** An error goes out and the session leaves the map again. */
    method Refuse(i: Id, message: string)
      requires Valid() && i in live
      modifies this`live, this`down, this`endAt
      ensures Valid() && View() == Refused(old(View()), i, message)
    {
      var _ := SendDown(Error(i, message));
      live := live - {i};
    }

    /** The part of `handleConnect` from the guard's answer on. */
    method Dialing(i: Id, host: string, guard: Ssrf.GuardResult, lookup: Ssrf.Lookup, dialed: bool, now: int)
      requires Valid() && i in live && targets[i].host == host && guard == Ssrf.Guard(host, lookup) && !closed
      requires targets[i].socket.NoSocket?
      modifies this`lastActive, this`live, this`targets, this`down, this`endAt, this`dials
      ensures Valid() && (lastActive == old(lastActive) || lastActive == old(lastActive)[i := now])
      ensures View() == AfterInsert(old(View()).(handler := Inserted(i)), lookup, dialed)
    {
      hide Ssrf.Guard, AfterInsert, Refused, Joined;
      AfterInsertIs(View().(handler := Inserted(i)), lookup, dialed);
      if !guard.ok {
        Refuse(i, guard.reason);
        return;
      }
      DialTo(i, Dial(host, lookup, if guard.addresses == [] then host else guard.addresses[0]), dialed, now);
    }

    /** The dial and what follows from it. */
    method DialTo(i: Id, dial: Dial, dialed: bool, now: int)
      requires Valid() && i in live && !closed
      modifies this`lastActive, this`live, this`targets, this`down, this`endAt, this`dials
      ensures Valid() && lastActive == if dialed then old(lastActive)[i := now] else old(lastActive)
      ensures var tried := old(View()).(dials := old(dials) + [dial]);
              View() == if dialed then Joined(tried, i) else Refused(tried, i, "target socket error: connect failed")
    {
      hide Refused, Joined;
      dials := dials + [dial];
      if !dialed {
        Refuse(i, "target socket error: connect failed");
        return;
      }
      lastActive := lastActive[i := now];
      Join(i);
    }

    /** The dialed socket is published, the client is told, and the reader thread starts. */
    method Join(i: Id)
      requires Valid() && i in live && !closed
      modifies this`targets, this`down, this`endAt
      ensures Valid() && View() == Joined(old(View()), i)
    {
      var t := targets[i].(socket := Live, published := true);
      var at := |down|;
      var sent := SendDown(Connected(i));
      targets := targets[i := t.(announcedAt := if sent then Some(at) else None, reader := Waiting)];
      assert targets.Keys == old(targets.Keys);
    }

    /** `closeSession` */
    method CloseSession(i: Id, reason: string, notifyClient: bool)
      requires live <= targets.Keys && targets.Keys <= lastActive.Keys
      modifies this`live, this`targets, this`down, this`endAt
      ensures live <= targets.Keys && targets.Keys == old(targets.Keys)
      ensures View() == CloseNow(old(View()), i, reason, notifyClient)
    {
      hide CloseNow, Closing;
      CloseNowIs(View(), i, reason, notifyClient);
      if i in live { Drop(i, reason, notifyClient); }
    }

    /** The body of `closeSession` past its early return. */
    method Drop(i: Id, reason: string, notifyClient: bool)
      requires live <= targets.Keys && i in live
      modifies this`live, this`targets, this`down, this`endAt
      ensures live <= targets.Keys && targets.Keys == old(targets.Keys)
      ensures View() == Closing(old(View()), i, reason, notifyClient)
    {
      hide Send, NextAt, Set;
      NextAtKept(View(), i);
      live := live - {i};
      var socket := if targets[i].socket.Live? then Socket.Released else targets[i].socket;
      var t := targets[i].(socket := socket, release := None);
      if notifyClient {
        var at := Report(i, reason);
        t := t.(closeAt := at);
      }
      Store(i, t);
    }

    /** The session's record changes. */
    method Store(i: Id, t: Target)
      requires live <= targets.Keys && i in targets
      modifies this`targets
      ensures View() == Set(old(View()), i, t) && targets.Keys == old(targets.Keys)
    {
      targets := targets[i := t];
    }

    /** The notice of a close, and where it was written. */
    method Report(i: Id, reason: string) returns (at: Option<nat>)
      modifies this`down, this`endAt
      ensures View() == Send(old(View()), Close(i, reason)) && at == NextAt(old(View()))
    {
      var written := |down|;
      var sent := SendDown(Close(i, reason));
      at := if sent then Some(written) else None;
    }

    // ----- messages from the client -----------------------------------------------------------------

    /** `handleData` on the bytes of a binary message; the target accepts `taken` bytes of the payload. */
    method HandleFrame(frame: Bytes, taken: nat, now: int)
      requires Valid() && (|frame| >= D.HEADER ==> taken <= |frame| - D.HEADER)
      modifies this
      ensures Valid()
      ensures View() == match D.DecodeData(frame)
                        case None => old(View())
                        case Some((i, payload)) => HandleDataNow(old(View()), i, payload, taken)
      ensures lastActive == match D.DecodeData(frame)
                            case None => old(lastActive)
                            case Some((i, _)) => if Receives(old(View()), i) then old(lastActive)[i := now] else old(lastActive)
    {
      hide CloseNow;
      if closed { return; }
      var f := D.Decode(frame);
      if f.None? { return; }
      var (i, payload) := f.value;
      if i !in live { return; }
      var t := targets[i];
      if !t.socket.Live? || t.uplinkClosed { return; }
      lastActive := lastActive[i := now];
      targets := targets[i := t.(written := t.written + payload[..taken])];
      if taken < |payload| { CloseSession(i, "target write failed", true); }
    }

    method HandleHalfClose(i: Id, now: int)
      requires Valid()
      modifies this
      ensures Valid() && View() == MuxServer.HandleHalfClose(old(View()), i)
      ensures lastActive == if !closed && i in live then old(lastActive)[i := now] else old(lastActive)
    {
      if closed { return; }
      if i !in live { return; }
      var t := targets[i];
      t := t.(uplinkClosed := true);
      lastActive := lastActive[i := now];
      if t.socket.Live? { t := t.(finSent := true); }
      targets := targets[i := t];
    }

    method HandleClose(i: Id)
      requires Valid()
      modifies this
      ensures Valid() && View() == CloseNow(old(View()), i, "client closed", false) && lastActive == old(lastActive)
    {
      if i in live { CloseSession(i, "client closed", false); }
    }

    // ----- idle sessions, and the end -------------------------------------------------------------------

    /** The vector a loop over the map fills. */
    static method Collect(ids: set<Id>) returns (order: seq<Id>)
      ensures Distinct(order) && forall i: Id :: i in order <==> i in ids
    {
      order := [];
      var rest := ids;
      while rest != {}
        invariant rest <= ids && Distinct(order) && forall i: Id :: i in order <==> i in ids && i !in rest
        decreases |rest|
      {
        var i :| i in rest;
        rest := rest - {i};
        order := order + [i];
      }
    }

    /** `sweepIdle`: exactly the sessions idle for too long are closed, each with a notice. */
    method SweepIdle(now: int) returns (order: seq<Id>)
      requires Valid()
      modifies this
      ensures Valid()
      ensures Distinct(order)
      ensures forall i: Id :: i in order <==> i in old(live) && now - old(lastActive)[i] > idleTimeout
      ensures View() == CloseEach(old(View()), order, "idle timeout") && lastActive == old(lastActive)
    {
      var idle := set i | i in live && now - lastActive[i] > idleTimeout;
      order := Collect(idle);
      SweepAll(order);
    }

    /** The loop of `sweepIdle`. */
    method SweepAll(order: seq<Id>)
      requires Valid()
      modifies this`live, this`targets, this`down, this`endAt
      ensures Valid() && View() == CloseEach(old(View()), order, "idle timeout")
    {
      hide CloseNow, CloseEach;
      ghost var goal := CloseEach(View(), order, "idle timeout");
      assert order[0..] == order;
      for k := 0 to |order|
        invariant Valid() && CloseEach(View(), order[k..], "idle timeout") == goal
      {
        CloseFirst(View(), order[k..], "idle timeout");
        assert order[k..][1..] == order[k + 1..];
        CloseSession(order[k], "idle timeout", true);
      }
      CloseNone(View(), "idle timeout");
    }

    /** `destroyAll`: the map is emptied at once, then every session in it is released and reported. */
    method DestroyAll() returns (order: seq<Id>)
      requires Valid()
      modifies this
      ensures Valid() && closed && live == {} && stopped == old(stopped)
      ensures Distinct(order) && forall i: Id :: i in order <==> i in old(live)
      ensures Releasing(ClearAll(RaiseClosed(old(View()))), order)
      ensures View() == ReleaseEach(ClearAll(RaiseClosed(old(View()))), order)
    {
      hide ClearAll, ReleaseEach, Releasing;
      closed := true;
      order := Collect(live);
      ClearedWait(View(), order);
      ClearMap();
      ReleaseAll(order);
    }

    /** The map is moved out of the object under the lock. */
    method ClearMap()
      requires Valid()
      modifies this`targets, this`live, this`cleared
      ensures Valid() && live == {} && View() == ClearAll(old(View()))
    {
      targets := map i | i in targets ::
        if i in live then targets[i].(release := Some(CloseSocket(true, "manager stopped"))) else targets[i];
      live := {};
      cleared := true;
      assert targets.Keys == old(targets.Keys);
    }

    /** The loop of `destroyAll`. */
    method ReleaseAll(order: seq<Id>)
      requires Valid() && Releasing(View(), order)
      modifies this`targets, this`down, this`endAt
      ensures Valid() && View() == ReleaseEach(old(View()), order)
    {
      ghost var goal := ReleaseEach(View(), order);
      assert order[0..] == order;
      for k := 0 to |order|
        invariant Valid() && Releasing(View(), order[k..]) && ReleaseEach(View(), order[k..]) == goal
      {
        hide FinishClose, ReleaseEach, Dropped, Releasing;
        ReleaseFirst(View(), order[k..]);
        assert order[k..][1..] == order[k + 1..];
        ReleaseOne(order[k]);
      }
    }

    /** One turn of the loop of `destroyAll`. */
    method ReleaseOne(i: Id)
      requires Valid() && i in targets && targets[i].release == Some(CloseSocket(true, "manager stopped"))
      modifies this`targets, this`down, this`endAt
      ensures Valid() && View() == FinishClose(old(View()), i)
    {
      hide FinishClose, Send, NextAt;
      FinishLoudly(View(), i, "manager stopped");
      var t := targets[i];
      var socket := if t.socket.Live? then Socket.Released else t.socket;
      var at := Report(i, "manager stopped");
      Store(i, t.(socket := socket, release := None, closeAt := at));
    }

    /** `stop` */
    method Stop() returns (order: seq<Id>)
      requires Valid()
      modifies this
      ensures Valid() && stopped
      ensures old(stopped) ==> order == [] && View() == old(View())
      ensures !old(stopped) ==>
                var s := ClearAll(RaiseClosed(RaiseStopped(old(View()))));
                Releasing(s, order) && View() == ReleaseEach(s, order)
    {
      if stopped { return []; }
      stopped := true;
      order := DestroyAll();
    }

    // ----- the reader thread ---------------------------------------------------------------------------------

    /** One turn of `targetReadLoop`. */
    method ReaderTurn(i: Id, r: Read, now: int) returns (more: bool)
      requires Valid() && i in targets && Readable(targets[i], r)
      modifies this
      ensures Valid() && View() == ReadTurn(old(View()), i, r)
      ensures lastActive == if r.Chunk? && !old(stopped) && old(targets)[i].socket.Live?
                            then old(lastActive)[i := now] else old(lastActive)
      ensures more <==> !old(stopped) && old(targets)[i].socket.Live? && (r == Nothing(false) || (r.Chunk? && link.Healthy?))
    {
      hide CloseNow, Send;
      var t := targets[i];
      if stopped || !t.socket.Live? {
        targets := targets[i := t.(reader := Done)];
        return false;
      }
      match r
      case Eof =>
        EndTurn(i, t, TARGET_CLOSED, true);
        return false;
      case Nothing(idle) =>
        if idle {
          EndTurn(i, t, "target idle timeout", true);
          return false;
        }
        return true;
      case Chunk(n) =>
        lastActive := lastActive[i := now];
        var chunk := t.produced[|t.read|..|t.read| + n];
        t := t.(read := t.read + chunk);
        ChunkTurn(old(View()), i, n, t, chunk);
        more := Forward(i, t, chunk);
    }

    /** The thread ends, and its session with it. */
    method EndTurn(i: Id, t: Target, reason: string, notifyClient: bool)
      requires Valid() && i in targets
      modifies this`live, this`targets, this`down, this`endAt
      ensures Valid() && View() == CloseNow(Set(old(View()), i, t.(reader := Done)), i, reason, notifyClient)
    {
      hide CloseNow;
      Store(i, t.(reader := Done));
      CloseSession(i, reason, notifyClient);
    }

    /** The second half of a turn: the chunk goes out, or the session ends. */
    method Forward(i: Id, t: Target, chunk: Bytes) returns (more: bool)
      requires Valid() && i in targets
      modifies this`live, this`targets, this`down, this`endAt
      ensures Valid() && (more <==> link.Healthy?)
      ensures View() == match old(link)
                        case Healthy => Send(Set(old(View()), i, t.(reader := Waiting)), DownData(i, chunk))
                        case Broken => CloseNow(Set(old(View()), i, t.(reader := Done)), i, "wss send failed", false)
                        case Shut => CloseNow(Set(old(View()), i, t.(reader := Done)), i, "wss closed", false)
    {
      hide CloseNow;
      if link.Shut? {
        EndTurn(i, t, "wss closed", false);
        return false;
      }
      if link.Broken? {
        EndTurn(i, t, "wss send failed", false);
        return false;
      }
      targets := targets[i := t.(reader := Waiting)];
      more := SendDown(DownData(i, chunk));
    }
  }

  /** A turn that reads a chunk, as one change of the session's record. */
  lemma ChunkTurn(s: Server, i: Id, n: nat, t: Target, chunk: Bytes)
    requires i in s.targets && s.live <= s.targets.Keys && Readable(s.targets[i], Chunk(n))
    requires !s.stopped && s.targets[i].socket.Live?
    requires chunk == s.targets[i].produced[|s.targets[i].read|..|s.targets[i].read| + n]
    requires t == s.targets[i].(read := s.targets[i].read + chunk)
    ensures ReadTurn(s, i, Chunk(n))
         == match s.link
            case Healthy => Send(Set(s, i, t.(reader := Waiting)), DownData(i, chunk))
            case Broken => CloseNow(Set(s, i, t.(reader := Done)), i, "wss send failed", false)
            case Shut => CloseNow(Set(s, i, t.(reader := Done)), i, "wss closed", false)
  {
    hide CloseNow, Send;
    Overwrite(s.targets, i, t.(reader := Holding(chunk)), t.(reader := Waiting));
    Overwrite(s.targets, i, t.(reader := Holding(chunk)), t.(reader := Done));
  }

  /** A data frame for session `i` is written to its target. */
  predicate Receives(s: Server, i: Id)
    requires s.live <= s.targets.Keys
  {
    !s.closed && i in s.live && s.targets[i].socket.Live? && !s.targets[i].uplinkClosed
  }

  /** `handleData` with the closing it may entail carried out. */
  function HandleDataNow(s: Server, i: Id, payload: Bytes, taken: nat): Server
    requires taken <= |payload| && s.live <= s.targets.Keys
  {
    if !Receives(s, i) then s
    else
      var s' := Set(s, i, s.targets[i].(written := s.targets[i].written + payload[..taken]));
      if taken < |payload| then CloseNow(s', i, "target write failed", true) else s'
  }

  /** Every session of the vector is waiting for its release. */
  predicate Releasing(s: Server, ids: seq<Id>) {
    Distinct(ids)
    && forall i | i in ids :: i in s.targets && s.targets[i].release == Some(CloseSocket(true, "manager stopped"))
  }

  /** Once the map is cleared, each of its sessions is waiting for its release. */
  lemma ClearedWait(s: Server, order: seq<Id>)
    requires s.live <= s.targets.Keys && Distinct(order) && forall i: Id :: i in order <==> i in s.live
    ensures Releasing(ClearAll(s), order)
  {
  }

  lemma ReleaseFirst(s: Server, ids: seq<Id>)
    requires Releasing(s, ids) && ids != []
    ensures ids[0] in s.targets && s.targets[ids[0]].release == Some(CloseSocket(true, "manager stopped"))
    ensures Releasing(FinishClose(s, ids[0]), ids[1..])
    ensures ReleaseEach(s, ids) == ReleaseEach(FinishClose(s, ids[0]), ids[1..])
  {
    hide FinishClose;
    assert forall j | 0 < j < |ids| :: ids[j] != ids[0] && ids[j] == ids[1..][j - 1];
  }

  lemma FinishLoudly(s: Server, i: Id, reason: string)
    requires i in s.targets && s.targets[i].release == Some(CloseSocket(true, reason))
    ensures FinishClose(s, i)
         == Set(Send(s, Close(i, reason)), i, Dropped(s.targets[i]).(closeAt := NextAt(s)))
  {
    var t1 := HalfClosed(s.targets[i], reason);
    assert ReleaseStep(s, i) == Set(s, i, t1);
    LoudSecond(s, i, t1, reason);
    hide Send, ReleaseStep;
  }

  /** The notices of a vector of sessions, in order. */
  function Closes(ids: seq<Id>, reason: string): (ms: seq<Down>)
    ensures |ms| == |ids|
  {
    seq(|ids|, k requires 0 <= k < |ids| => Close(ids[k], reason))
  }

  /** Stopping releases every socket and, on a healthy link, reports every session once, in the vector's order. */
  lemma {:induction false} ReleaseEachEffect(s: Server, ids: seq<Id>)
    requires Releasing(s, ids)
    ensures var s' := ReleaseEach(s, ids);
            && s'.targets.Keys == s.targets.Keys && s'.live == s.live && s'.link == s.link
            && (forall i | i in ids :: !s'.targets[i].socket.Live? && s'.targets[i].release.None?)
            && (forall i | i in s.targets && i !in ids :: s'.targets[i] == s.targets[i])
            && s'.down == s.down + if s.link.Healthy? then Closes(ids, "manager stopped") else []
    decreases |ids|
  {
    hide FinishClose, ReleaseEach, Releasing;
    if ids != [] {
      ReleaseFirst(s, ids);
      FinishEffect(s, ids[0], "manager stopped");
      ReleaseEachEffect(FinishClose(s, ids[0]), ids[1..]);
      ClosesCons(s.down, ids, "manager stopped");
      FirstOrRest(ids);
      NotAgain(s, ids);
    } else {
      assert s.down + Closes(ids, "manager stopped") == s.down && s.down + [] == s.down;
      NothingToRelease(s);
    }
  }

  lemma NothingToRelease(s: Server)
    ensures ReleaseEach(s, []) == s
  {
  }

  lemma FirstOrRest(ids: seq<Id>)
    requires ids != []
    ensures forall i: Id :: i in ids <==> i == ids[0] || i in ids[1..]
  {
  }

  lemma NotAgain(s: Server, ids: seq<Id>)
    requires Releasing(s, ids) && ids != []
    ensures ids[0] !in ids[1..]
  {
    assert forall j | 0 < j < |ids| :: ids[j] != ids[0] && ids[j] == ids[1..][j - 1];
  }

  lemma ClosesCons(down: seq<Down>, ids: seq<Id>, reason: string)
    requires ids != []
    ensures down + [Close(ids[0], reason)] + Closes(ids[1..], reason) == down + Closes(ids, reason)
    ensures down + [] == down
  {
    assert Closes(ids, reason) == [Close(ids[0], reason)] + Closes(ids[1..], reason);
  }

  lemma FinishEffect(s: Server, i: Id, reason: string)
    requires i in s.targets && s.targets[i].release == Some(CloseSocket(true, reason))
    ensures var s' := FinishClose(s, i);
            && s'.targets.Keys == s.targets.Keys && s'.live == s.live && s'.link == s.link
            && !s'.targets[i].socket.Live? && s'.targets[i].release.None?
            && (forall j | j in s.targets && j != i :: s'.targets[j] == s.targets[j])
            && s'.down == if s.link.Healthy? then s.down + [Close(i, reason)] else s.down
  {
    hide FinishClose;
    FinishLoudly(s, i, reason);
  }

  // ----- an undisturbed connect is a run -----------------------------------------------------------------------

  /** A phase of the connect, if it is the next one. */
  function Phase(s: Server, a: M.Action): Server {
    if M.HandlerEnabled(s, a) then M.HandlerStep(s, a) else s
  }

  function PhasesOf(lookup: Ssrf.Lookup, dialed: bool): seq<M.Action> {
    [M.Inserts, M.GuardReturns(lookup), M.DialReturns(dialed), M.Fails, M.Publishes, M.Announces, M.StartsReader]
  }

  function Phases(s: Server, actions: seq<M.Action>): Server
    decreases |actions|
  {
    if actions == [] then s else Phases(Phase(s, actions[0]), actions[1..])
  }

  /** Attempting the phases one after the other performs the whole connect. */
  lemma ConnectIsItsPhases(s: Server, i: Id, host: string, port: nat, lookup: Ssrf.Lookup, dialed: bool)
    requires s.handler.Idle?
    ensures Phases(ConnectCheck(s, i, host, port), PhasesOf(lookup, dialed)) == ConnectAll(s, i, host, port, lookup, dialed)
  {
    hide ConnectCheck, Phases, AfterInsert, Insert, PhasesOf;
    CheckLeaves(s, i, host, port);
    var s1 := ConnectCheck(s, i, host, port);
    if s1.handler.Checked? {
      AfterChecked(s1, lookup, dialed);
    } else {
      IdleStays(s1, PhasesOf(lookup, dialed));
    }
  }

  lemma CheckLeaves(s: Server, i: Id, host: string, port: nat)
    requires s.handler.Idle?
    ensures ConnectCheck(s, i, host, port).handler.Idle? || ConnectCheck(s, i, host, port).handler.Checked?
  {
    hide Send;
    M.SI.SendFrame(s, Error(i, "duplicate sessionId"));
    M.SI.SendFrame(s, Error(i, "per-connection session limit reached"));
  }

  lemma {:induction false} IdleStays(s: Server, actions: seq<M.Action>)
    requires s.handler.Idle?
    ensures Phases(s, actions) == s
    decreases |actions|
  {
    if actions != [] { IdleStays(s, actions[1..]); }
  }

  lemma PhasesCons(s: Server, a: M.Action, rest: seq<M.Action>)
    ensures Phases(s, [a] + rest) == Phases(Phase(s, a), rest)
  {
    assert ([a] + rest)[1..] == rest;
  }

  lemma AfterChecked(s: Server, lookup: Ssrf.Lookup, dialed: bool)
    requires s.handler.Checked?
    ensures Phases(s, PhasesOf(lookup, dialed)) == AfterInsert(Insert(s), lookup, dialed)
  {
    hide Phases, Phase, AfterInsert;
    var r3 := [M.Fails] + ([M.Publishes] + ([M.Announces] + [M.StartsReader]));
    var r1 := [M.GuardReturns(lookup)] + ([M.DialReturns(dialed)] + r3);
    assert PhasesOf(lookup, dialed) == [M.Inserts] + r1;
    PhasesCons(s, M.Inserts, r1);
    InsertPhase(s);
    PhasesCons(Insert(s), M.GuardReturns(lookup), [M.DialReturns(dialed)] + r3);
    AfterGuard(Insert(s), lookup, dialed, r3);
  }

  lemma InsertPhase(s: Server)
    requires s.handler.Checked?
    ensures Phase(s, M.Inserts) == Insert(s) && Insert(s).handler.Inserted? && Insert(s).handler.id in Insert(s).targets
  {
  }

  lemma AfterGuard(s: Server, lookup: Ssrf.Lookup, dialed: bool, r3: seq<M.Action>)
    requires s.handler.Inserted? && s.handler.id in s.targets
    requires r3 == [M.Fails] + ([M.Publishes] + ([M.Announces] + [M.StartsReader]))
    ensures Phases(Phase(s, M.GuardReturns(lookup)), [M.DialReturns(dialed)] + r3) == AfterInsert(s, lookup, dialed)
  {
    hide Phases, DialPhase, FailPhase, PublishPhase, AnnouncePhase, StartReader;
    var s2 := GuardPhase(s, lookup);
    GuardLeaves(s, lookup);
    PhasesCons(s2, M.DialReturns(dialed), r3);
    if s2.handler.Resolved? {
      DialLeaves(s2, dialed);
      AfterDial(DialPhase(s2, dialed), r3);
    } else {
      AfterDial(s2, r3);
    }
  }

  lemma GuardLeaves(s: Server, lookup: Ssrf.Lookup)
    requires s.handler.Inserted? && s.handler.id in s.targets
    ensures var s2 := GuardPhase(s, lookup);
            && Phase(s, M.GuardReturns(lookup)) == s2 && s2.targets == s.targets
            && (s2.handler.Idle? || s2.handler == Failing(s.handler.id) || (s2.handler.Resolved? && s2.handler.id == s.handler.id))
  {
    hide Ssrf.Guard;
  }

  lemma DialLeaves(s: Server, dialed: bool)
    requires s.handler.Resolved? && s.handler.id in s.targets
    ensures var s3 := DialPhase(s, dialed);
            && Phase(s, M.DialReturns(dialed)) == s3 && s.handler.id in s3.targets
            && (s3.handler == Failing(s.handler.id) || s3.handler == Dialed(s.handler.id))
  {
  }

  /** The phases from the failure branch on. */
  lemma AfterDial(s: Server, r3: seq<M.Action>)
    requires s.handler.Idle? || ((s.handler.Failing? || s.handler.Dialed?) && s.handler.id in s.targets)
    requires r3 == [M.Fails] + ([M.Publishes] + ([M.Announces] + [M.StartsReader]))
    ensures Phases(s, r3)
         == if s.handler.Idle? then s
            else if s.handler.Failing? then FailPhase(s)
            else
              var s4 := PublishPhase(s);
              if s4.handler.Published? then StartReader(AnnouncePhase(s4)) else s4
  {
    hide Phases, FailPhase, PublishPhase;
    PhasesCons(s, M.Fails, [M.Publishes] + ([M.Announces] + [M.StartsReader]));
    if s.handler.Idle? {
      IdleStays(s, r3);
    } else if s.handler.Failing? {
      FailLeaves(s);
      IdleStays(FailPhase(s), [M.Publishes] + ([M.Announces] + [M.StartsReader]));
    } else {
      PhasesCons(s, M.Publishes, [M.Announces] + [M.StartsReader]);
      PublishLeaves(s);
      AfterPublish(PublishPhase(s));
    }
  }

  lemma FailLeaves(s: Server)
    requires s.handler.Failing? && s.handler.id in s.targets
    ensures Phase(s, M.Fails) == FailPhase(s) && FailPhase(s).handler.Idle?
  {
  }

  lemma PublishLeaves(s: Server)
    requires s.handler.Dialed? && s.handler.id in s.targets
    ensures var s4 := PublishPhase(s);
            && Phase(s, M.Publishes) == s4 && (s4.handler.Idle? || (s4.handler.Published? && s4.handler.id in s4.targets))
  {
  }

  lemma AnnounceLeaves(s: Server)
    requires s.handler.Published? && s.handler.id in s.targets
    ensures var s5 := AnnouncePhase(s);
            && Phase(s, M.Announces) == s5 && s5.handler.Announced? && s5.handler.id in s5.targets
            && Phase(s5, M.StartsReader) == StartReader(s5) && StartReader(s5).handler.Idle?
  {
    hide Send;
    M.SI.SendFrame(s, Connected(s.handler.id));
  }

  lemma AfterPublish(s: Server)
    requires s.handler.Idle? || (s.handler.Published? && s.handler.id in s.targets)
    ensures Phases(s, [M.Announces] + [M.StartsReader])
         == if s.handler.Published? then StartReader(AnnouncePhase(s)) else s
  {
    hide Phases, Phase, AnnouncePhase, StartReader;
    if s.handler.Idle? {
      IdleStays(s, [M.Announces] + [M.StartsReader]);
    } else {
      AnnounceLeaves(s);
      PhasesCons(s, M.Announces, [M.StartsReader]);
      PhasesCons(AnnouncePhase(s), M.StartsReader, []);
      assert [M.StartsReader] + [] == [M.StartsReader];
      IdleStays(StartReader(AnnouncePhase(s)), []);
    }
  }

  // ----- and so a run of the connection -------------------------------------------------------------------

  function Steps(z: Conn, actions: seq<M.Action>): Conn
    decreases |actions|
  {
    if actions == [] then z else Steps(M.Step(z, actions[0]), actions[1..])
  }

  predicate OfHandler(a: M.Action) {
    a.Inserts? || a.GuardReturns? || a.DialReturns? || a.Fails? || a.Publishes? || a.Announces? || a.StartsReader?
  }

  lemma PhaseIsStep(z: Conn, a: M.Action)
    requires OfHandler(a) && M.Shaped(z)
    ensures M.Step(z, a) == z.(s := Phase(z.s, a))
  {
    hide M.HandlerStep;
  }

  lemma {:induction false} PhasesAreSteps(z: Conn, actions: seq<M.Action>)
    requires Inv(z) && forall k | 0 <= k < |actions| :: OfHandler(actions[k])
    ensures Steps(z, actions) == z.(s := Phases(z.s, actions))
    decreases |actions|
  {
    hide Inv, M.Step, Phase;
    if actions != [] {
      Parts(z);
      PhaseIsStep(z, actions[0]);
      M.StepKeeps(z, actions[0]);
      PhasesAreSteps(M.Step(z, actions[0]), actions[1..]);
    }
  }

  lemma ReadsConnect(z: Conn, taken: nat)
    requires M.Enabled(z, M.ServerReads(taken)) && z.c.up[z.upRead].Connect?
    ensures var m := z.c.up[z.upRead];
            M.Step(z, M.ServerReads(taken)).s == ConnectCheck(z.s, m.id, m.host, m.port)
  {
    hide ConnectCheck;
  }

  /** Handling a `connect` message without a pause is the message's step followed by the handler's own steps. */
  lemma ConnectIsARun(z: Conn, taken: nat, lookup: Ssrf.Lookup, dialed: bool)
    requires Inv(z) && M.Enabled(z, M.ServerReads(taken)) && z.c.up[z.upRead].Connect?
    ensures var m := z.c.up[z.upRead];
            Steps(M.Step(z, M.ServerReads(taken)), PhasesOf(lookup, dialed)).s
              == ConnectAll(z.s, m.id, m.host, m.port, lookup, dialed)
  {
    hide Inv, M.Step, ConnectCheck, ConnectAll, Phases, Steps;
    var m := z.c.up[z.upRead];
    var z1 := M.Step(z, M.ServerReads(taken));
    ReadsConnect(z, taken);
    M.StepKeeps(z, M.ServerReads(taken));
    PhasesAreSteps(z1, PhasesOf(lookup, dialed));
    ConnectIsItsPhases(z.s, m.id, m.host, m.port, lookup, dialed);
  }

  lemma CloseAbsent(s: Server, i: Id, reason: string, notify: bool)
    requires s.live <= s.targets.Keys && i !in s.live
    ensures CloseNow(s, i, reason, notify) == s
  {
  }

  // ----- the compositions, spelled out ----------------------------------------------------------------

  /** A connect that was refused: the error, and the session out of the map. */
  function Refused(s: Server, i: Id, message: string): Server {
    var s' := Send(s, Error(i, message));
    s'.(live := s'.live - {i})
  }

  /** A connect that succeeded. */
  function Joined(s: Server, i: Id): Server
    requires i in s.targets
  {
    var s' := Send(s, Connected(i));
    Set(s', i, s.targets[i].(socket := Live, published := true, announcedAt := NextAt(s), reader := Waiting))
  }

  lemma Overwrite<K, V>(m: map<K, V>, k: K, v: V, w: V)
    ensures m[k := v][k := w] == m[k := w]
  {
  }

  lemma PublishedIs(s: Server, t: Target)
    requires s.handler.Resolved? && s.handler.id in s.live && !s.closed
    ensures PublishPhase(Set(s, s.handler.id, t).(handler := Dialed(s.handler.id)))
         == Set(s, s.handler.id, t.(published := true)).(handler := Published(s.handler.id))
  {
    Overwrite(s.targets, s.handler.id, t, t.(published := true));
  }

  lemma AnnouncedIs(s: Server, i: Id, t: Target)
    ensures AnnouncePhase(Set(s, i, t).(handler := Published(i)))
         == Set(Send(s, Connected(i)), i, t.(announcedAt := NextAt(s))).(handler := Handler.Announced(i))
  {
    Overwrite(s.targets, i, t, t.(announcedAt := NextAt(s)));
  }

  lemma StartedIs(s: Server, i: Id, t: Target)
    ensures StartReader(Set(s, i, t).(handler := Handler.Announced(i))) == Set(s, i, t.(reader := Waiting)).(handler := Idle)
  {
    Overwrite(s.targets, i, t, t.(reader := Waiting));
  }

  lemma JoinPhases(s: Server, dialed: Server)
    requires s.handler.Resolved? && s.handler.id in s.targets && s.handler.id in s.live && !s.closed
    requires dialed == DialPhase(s, true)
    ensures var i := s.handler.id;
            && dialed.handler == Dialed(i) && i in dialed.targets && PublishPhase(dialed).handler == Published(i)
            && StartReader(AnnouncePhase(PublishPhase(dialed)))
               == Joined(s.(dials := s.dials + [s.handler.dial], handler := Idle), i)
  {
    hide PublishPhase, AnnouncePhase, StartReader, Send;
    var s0 := s.(dials := s.dials + [s.handler.dial]);
    var i, t := s.handler.id, s.targets[s.handler.id].(socket := Live);
    PublishedIs(s0, t);
    AnnouncedIs(s0, i, t.(published := true));
    StartedIs(Send(s0, Connected(i)), i, t.(published := true, announcedAt := NextAt(s0)));
    SendThenIdle(s0, Connected(i));
  }

  lemma SendThenIdle(s: Server, m: Down)
    ensures Send(s.(handler := Idle), m) == Send(s, m).(handler := Idle)
  {
  }

  /** The address `handleConnect` hands to the dialer. */
  function Choice(host: string, lookup: Ssrf.Lookup): string {
    var guard := Ssrf.Guard(host, lookup);
    if guard.addresses == [] then host else guard.addresses[0]
  }

  predicate Open(s: Server) {
    s.handler.Inserted? && s.handler.id in s.targets && s.handler.id in s.live && !s.closed
  }

  lemma GuardRefuses(s: Server, lookup: Ssrf.Lookup, dialed: bool)
    requires Open(s) && !Ssrf.Guard(s.targets[s.handler.id].host, lookup).ok
    ensures AfterInsert(s, lookup, dialed)
         == Refused(s.(handler := Idle), s.handler.id, Ssrf.Guard(s.targets[s.handler.id].host, lookup).reason)
  {
    hide Ssrf.Guard, DialPhase, PublishPhase, AnnouncePhase, StartReader;
  }

  /** The state in which the address has been handed to the dialer. */
  function Tried(s: Server, lookup: Ssrf.Lookup): Server
    requires Open(s)
  {
    var host := s.targets[s.handler.id].host;
    s.(dials := s.dials + [Dial(host, lookup, Choice(host, lookup))], handler := Idle)
  }

  lemma GuardPasses(s: Server, lookup: Ssrf.Lookup)
    requires Open(s) && Ssrf.Guard(s.targets[s.handler.id].host, lookup).ok
    ensures var host := s.targets[s.handler.id].host;
            GuardPhase(s, lookup) == s.(handler := Resolved(s.handler.id, Dial(host, lookup, Choice(host, lookup))))
  {
    hide Ssrf.Guard;
  }

  lemma DialFails(s: Server, lookup: Ssrf.Lookup)
    requires Open(s) && Ssrf.Guard(s.targets[s.handler.id].host, lookup).ok
    ensures AfterInsert(s, lookup, false)
         == Refused(Tried(s, lookup), s.handler.id, "target socket error: connect failed")
  {
    hide Ssrf.Guard, GuardPhase, Choice, PublishPhase, AnnouncePhase, StartReader;
    GuardPasses(s, lookup);
  }

  lemma DialSucceeds(s: Server, lookup: Ssrf.Lookup)
    requires Open(s) && Ssrf.Guard(s.targets[s.handler.id].host, lookup).ok
    ensures AfterInsert(s, lookup, true) == Joined(Tried(s, lookup), s.handler.id)
  {
    hide Ssrf.Guard, GuardPhase, Choice, DialPhase, PublishPhase, AnnouncePhase, StartReader, Joined;
    GuardPasses(s, lookup);
    var s2 := GuardPhase(s, lookup);
    JoinPhases(s2, DialPhase(s2, true));
  }

  /** A connect that meets an open manager ends refused by the guard, refused by the dial, or joined. */
  lemma AfterInsertIs(s: Server, lookup: Ssrf.Lookup, dialed: bool)
    requires Open(s)
    ensures var guard := Ssrf.Guard(s.targets[s.handler.id].host, lookup);
            AfterInsert(s, lookup, dialed)
              == if !guard.ok then Refused(s.(handler := Idle), s.handler.id, guard.reason)
                 else if !dialed then Refused(Tried(s, lookup), s.handler.id, "target socket error: connect failed")
                 else Joined(Tried(s, lookup), s.handler.id)
  {
    hide Ssrf.Guard, AfterInsert, Refused, Joined, Tried;
    if !Ssrf.Guard(s.targets[s.handler.id].host, lookup).ok {
      GuardRefuses(s, lookup, dialed);
    } else if dialed {
      DialSucceeds(s, lookup);
    } else {
      DialFails(s, lookup);
    }
  }

  /** A session record after `closeSession`. */
  function Dropped(t: Target): Target {
    t.(socket := if t.socket.Live? then Socket.Released else t.socket, release := None)
  }

  lemma NextAtKept(s: Server, i: Id)
    ensures NextAt(s.(live := s.live - {i})) == NextAt(s)
  {
  }

  /** `closeSession` of a session the map holds, spelled out. */
  function Closing(s: Server, i: Id, reason: string, notify: bool): Server
    requires i in s.targets
  {
    var s1 := s.(live := s.live - {i});
    if notify then Set(Send(s1, Close(i, reason)), i, Dropped(s.targets[i]).(closeAt := NextAt(s)))
    else Set(s1, i, Dropped(s.targets[i]))
  }

  lemma CloseQuietly(s: Server, i: Id, reason: string)
    requires s.live <= s.targets.Keys && i in s.live
    ensures CloseNow(s, i, reason, false) == Closing(s, i, reason, false)
  {
    Overwrite(s.targets, i, s.targets[i].(release := Some(CloseSocket(false, reason))), Dropped(s.targets[i]));
  }

  /** The record between the two halves of a notifying close. */
  function HalfClosed(t: Target, reason: string): Target {
    Dropped(t).(release := Some(Notify(reason)))
  }

  lemma LoudFirst(s: Server, i: Id, reason: string)
    requires s.live <= s.targets.Keys && i in s.live
    ensures ReleaseStep(BeginClose(s, i, reason, true), i)
         == Set(s, i, HalfClosed(s.targets[i], reason)).(live := s.live - {i})
  {
    var t0 := s.targets[i].(release := Some(CloseSocket(true, reason)));
    assert BeginClose(s, i, reason, true) == Set(s, i, t0).(live := s.live - {i});
    Overwrite(s.targets, i, t0, HalfClosed(s.targets[i], reason));
  }

  lemma LoudSecond(s: Server, i: Id, t: Target, reason: string)
    requires i in s.targets && t.release == Some(Notify(reason))
    ensures ReleaseStep(Set(s, i, t), i) == Set(Send(s, Close(i, reason)), i, t.(release := None, closeAt := NextAt(s)))
  {
    Overwrite(s.targets, i, t, t.(release := None, closeAt := NextAt(s)));
  }

  lemma LoudLast(s: Server, i: Id, reason: string)
    requires i in s.targets
    ensures var s1 := Set(s.(live := s.live - {i}), i, HalfClosed(s.targets[i], reason));
            s1.targets[i].release.Some? && ReleaseStep(s1, i) == Closing(s, i, reason, true)
  {
    hide Send;
    LoudSecond(s.(live := s.live - {i}), i, HalfClosed(s.targets[i], reason), reason);
  }

  lemma CloseLoudly(s: Server, i: Id, reason: string)
    requires s.live <= s.targets.Keys && i in s.live
    ensures CloseNow(s, i, reason, true) == Closing(s, i, reason, true)
  {
    hide ReleaseStep, BeginClose, Closing, HalfClosed, Set;
    LoudFirst(s, i, reason);
    LoudLast(s, i, reason);
    BegunRelease(s, i, reason, true);
    SetLive(s, i, HalfClosed(s.targets[i], reason));
  }

  lemma SetLive(s: Server, i: Id, t: Target)
    ensures Set(s, i, t).(live := s.live - {i}) == Set(s.(live := s.live - {i}), i, t)
  {
  }

  lemma BegunRelease(s: Server, i: Id, reason: string, notify: bool)
    requires s.live <= s.targets.Keys && i in s.live
    ensures var s1 := BeginClose(s, i, reason, notify);
            i in s1.targets && s1.targets[i].release == Some(CloseSocket(notify, reason))
  {
  }

  lemma CloseNowIs(s: Server, i: Id, reason: string, notify: bool)
    requires s.live <= s.targets.Keys
    ensures CloseNow(s, i, reason, notify) == if i in s.live then Closing(s, i, reason, notify) else s
  {
    hide CloseNow, Dropped;
    if i !in s.live { CloseAbsent(s, i, reason, notify); }
    else if notify { CloseLoudly(s, i, reason); }
    else { CloseQuietly(s, i, reason); }
  }
}
