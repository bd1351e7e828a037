/** What every step of the server keeps: an invariant of `MuxServer.Server`. */
module MuxServerInv {
  import opened Common
  import opened MuxClient
  import opened MuxServer
  import Ssrf

  // ----- payloads -----------------------------------------------------------------------

  predicate IsData(m: Down, i: Id) {
    m.DownData? && m.id == i
  }

  predicate IsEnd(m: Down, i: Id) {
    (m.Close? || m.Error?) && m.id == i
  }

  /** The bytes of session `i` in a stretch of downstream. */
  function DownPayload(down: seq<Down>, i: Id): Bytes {
    if down == [] then []
    else
      var front, last := down[..|down| - 1], down[|down| - 1];
      DownPayload(front, i) + if IsData(last, i) then last.payload else []
  }

  lemma DownSnoc(down: seq<Down>, m: Down, i: Id)
    ensures DownPayload(down + [m], i) == DownPayload(down, i) + if IsData(m, i) then m.payload else []
  {
    assert (down + [m])[..|down|] == down;
  }

  lemma {:induction false} DownTail(down: seq<Down>, n: nat, i: Id)
    requires n <= |down| && forall k | n <= k < |down| :: !IsData(down[k], i)
    ensures DownPayload(down, i) == DownPayload(down[..n], i)
  {
    if n < |down| {
      DownTail(down[..|down| - 1], n, i);
      assert down[..|down| - 1][..n] == down[..n];
    } else {
      assert down[..n] == down;
    }
  }

  // ----- the invariant --------------------------------------------------------------------

  predicate HandlerOn(h: Handler, i: Id) {
    !h.Idle? && h.id == i
  }

  /** The target has closed, and every byte it sent is downstream already. */
  predicate Finished(s: Server, i: Id) {
    i in s.targets &&
    var t := s.targets[i];
    t.reader.Done? && t.peerClosed && t.read == t.produced && DownPayload(s.down, i) == t.produced
  }

  /** Where a session may be, given the maps and the read loop's position. */
  predicate PlaceOk(s: Server, i: Id) {
    && (i in s.live ==> i in s.targets && s.targets[i].release.None?)
    && (HandlerOn(s.handler, i) ==> (s.handler.Checked? <==> i !in s.targets))
    && (i !in s.targets ==> DownPayload(s.down, i) == [])
    && (s.handler.Checked? && s.handler.id == i ==> i !in s.endAt)
    && (i in s.endAt ==> s.endAt[i] < |s.down| && IsEnd(s.down[s.endAt[i]], i)
                         && (i in s.live ==> s.handler == Failing(i)))
  }

  /** How far the connect of a session has come, and what its socket is then. */
  predicate PhaseOk(s: Server, i: Id)
    requires i in s.targets
  {
    var t, h, live := s.targets[i], s.handler, i in s.live;
    && (t.published ==> !t.socket.NoSocket? && (live ==> t.socket.Live?))
    && (!t.published ==> t.reader.NotStarted? && t.announcedAt.None?)
    && (t.socket.Live? ==> live || (t.release.Some? && t.release.value.CloseSocket?) || h == Dialed(i))
    && (live && !t.published ==> HandlerOn(h, i) || s.closed)
    && (HandlerOn(h, i) ==>
          match h
          case Idle => true
          case Checked(_, _, _) => true
          case Inserted(_) => t.socket.NoSocket? && !t.published
          case Resolved(_, dial) => t.socket.NoSocket? && !t.published && dial.host == t.host
          case Failing(_) => t.socket.NoSocket? && !t.published && (s.link.Healthy? ==> i in s.endAt)
          case Dialed(_) => !t.socket.NoSocket? && !t.published && (live ==> t.socket.Live?)
          case Published(_) => t.published && t.reader.NotStarted? && t.announcedAt.None?
          case Announced(_) => t.published && t.reader.NotStarted? && (s.link.Healthy? ==> t.announcedAt.Some?))
  }

  /** Every byte the reader took is downstream or in its hands, until it stops. */
  predicate ReaderOk(s: Server, i: Id)
    requires i in s.targets
  {
    var t := s.targets[i];
    var sent := DownPayload(s.down, i);
    && t.read <= t.produced
    && (t.finSent ==> t.uplinkClosed)
    && match t.reader
       case NotStarted => t.read == [] && sent == []
       case Waiting => sent == t.read && (s.link.Healthy? ==> t.announcedAt.Some?)
       case Holding(chunk) => sent + chunk == t.read && (s.link.Healthy? ==> t.announcedAt.Some?)
       case Done => sent <= t.read
  }

  predicate Notifies(r: Option<Release>, reason: string) {
    r == Some(Notify(reason)) || r == Some(CloseSocket(true, reason))
  }

  /** The marks kept of control messages are right, and at most one `close` is ever due or sent. */
  predicate MarksOk(s: Server, i: Id)
    requires i in s.targets
  {
    var t := s.targets[i];
    && (t.announcedAt.Some? ==> t.announcedAt.value < |s.down| && s.down[t.announcedAt.value] == Connected(i))
    && (t.closeAt.Some? ==> t.closeAt.value < |s.down| && s.down[t.closeAt.value].Close?
                            && s.down[t.closeAt.value].id == i && i !in s.live && t.release.None?
                            && (s.down[t.closeAt.value].reason == TARGET_CLOSED ==> Finished(s, i)))
    && (Notifies(t.release, TARGET_CLOSED) ==> Finished(s, i))
  }

  predicate LocalOk(s: Server, i: Id) {
    PlaceOk(s, i) && (i in s.targets ==> PhaseOk(s, i) && ReaderOk(s, i) && MarksOk(s, i))
  }

  /** What one message already written says about its session. */
  predicate DownOk(s: Server, k: nat)
    requires k < |s.down|
  {
    var m := s.down[k];
    && (!m.Error? ==> m.id in s.targets)
    && match m
       case Connected(i) => s.targets[i].announcedAt == Some(k)
       case DownData(i, _) =>
         var t := s.targets[i];
         && t.announcedAt.Some? && t.announcedAt.value < k
         && (t.closeAt.Some? && t.closeAt.value < |s.down| && s.down[t.closeAt.value] == Close(i, TARGET_CLOSED)
             ==> k < t.closeAt.value)
       case Close(i, reason) =>
         && s.targets[i].closeAt == Some(k) && i in s.endAt && s.endAt[i] <= k
         && (reason == TARGET_CLOSED ==> Finished(s, i))
       case Error(i, _) => i in s.endAt && s.endAt[i] <= k
  }

  /** The address dialed is the first of a list the guard returned, none of which is refused. */
  predicate DialOk(d: Dial) {
    var guard := Ssrf.Guard(d.host, d.lookup);
    guard.ok && guard.addresses != [] && d.address == guard.addresses[0]
    && forall a | a in guard.addresses :: !Ssrf.IsBlocked(a).blocked
  }

  ghost predicate Inv(s: Server) {
    && (forall i: Id :: LocalOk(s, i))
    && (forall k | 0 <= k < |s.down| :: DownOk(s, k))
    && |s.live| <= s.maxSessions
    && (s.handler.Checked? ==> |s.live| < s.maxSessions)
    && (forall d | d in s.dials :: DialOk(d))
    && (s.handler.Resolved? ==> DialOk(s.handler.dial))
    && (s.cleared ==> s.closed && forall i | i in s.live :: s.handler == Inserted(i))
  }

  // ----- steps of one session -----------------------------------------------------------------

  /** Both maps agree on a key. */
  predicate SameAt<K, V(==)>(m: map<K, V>, m': map<K, V>, k: K) {
    (k in m <==> k in m') && (k in m ==> m[k] == m'[k])
  }

  predicate SameSession(s: Server, s': Server, j: Id) {
    SameAt(s.targets, s'.targets, j) && (j in s.live <==> j in s'.live) && SameAt(s.endAt, s'.endAt, j)
  }

  /** A step that changes session `i` only, and writes only its messages. */
  ghost predicate OwnStep(s: Server, s': Server, i: Id) {
    && (forall j: Id | j != i :: SameSession(s, s', j))
    && s.down <= s'.down
    && (forall k | |s.down| <= k < |s'.down| :: s'.down[k].id == i)
    && s'.link == s.link && s'.maxSessions == s.maxSessions
    && s'.closed == s.closed && s'.stopped == s.stopped && s'.cleared == s.cleared
    && (s'.handler == s.handler
        || ((s.handler.Idle? || s.handler.id == i) && (s'.handler.Idle? || s'.handler.id == i)))
    && (i in s.endAt ==> i in s'.endAt && s'.endAt[i] == s.endAt[i])
    && (i in s.targets ==> i in s'.targets && KeepsMarks(s.targets[i], s'.targets[i], |s.down|))
    && (Finished(s, i) ==> Finished(s', i))
  }

  predicate KeepsMarks(t: Target, t': Target, written: nat) {
    && (t.announcedAt.Some? ==> t'.announcedAt == t.announcedAt)
    && (t'.closeAt == t.closeAt || (t.closeAt.None? && t'.closeAt.Some? && t'.closeAt.value >= written))
  }

  lemma OtherPayload(s: Server, s': Server, i: Id, j: Id)
    requires OwnStep(s, s', i) && i != j
    ensures DownPayload(s'.down, j) == DownPayload(s.down, j)
  {
    DownTail(s'.down, |s.down|, j);
    assert s'.down[..|s.down|] == s.down;
  }

  lemma OtherLocal(s: Server, s': Server, i: Id, j: Id)
    requires OwnStep(s, s', i) && i != j && LocalOk(s, j)
    ensures LocalOk(s', j)
  {
    hide DownPayload;
    OtherPayload(s, s', i, j);
    assert SameSession(s, s', j);
    assert forall k | 0 <= k < |s.down| :: s'.down[k] == s.down[k];
  }

  lemma OldMessage(s: Server, s': Server, i: Id, k: nat)
    requires OwnStep(s, s', i) && k < |s.down| && DownOk(s, k)
    requires s.down[k].id in s.targets ==> MarksOk(s, s.down[k].id)
    ensures k < |s'.down| && DownOk(s', k)
  {
    assert s'.down[k] == s.down[k];
    var j := s.down[k].id;
    if j != i {
      OtherPayload(s, s', i, j);
      assert SameSession(s, s', j);
    }
    hide DownPayload;
    if j in s.targets && s.targets[j].closeAt.Some? {
      assert s'.down[s.targets[j].closeAt.value] == s.down[s.targets[j].closeAt.value];
    }
  }

  /** What has to be shown of one step of one session. */
  ghost predicate GoodStep(s: Server, s': Server, i: Id) {
    OwnStep(s, s', i) && LocalOk(s', i) && forall k | |s.down| <= k < |s'.down| :: DownOk(s', k)
  }

  /** For a session's own step it is enough to look at that session and at what it wrote. */
  lemma GoodStepKeeps(s: Server, s': Server, i: Id)
    requires Inv(s) && GoodStep(s, s', i)
    requires |s'.live| <= s'.maxSessions && (s'.handler.Checked? ==> |s'.live| < s'.maxSessions)
    requires forall d | d in s'.dials :: d in s.dials || DialOk(d)
    requires s'.handler.Resolved? ==> s'.handler == s.handler || DialOk(s'.handler.dial)
    requires s'.cleared ==> forall j | j in s'.live :: s'.handler == Inserted(j)
    ensures Inv(s')
  {
    assert s'.closed == s.closed && s'.cleared == s.cleared;
    hide DownOk, OwnStep, DialOk, PlaceOk, PhaseOk, ReaderOk, MarksOk;
    forall j: Id ensures LocalOk(s', j) {
      assert LocalOk(s, j);
      hide LocalOk;
      if j != i { OtherLocal(s, s', i, j); }
    }
    forall k | 0 <= k < |s'.down| ensures DownOk(s', k) {
      if k < |s.down| {
        assert LocalOk(s, s.down[k].id);
        OldMessage(s, s', i, k);
      }
    }
  }

  lemma SendFrame(s: Server, m: Down)
    ensures var s' := Send(s, m); s' == s.(down := s'.down, endAt := s'.endAt) && s.down <= s'.down
  {
  }

  /** What sending one message changes. */
  lemma SendOwn(s: Server, m: Down)
    requires m.DownData? ==> !Finished(s, m.id)
    ensures OwnStep(s, Send(s, m), m.id)
    ensures DownPayload(Send(s, m).down, m.id)
         == DownPayload(s.down, m.id) + if m.DownData? && s.link.Healthy? then m.payload else []
  {
    hide DownPayload;
    DownSnoc(s.down, m, m.id);
  }

  /** Two of a session's own steps, the first of which writes nothing. */
  lemma ComposeOwn(s: Server, s1: Server, s2: Server, i: Id)
    requires OwnStep(s, s1, i) && OwnStep(s1, s2, i) && s1.down == s.down
    ensures OwnStep(s, s2, i)
  {
    hide Finished;
    forall j: Id | j != i ensures SameSession(s, s2, j) {
      assert SameSession(s, s1, j) && SameSession(s1, s2, j);
    }
  }

  lemma InvLocal(s: Server, i: Id)
    requires Inv(s)
    ensures LocalOk(s, i)
  {
    hide LocalOk, DownOk, DialOk;
  }

  /** The same for a step that leaves the read loop where it is and adds no session to the map. */
  lemma NoNewSessionKeeps(s: Server, s': Server, i: Id)
    requires Inv(s) && GoodStep(s, s', i) && s'.live <= s.live && s'.handler == s.handler && s'.dials == s.dials
    ensures Inv(s')
  {
    hide LocalOk, DownOk, DialOk, Finished;
    SubsetSize(s'.live, s.live);
    GoodStepKeeps(s, s', i);
  }

  lemma StaysGood(s: Server, i: Id)
    requires LocalOk(s, i)
    ensures GoodStep(s, s, i)
  {
    hide DownPayload, LocalOk;
  }

  // ----- handleConnect -------------------------------------------------------------------------

  lemma CheckOwn(s: Server, i: Id, host: string, port: nat)
    requires LocalOk(s, i) && s.handler.Idle? && i !in s.targets && i !in s.endAt
    ensures OwnStep(s, ConnectCheck(s, i, host, port), i)
  {
    hide DownPayload;
    SendOwn(s, Error(i, "per-connection session limit reached"));
  }

  lemma CheckRefused(s: Server, i: Id)
    requires LocalOk(s, i) && s.handler.Idle? && i !in s.targets && i !in s.endAt
    ensures var s' := Send(s, Error(i, "per-connection session limit reached"));
            LocalOk(s', i) && forall k | |s.down| <= k < |s'.down| :: DownOk(s', k)
  {
    hide DownPayload, PhaseOk, ReaderOk, MarksOk;
    DownSnoc(s.down, Error(i, "per-connection session limit reached"), i);
  }

  lemma CheckPassed(s: Server, i: Id, host: string, port: nat)
    requires LocalOk(s, i) && s.handler.Idle? && i !in s.targets && i !in s.endAt
    ensures LocalOk(s.(handler := Checked(i, host, port)), i)
  {
    hide DownPayload, PhaseOk, ReaderOk, MarksOk;
  }

  lemma NotLive(s: Server, i: Id)
    requires LocalOk(s, i) && i !in s.targets
    ensures i !in s.live
  {
    hide DownPayload;
  }

  lemma CheckLocal(s: Server, i: Id, host: string, port: nat)
    requires LocalOk(s, i) && s.handler.Idle? && i !in s.targets && i !in s.endAt
    ensures var s' := ConnectCheck(s, i, host, port); LocalOk(s', i) && forall k | |s.down| <= k < |s'.down| :: DownOk(s', k)
  {
    hide LocalOk, DownOk, Send;
    NotLive(s, i);
    CheckRefused(s, i);
    CheckPassed(s, i, host, port);
  }

  lemma CheckGood(s: Server, i: Id, host: string, port: nat)
    requires LocalOk(s, i) && s.handler.Idle? && i !in s.targets && i !in s.endAt
    ensures GoodStep(s, ConnectCheck(s, i, host, port), i)
  {
    hide LocalOk, DownOk, OwnStep, ConnectCheck;
    CheckOwn(s, i, host, port);
    CheckLocal(s, i, host, port);
  }

  lemma CheckFrame(s: Server, i: Id, host: string, port: nat)
    requires s.handler.Idle? && |s.live| <= s.maxSessions
    ensures var s' := ConnectCheck(s, i, host, port);
            && s'.live == s.live && s'.maxSessions == s.maxSessions && s'.dials == s.dials && s'.cleared == s.cleared
            && (s'.handler.Idle? || (s'.handler.Checked? && |s.live| < s.maxSessions && !s.closed))
  {
    hide Send;
    SendFrame(s, Error(i, "duplicate sessionId"));
    SendFrame(s, Error(i, "per-connection session limit reached"));
  }

  lemma CheckKeeps(s: Server, i: Id, host: string, port: nat)
    requires Inv(s) && s.handler.Idle? && i !in s.targets && i !in s.endAt
    ensures Inv(ConnectCheck(s, i, host, port))
  {
    hide LocalOk, DownOk, GoodStep, DialOk, Finished, ConnectCheck;
    InvLocal(s, i);
    CheckGood(s, i, host, port);
    CheckFrame(s, i, host, port);
    GoodStepKeeps(s, ConnectCheck(s, i, host, port), i);
  }

  lemma InsertGood(s: Server)
    requires s.handler.Checked? && LocalOk(s, s.handler.id)
    ensures GoodStep(s, Insert(s), s.handler.id)
  {
    hide DownPayload;
  }

  lemma InsertKeeps(s: Server)
    requires Inv(s) && s.handler.Checked?
    ensures Inv(Insert(s))
  {
    assert LocalOk(s, s.handler.id);
    InsertGood(s);
    hide LocalOk, DownOk, OwnStep, DialOk;
    GoodStepKeeps(s, Insert(s), s.handler.id);
  }

  lemma GuardDial(host: string, lookup: Ssrf.Lookup)
    ensures var guard := Ssrf.Guard(host, lookup);
            guard.ok ==> guard.addresses != [] && DialOk(Dial(host, lookup, guard.addresses[0]))
  {
    Ssrf.GuardPasses(host, lookup);
  }

  /** An error goes out and the connect is about to be undone. */
  function FailWith(s: Server, i: Id, message: string): Server {
    Send(s, Error(i, message)).(handler := Failing(i))
  }

  lemma FailWithOwn(s: Server, i: Id, message: string)
    requires LocalOk(s, i) && (s.handler.Inserted? || s.handler.Resolved?) && s.handler.id == i && i in s.targets
    ensures OwnStep(s, FailWith(s, i, message), i)
  {
    hide DownPayload, LocalOk;
    var s1 := s.(handler := Failing(i));
    SendOwn(s1, Error(i, message));
    ComposeOwn(s, s1, Send(s1, Error(i, message)), i);
  }

  lemma FailWithPlace(s: Server, i: Id, message: string)
    requires LocalOk(s, i) && (s.handler.Inserted? || s.handler.Resolved?) && s.handler.id == i && i in s.targets
    ensures PlaceOk(FailWith(s, i, message), i) && PhaseOk(FailWith(s, i, message), i)
  {
    hide DownPayload, ReaderOk, MarksOk;
    DownSnoc(s.down, Error(i, message), i);
  }

  lemma FailWithBytes(s: Server, i: Id, message: string)
    requires LocalOk(s, i) && (s.handler.Inserted? || s.handler.Resolved?) && s.handler.id == i && i in s.targets
    ensures ReaderOk(FailWith(s, i, message), i) && MarksOk(FailWith(s, i, message), i)
  {
    hide DownPayload, PlaceOk;
    DownSnoc(s.down, Error(i, message), i);
  }

  lemma FailWithGood(s: Server, i: Id, message: string)
    requires LocalOk(s, i) && (s.handler.Inserted? || s.handler.Resolved?) && s.handler.id == i && i in s.targets
    ensures GoodStep(s, FailWith(s, i, message), i)
  {
    hide DownPayload, OwnStep, PhaseOk, ReaderOk, MarksOk;
    FailWithOwn(s, i, message);
    FailWithPlace(s, i, message);
    FailWithBytes(s, i, message);
  }

  lemma GuardGood(s: Server, lookup: Ssrf.Lookup)
    requires s.handler.Inserted? && s.handler.id in s.targets && LocalOk(s, s.handler.id)
    ensures GoodStep(s, GuardPhase(s, lookup), s.handler.id)
  {
    hide DownPayload, Ssrf.Guard;
    var i := s.handler.id;
    var guard := Ssrf.Guard(s.targets[i].host, lookup);
    if !s.closed && !guard.ok {
      FailWithGood(s, i, guard.reason);
      assert GuardPhase(s, lookup) == FailWith(s, i, guard.reason);
    }
  }

  lemma GuardKeeps(s: Server, lookup: Ssrf.Lookup)
    requires Inv(s) && s.handler.Inserted? && s.handler.id in s.targets
    ensures Inv(GuardPhase(s, lookup))
  {
    hide LocalOk, DownOk, OwnStep, DialOk, Finished, Ssrf.Guard;
    InvLocal(s, s.handler.id);
    GuardDial(s.targets[s.handler.id].host, lookup);
    GuardGood(s, lookup);
    GoodStepKeeps(s, GuardPhase(s, lookup), s.handler.id);
  }

  lemma DialedGood(s: Server)
    requires s.handler.Resolved? && s.handler.id in s.targets && LocalOk(s, s.handler.id)
    ensures GoodStep(s, DialPhase(s, true), s.handler.id)
  {
    hide DownPayload;
  }

  lemma DialLogged(s: Server, i: Id)
    requires LocalOk(s, i) && s.handler.Resolved?
    ensures var s1 := s.(dials := s.dials + [s.handler.dial]); LocalOk(s1, i) && OwnStep(s, s1, i)
  {
    hide DownPayload;
  }

  lemma DialGood(s: Server, connected: bool)
    requires s.handler.Resolved? && s.handler.id in s.targets && LocalOk(s, s.handler.id)
    ensures GoodStep(s, DialPhase(s, connected), s.handler.id)
  {
    hide DownPayload, LocalOk, DownOk, OwnStep, Send;
    if connected {
      DialedGood(s);
    } else {
      var i := s.handler.id;
      var s1 := s.(dials := s.dials + [s.handler.dial]);
      DialLogged(s, i);
      FailWithGood(s1, i, "target socket error: connect failed");
      ComposeOwn(s, s1, DialPhase(s, connected), i);
    }
  }

  lemma DialKeeps(s: Server, connected: bool)
    requires Inv(s) && s.handler.Resolved? && s.handler.id in s.targets
    ensures Inv(DialPhase(s, connected))
  {
    hide LocalOk, DownOk, OwnStep, DialOk, Finished;
    InvLocal(s, s.handler.id);
    DialGood(s, connected);
    GoodStepKeeps(s, DialPhase(s, connected), s.handler.id);
  }

  lemma FailGood(s: Server)
    requires s.handler.Failing? && LocalOk(s, s.handler.id)
    ensures GoodStep(s, FailPhase(s), s.handler.id)
  {
    hide DownPayload;
  }

  lemma FailKeeps(s: Server)
    requires Inv(s) && s.handler.Failing?
    ensures Inv(FailPhase(s))
  {
    assert LocalOk(s, s.handler.id);
    FailGood(s);
    hide LocalOk, DownOk, OwnStep, DialOk;
    GoodStepKeeps(s, FailPhase(s), s.handler.id);
  }

  lemma PublishOwn(s: Server)
    requires s.handler.Dialed? && s.handler.id in s.targets
    ensures OwnStep(s, PublishPhase(s), s.handler.id)
  {
    hide DownPayload;
  }

  lemma PublishGood(s: Server)
    requires s.handler.Dialed? && s.handler.id in s.targets && LocalOk(s, s.handler.id)
    ensures GoodStep(s, PublishPhase(s), s.handler.id)
  {
    hide DownPayload, OwnStep;
    PublishOwn(s);
  }

  lemma PublishKeeps(s: Server)
    requires Inv(s) && s.handler.Dialed? && s.handler.id in s.targets
    ensures Inv(PublishPhase(s))
  {
    hide LocalOk, DownOk, OwnStep, DialOk, Finished;
    InvLocal(s, s.handler.id);
    PublishGood(s);
    GoodStepKeeps(s, PublishPhase(s), s.handler.id);
  }

  lemma AnnounceOwn(s: Server)
    requires s.handler.Published? && s.handler.id in s.targets && LocalOk(s, s.handler.id)
    ensures OwnStep(s, AnnouncePhase(s), s.handler.id)
  {
    hide DownPayload, LocalOk, OwnStep, Finished;
    NotAnnounced(s);
    AnnounceMarked(s);
    var i := s.handler.id;
    var s1 := Set(s, i, s.targets[i].(announcedAt := NextAt(s))).(handler := Announced(i));
    SendOwn(s1, Connected(i));
    ComposeOwn(s, s1, Send(s1, Connected(i)), i);
  }

  lemma AnnounceMarked(s: Server)
    requires s.handler.Published? && s.handler.id in s.targets && s.targets[s.handler.id].announcedAt.None?
    ensures var i := s.handler.id;
            OwnStep(s, Set(s, i, s.targets[i].(announcedAt := NextAt(s))).(handler := Announced(i)), i)
  {
    hide DownPayload;
  }

  lemma NotAnnounced(s: Server)
    requires s.handler.Published? && s.handler.id in s.targets && LocalOk(s, s.handler.id)
    ensures s.targets[s.handler.id].announcedAt.None?
  {
    hide DownPayload;
  }

  lemma AnnouncePlace(s: Server)
    requires s.handler.Published? && s.handler.id in s.targets && LocalOk(s, s.handler.id)
    ensures PlaceOk(AnnouncePhase(s), s.handler.id) && PhaseOk(AnnouncePhase(s), s.handler.id)
  {
    hide DownPayload;
  }

  lemma AnnounceBytes(s: Server)
    requires s.handler.Published? && s.handler.id in s.targets && LocalOk(s, s.handler.id)
    ensures ReaderOk(AnnouncePhase(s), s.handler.id) && MarksOk(AnnouncePhase(s), s.handler.id)
  {
    hide DownPayload;
    DownSnoc(s.down, Connected(s.handler.id), s.handler.id);
  }

  lemma AnnounceLocal(s: Server)
    requires s.handler.Published? && s.handler.id in s.targets && LocalOk(s, s.handler.id)
    ensures var s' := AnnouncePhase(s);
            LocalOk(s', s.handler.id) && forall k | |s.down| <= k < |s'.down| :: DownOk(s', k)
  {
    hide DownPayload, PlaceOk, PhaseOk, ReaderOk, MarksOk;
    AnnouncePlace(s);
    AnnounceBytes(s);
  }

  lemma AnnounceKeeps(s: Server)
    requires Inv(s) && s.handler.Published? && s.handler.id in s.targets
    ensures Inv(AnnouncePhase(s))
  {
    hide LocalOk, DownOk, OwnStep, DialOk, Finished;
    InvLocal(s, s.handler.id);
    AnnounceOwn(s);
    AnnounceLocal(s);
    GoodStepKeeps(s, AnnouncePhase(s), s.handler.id);
  }

  lemma StartGood(s: Server)
    requires s.handler.Announced? && s.handler.id in s.targets && LocalOk(s, s.handler.id)
    ensures GoodStep(s, StartReader(s), s.handler.id)
  {
    hide DownPayload;
  }

  lemma StartKeeps(s: Server)
    requires Inv(s) && s.handler.Announced? && s.handler.id in s.targets
    ensures Inv(StartReader(s))
  {
    assert LocalOk(s, s.handler.id);
    StartGood(s);
    hide LocalOk, DownOk, OwnStep, DialOk;
    GoodStepKeeps(s, StartReader(s), s.handler.id);
  }

  // ----- closing ---------------------------------------------------------------------------------

  lemma CloseGood(s: Server, i: Id, reason: string, notify: bool)
    requires LocalOk(s, i) && s.live <= s.targets.Keys && (reason == TARGET_CLOSED && i in s.live ==> Finished(s, i))
    ensures GoodStep(s, BeginClose(s, i, reason, notify), i)
  {
    hide DownPayload;
  }

  lemma CloseKeeps(s: Server, i: Id, reason: string, notify: bool)
    requires Inv(s) && s.live <= s.targets.Keys && (reason == TARGET_CLOSED && i in s.live ==> Finished(s, i))
    ensures Inv(BeginClose(s, i, reason, notify))
  {
    hide Inv, LocalOk, GoodStep, Finished;
    InvLocal(s, i);
    CloseGood(s, i, reason, notify);
    NoNewSessionKeeps(s, BeginClose(s, i, reason, notify), i);
  }

  lemma CloseFrame(s: Server, i: Id, reason: string, notify: bool)
    requires s.live <= s.targets.Keys
    ensures var s' := BeginClose(s, i, reason, notify);
            s'.live <= s.live && s'.handler == s.handler && s'.dials == s.dials
  {
  }

  /** A session's own step that writes nothing, and then its close. */
  lemma ThenCloseGood(s: Server, s1: Server, i: Id, reason: string, notify: bool)
    requires GoodStep(s, s1, i) && s1.down == s.down && s1.live <= s1.targets.Keys
    requires reason == TARGET_CLOSED && i in s1.live ==> Finished(s1, i)
    ensures GoodStep(s, BeginClose(s1, i, reason, notify), i)
  {
    hide LocalOk, OwnStep, DownOk, BeginClose, Finished;
    CloseGood(s1, i, reason, notify);
    ComposeOwn(s, s1, BeginClose(s1, i, reason, notify), i);
  }

  lemma NotReported(s: Server, i: Id)
    requires LocalOk(s, i) && i in s.targets && s.targets[i].release.Some?
    ensures s.targets[i].closeAt.None?
  {
    hide DownPayload;
  }

  lemma NotifyMarked(s: Server, i: Id)
    requires i in s.targets && s.targets[i].closeAt.None?
    ensures OwnStep(s, Set(s, i, s.targets[i].(release := None, closeAt := NextAt(s))), i)
  {
    hide DownPayload;
  }

  lemma NotifyOwn(s: Server, i: Id)
    requires i in s.targets && s.targets[i].release.Some? && s.targets[i].release.value.Notify? && LocalOk(s, i)
    ensures OwnStep(s, ReleaseStep(s, i), i)
  {
    hide LocalOk, Finished, DownPayload;
    var t := s.targets[i];
    var s1, m := Set(s, i, t.(release := None, closeAt := NextAt(s))), Close(i, t.release.value.reason);
    NotReported(s, i);
    NotifyMarked(s, i);
    SendOwn(s1, m);
    ComposeOwn(s, s1, Send(s1, m), i);
  }

  lemma NotifyPlace(s: Server, i: Id)
    requires i in s.targets && s.targets[i].release.Some? && s.targets[i].release.value.Notify? && LocalOk(s, i)
    ensures PlaceOk(ReleaseStep(s, i), i) && PhaseOk(ReleaseStep(s, i), i)
  {
    hide DownPayload;
  }

  lemma NotifyBytes(s: Server, i: Id)
    requires i in s.targets && s.targets[i].release.Some? && s.targets[i].release.value.Notify? && LocalOk(s, i)
    ensures ReaderOk(ReleaseStep(s, i), i) && (Finished(s, i) ==> Finished(ReleaseStep(s, i), i))
  {
    hide DownPayload, PlaceOk, PhaseOk, MarksOk;
    DownSnoc(s.down, Close(i, s.targets[i].release.value.reason), i);
  }

  lemma EndIsPast(s: Server, i: Id)
    requires LocalOk(s, i)
    ensures i in s.endAt ==> s.endAt[i] < |s.down|
    ensures i in s.targets && s.targets[i].release.Some? ==> i !in s.live
  {
    hide DownPayload;
  }

  lemma NotifyLocal(s: Server, i: Id)
    requires i in s.targets && s.targets[i].release.Some? && s.targets[i].release.value.Notify? && LocalOk(s, i)
    ensures var s' := ReleaseStep(s, i); LocalOk(s', i) && forall k | |s.down| <= k < |s'.down| :: DownOk(s', k)
  {
    hide DownPayload, PlaceOk, PhaseOk, ReaderOk, Finished;
    NotifyPlace(s, i);
    NotifyBytes(s, i);
    EndIsPast(s, i);
  }

  lemma CloseSocketGood(s: Server, i: Id)
    requires i in s.targets && s.targets[i].release.Some? && s.targets[i].release.value.CloseSocket? && LocalOk(s, i)
    ensures GoodStep(s, ReleaseStep(s, i), i)
  {
    hide DownPayload;
  }

  lemma ReleaseKeeps(s: Server, i: Id)
    requires Inv(s) && i in s.targets && s.targets[i].release.Some?
    ensures Inv(ReleaseStep(s, i))
  {
    hide LocalOk, DownOk, OwnStep, DialOk, Finished;
    InvLocal(s, i);
    if s.targets[i].release.value.Notify? {
      NotifyOwn(s, i);
      NotifyLocal(s, i);
    } else {
      CloseSocketGood(s, i);
    }
    GoodStepKeeps(s, ReleaseStep(s, i), i);
  }

  // ----- messages from the client -----------------------------------------------------------------

  /** Bytes reach the target of a session. */
  lemma WrittenGood(s: Server, i: Id, bytes: Bytes)
    requires LocalOk(s, i) && i in s.targets
    ensures GoodStep(s, Set(s, i, s.targets[i].(written := s.targets[i].written + bytes)), i)
  {
    hide DownPayload;
  }

  lemma DataGood(s: Server, i: Id, payload: Bytes, taken: nat)
    requires LocalOk(s, i) && s.live <= s.targets.Keys && taken <= |payload|
    ensures GoodStep(s, HandleData(s, i, payload, taken), i)
  {
    hide LocalOk, GoodStep, BeginClose, Finished;
    StaysGood(s, i);
    if !s.closed && i in s.live {
      WrittenGood(s, i, payload[..taken]);
      var s1 := Set(s, i, s.targets[i].(written := s.targets[i].written + payload[..taken]));
      ThenCloseGood(s, s1, i, "target write failed", true);
    }
  }

  lemma DataFrame(s: Server, i: Id, payload: Bytes, taken: nat)
    requires s.live <= s.targets.Keys && taken <= |payload|
    ensures var s' := HandleData(s, i, payload, taken);
            s'.live <= s.live && s'.handler == s.handler && s'.dials == s.dials
  {
    hide BeginClose;
    if !s.closed && i in s.live {
      CloseFrame(Set(s, i, s.targets[i].(written := s.targets[i].written + payload[..taken])), i, "target write failed", true);
    }
  }

  lemma DataKeeps(s: Server, i: Id, payload: Bytes, taken: nat)
    requires Inv(s) && s.live <= s.targets.Keys && taken <= |payload|
    ensures Inv(HandleData(s, i, payload, taken))
  {
    hide Inv, LocalOk, GoodStep, HandleData;
    InvLocal(s, i);
    DataGood(s, i, payload, taken);
    DataFrame(s, i, payload, taken);
    NoNewSessionKeeps(s, HandleData(s, i, payload, taken), i);
  }

  lemma HalfCloseGood(s: Server, i: Id)
    requires LocalOk(s, i) && s.live <= s.targets.Keys
    ensures GoodStep(s, HandleHalfClose(s, i), i)
  {
    hide DownPayload;
  }

  lemma HalfCloseKeeps(s: Server, i: Id)
    requires Inv(s) && s.live <= s.targets.Keys
    ensures Inv(HandleHalfClose(s, i))
  {
    assert LocalOk(s, i);
    HalfCloseGood(s, i);
    hide LocalOk, DownOk, OwnStep, DialOk;
    GoodStepKeeps(s, HandleHalfClose(s, i), i);
  }

  // ----- the target and its reader -----------------------------------------------------------------

  lemma TargetSendGood(s: Server, i: Id, bytes: Bytes)
    requires LocalOk(s, i) && i in s.targets && !s.targets[i].peerClosed
    ensures GoodStep(s, TargetSend(s, i, bytes), i)
  {
    hide DownPayload;
  }

  lemma TargetSendKeeps(s: Server, i: Id, bytes: Bytes)
    requires Inv(s) && i in s.targets && !s.targets[i].peerClosed
    ensures Inv(TargetSend(s, i, bytes))
  {
    assert LocalOk(s, i);
    TargetSendGood(s, i, bytes);
    hide LocalOk, DownOk, OwnStep, DialOk;
    GoodStepKeeps(s, TargetSend(s, i, bytes), i);
  }

  lemma TargetEndGood(s: Server, i: Id)
    requires LocalOk(s, i) && i in s.targets
    ensures GoodStep(s, TargetEnd(s, i), i)
  {
    hide DownPayload;
  }

  lemma TargetEndKeeps(s: Server, i: Id)
    requires Inv(s) && i in s.targets
    ensures Inv(TargetEnd(s, i))
  {
    assert LocalOk(s, i);
    TargetEndGood(s, i);
    hide LocalOk, DownOk, OwnStep, DialOk;
    GoodStepKeeps(s, TargetEnd(s, i), i);
  }

  lemma TakeGood(s: Server, i: Id, n: nat)
    requires LocalOk(s, i) && i in s.targets && s.targets[i].reader.Waiting? && |s.targets[i].read| + n <= |s.targets[i].produced|
    ensures GoodStep(s, ReaderTake(s, i, n), i)
  {
    hide DownPayload;
  }

  lemma TakeKeeps(s: Server, i: Id, n: nat)
    requires Inv(s) && i in s.targets && s.targets[i].reader.Waiting? && |s.targets[i].read| + n <= |s.targets[i].produced|
    ensures Inv(ReaderTake(s, i, n))
  {
    assert LocalOk(s, i);
    TakeGood(s, i, n);
    hide LocalOk, DownOk, OwnStep, DialOk;
    GoodStepKeeps(s, ReaderTake(s, i, n), i);
  }

  lemma ForwardOwn(s: Server, i: Id)
    requires LocalOk(s, i) && i in s.targets && s.targets[i].reader.Holding? && s.live <= s.targets.Keys
    requires s.link.Healthy?
    ensures OwnStep(s, ReaderSend(s, i), i)
  {
    var t := s.targets[i];
    var s1, m := Set(s, i, t.(reader := Waiting)), DownData(i, t.reader.chunk);
    hide DownPayload, LocalOk;
    SendOwn(s1, m);
    ComposeOwn(s, s1, Send(s1, m), i);
  }

  lemma ForwardPlace(s: Server, i: Id)
    requires LocalOk(s, i) && i in s.targets && s.targets[i].reader.Holding? && s.live <= s.targets.Keys
    requires s.link.Healthy?
    ensures PlaceOk(ReaderSend(s, i), i) && PhaseOk(ReaderSend(s, i), i)
  {
    hide DownPayload;
  }

  lemma ForwardLocal(s: Server, i: Id)
    requires LocalOk(s, i) && i in s.targets && s.targets[i].reader.Holding? && s.live <= s.targets.Keys
    requires s.link.Healthy?
    ensures var s' := ReaderSend(s, i); LocalOk(s', i) && forall k | |s.down| <= k < |s'.down| :: DownOk(s', k)
  {
    hide DownPayload, PlaceOk, PhaseOk;
    ForwardPlace(s, i);
    DownSnoc(s.down, DownData(i, s.targets[i].reader.chunk), i);
  }

  /** The reader thread ends, keeping or losing the chunk in its hands. */
  lemma ReaderStops(s: Server, i: Id)
    requires LocalOk(s, i) && i in s.targets && (s.targets[i].reader.Holding? || s.targets[i].reader.Waiting?)
    ensures GoodStep(s, ReaderExit(s, i), i)
  {
    hide DownPayload;
  }

  lemma CannotForward(s: Server, i: Id)
    requires LocalOk(s, i) && i in s.targets && s.targets[i].reader.Holding? && s.live <= s.targets.Keys
    requires !s.link.Healthy?
    ensures GoodStep(s, ReaderSend(s, i), i)
  {
    hide LocalOk, GoodStep, BeginClose, Finished;
    ReaderStops(s, i);
    ThenCloseGood(s, ReaderExit(s, i), i, if s.link.Broken? then "wss send failed" else "wss closed", false);
  }

  lemma ForwardGood(s: Server, i: Id)
    requires LocalOk(s, i) && i in s.targets && s.targets[i].reader.Holding? && s.live <= s.targets.Keys
    requires s.link.Healthy?
    ensures GoodStep(s, ReaderSend(s, i), i)
  {
    hide LocalOk, OwnStep, DownOk, ReaderSend;
    ForwardOwn(s, i);
    ForwardLocal(s, i);
  }

  lemma ReaderSendFrame(s: Server, i: Id)
    requires i in s.targets && s.targets[i].reader.Holding? && s.live <= s.targets.Keys
    ensures var s' := ReaderSend(s, i); s'.live <= s.live && s'.handler == s.handler && s'.dials == s.dials
  {
    hide BeginClose;
    var s1 := ReaderExit(s, i);
    CloseFrame(s1, i, "wss send failed", false);
    CloseFrame(s1, i, "wss closed", false);
  }

  lemma ReaderSendKeeps(s: Server, i: Id)
    requires Inv(s) && i in s.targets && s.targets[i].reader.Holding? && s.live <= s.targets.Keys
    ensures Inv(ReaderSend(s, i))
  {
    hide Inv, LocalOk, GoodStep, ReaderSend;
    InvLocal(s, i);
    if s.link.Healthy? { ForwardGood(s, i); } else { CannotForward(s, i); }
    ReaderSendFrame(s, i);
    NoNewSessionKeeps(s, ReaderSend(s, i), i);
  }

  /** A reader that met the end of its target's bytes has sent them all. */
  lemma EofFinishes(s: Server, i: Id)
    requires LocalOk(s, i) && i in s.targets && s.targets[i].reader.Waiting?
    requires s.targets[i].peerClosed && s.targets[i].read == s.targets[i].produced
    ensures Finished(ReaderExit(s, i), i)
  {
    hide DownPayload, PlaceOk, PhaseOk, MarksOk;
  }

  lemma ReaderEndGood(s: Server, i: Id, reason: string)
    requires LocalOk(s, i) && i in s.targets && s.targets[i].reader.Waiting? && s.live <= s.targets.Keys
    requires reason == TARGET_CLOSED ==> s.targets[i].peerClosed && s.targets[i].read == s.targets[i].produced
    ensures GoodStep(s, ReaderEnd(s, i, reason), i)
  {
    hide LocalOk, GoodStep, BeginClose, Finished;
    ReaderStops(s, i);
    if reason == TARGET_CLOSED { EofFinishes(s, i); }
    ThenCloseGood(s, ReaderExit(s, i), i, reason, true);
  }

  lemma ReaderEndKeeps(s: Server, i: Id, reason: string)
    requires Inv(s) && i in s.targets && s.targets[i].reader.Waiting? && s.live <= s.targets.Keys
    requires reason == TARGET_CLOSED ==> s.targets[i].peerClosed && s.targets[i].read == s.targets[i].produced
    ensures Inv(ReaderEnd(s, i, reason))
  {
    hide Inv, LocalOk, GoodStep;
    InvLocal(s, i);
    ReaderEndGood(s, i, reason);
    NoNewSessionKeeps(s, ReaderEnd(s, i, reason), i);
  }

  lemma ReaderExitKeeps(s: Server, i: Id)
    requires Inv(s) && i in s.targets && s.targets[i].reader.Waiting?
    ensures Inv(ReaderExit(s, i))
  {
    assert LocalOk(s, i);
    ReaderStops(s, i);
    hide LocalOk, DownOk, OwnStep, DialOk;
    GoodStepKeeps(s, ReaderExit(s, i), i);
  }

  // ----- steps of the whole manager ------------------------------------------------------------------

  lemma StoppedKeeps(s: Server)
    requires Inv(s)
    ensures Inv(RaiseStopped(s))
  {
    hide DownPayload, DialOk;
    var s' := RaiseStopped(s);
    forall i: Id ensures LocalOk(s', i) { assert LocalOk(s, i); }
    forall k | 0 <= k < |s.down| ensures DownOk(s', k) { assert DownOk(s, k); }
  }

  lemma ClosedKeeps(s: Server)
    requires Inv(s)
    ensures Inv(RaiseClosed(s))
  {
    hide DownPayload, DialOk;
    var s' := RaiseClosed(s);
    forall i: Id ensures LocalOk(s', i) { assert LocalOk(s, i); }
    forall k | 0 <= k < |s.down| ensures DownOk(s', k) { assert DownOk(s, k); }
  }

  lemma LinkKeeps(s: Server, link: Link)
    requires Inv(s) && !link.Healthy?
    ensures Inv(s.(link := link))
  {
    var s' := s.(link := link);
    forall i: Id ensures LocalOk(s', i) { assert LocalOk(s, i); }
    forall k | 0 <= k < |s'.down| ensures DownOk(s', k) { assert DownOk(s, k); }
  }

  lemma ClearKeeps(s: Server)
    requires Inv(s) && s.closed
    ensures Inv(ClearAll(s))
  {
    var s' := ClearAll(s);
    hide DownPayload, DialOk;
    forall i: Id ensures LocalOk(s', i) { assert LocalOk(s, i); }
    forall k | 0 <= k < |s'.down| ensures DownOk(s', k) {
      assert DownOk(s, k);
      assert LocalOk(s, s.down[k].id);
    }
  }
}
