/**
 * What each method of the server object does, left undisturbed, is a run of the transition system: its step, and then
 * the two halves of a close for as long as one is due.
 */
module ManagerRuns {
  import opened Common
  import opened MuxClient
  import opened MuxServer
  import opened MuxCross
  import opened SessionManager
  import M = Mux
  import SI = MuxServerInv

  // ----- a close that has begun ----------------------------------------------------------------

  /** Both halves of what a `closeSession` still has to do. */
  function Releases(i: Id): seq<M.Action> {
    [M.Releases(i)] + [M.Releases(i)]
  }

  lemma StepsCons(z: Conn, a: M.Action, rest: seq<M.Action>)
    ensures Steps(z, [a] + rest) == Steps(M.Step(z, a), rest)
    ensures Steps(z, [a]) == M.Step(z, a)
  {
    hide M.Step;
    assert ([a] + rest)[1..] == rest && [a][1..] == [];
  }

  lemma {:induction false} StepsConcat(z: Conn, a: seq<M.Action>, b: seq<M.Action>)
    ensures Steps(z, a + b) == Steps(Steps(z, a), b)
    decreases |a|
  {
    hide M.Step;
    if a == [] {
      assert a + b == b;
    } else {
      assert (a + b)[1..] == a[1..] + b;
      StepsConcat(M.Step(z, a[0]), a[1..], b);
    }
  }

  lemma ReleaseIsStep(z: Conn, i: Id)
    requires M.Shaped(z)
    ensures M.Step(z, M.Releases(i))
         == if i in z.s.targets && z.s.targets[i].release.Some? then z.(s := ReleaseStep(z.s, i)) else z
  {
    hide ReleaseStep;
  }

  lemma FinishIsSteps(z: Conn, i: Id)
    requires M.Shaped(z) && i in z.s.targets && z.s.targets[i].release.Some?
    ensures Steps(z, Releases(i)) == z.(s := FinishClose(z.s, i))
  {
    hide M.Step, ReleaseStep, Steps;
    var z1 := z.(s := ReleaseStep(z.s, i));
    ReleaseFrame(z.s, i);
    ReleaseIsStep(z, i);
    ReleaseIsStep(z1, i);
    StepsCons(z, M.Releases(i), [M.Releases(i)]);
    StepsCons(z1, M.Releases(i), []);
    if z1.s.targets[i].release.Some? { FinishTwice(z.s, i); } else { FinishOnce(z.s, i); }
  }

  lemma FinishTwice(s: Server, i: Id)
    requires i in s.targets && s.targets[i].release.Some?
    requires i in ReleaseStep(s, i).targets && ReleaseStep(s, i).targets[i].release.Some?
    ensures FinishClose(s, i) == ReleaseStep(ReleaseStep(s, i), i)
  {
    hide ReleaseStep;
  }

  lemma FinishOnce(s: Server, i: Id)
    requires i in s.targets && s.targets[i].release.Some?
    requires i in ReleaseStep(s, i).targets && ReleaseStep(s, i).targets[i].release.None?
    ensures FinishClose(s, i) == ReleaseStep(s, i)
  {
    hide ReleaseStep;
  }

  /** What is still to be done once a step took a session out of the map. */
  function Owed(s: Server, s': Server, i: Id): seq<M.Action> {
    if i in s.live && i !in s'.live then Releases(i) else []
  }

  /** A close begun by a step and carried to its end is `CloseNow`. */
  lemma CloseIsSteps(z: Conn, s: Server, i: Id, reason: string, notify: bool)
    requires s.live <= s.targets.Keys && z.s == BeginClose(s, i, reason, notify) && z.c.live <= z.c.sess.Keys
    ensures Steps(z, Owed(s, z.s, i)).s == CloseNow(s, i, reason, notify)
  {
    hide M.Step, FinishClose, Steps;
    NoSteps(z);
    if i in s.live {
      BegunRelease(s, i, reason, notify);
      Begun(s, i, reason, notify);
      FinishIsSteps(z, i);
    }
  }

  lemma NoSteps(z: Conn)
    ensures Steps(z, []) == z
  {
  }

  lemma Begun(s: Server, i: Id, reason: string, notify: bool)
    requires s.live <= s.targets.Keys && i in s.live
    ensures var s' := BeginClose(s, i, reason, notify); i !in s'.live && s'.live <= s'.targets.Keys
  {
  }

  // ----- data ---------------------------------------------------------------------------------

  /** The object's handling of a data frame is the protocol's step, then the close if the write fell short. */
  lemma DataNowIs(z: Conn, s: Server, i: Id, payload: Bytes, taken: nat)
    requires s.live <= s.targets.Keys && taken <= |payload| && z.c.live <= z.c.sess.Keys
    requires z.s == MuxServer.HandleData(s, i, payload, taken)
    ensures Steps(z, Owed(s, z.s, i)).s == HandleDataNow(s, i, payload, taken)
    ensures HandleDataNow(s, i, payload, taken)
         == if i in s.live && i !in z.s.live && i in z.s.targets && z.s.targets[i].release.Some?
            then FinishClose(z.s, i) else z.s
  {
    hide M.Step, BeginClose, CloseNow, FinishClose, Steps;
    NoSteps(z);
    if !s.closed && i in s.live && s.targets[i].socket.Live? && !s.targets[i].uplinkClosed {
      var s1 := Set(s, i, s.targets[i].(written := s.targets[i].written + payload[..taken]));
      if taken < |payload| {
        CloseIsSteps(z, s1, i, "target write failed", true);
        Begun(s1, i, "target write failed", true);
        BegunRelease(s1, i, "target write failed", true);
        CloseNowHeld(s1, i, "target write failed", true);
      }
    }
  }

  lemma CloseNowHeld(s: Server, i: Id, reason: string, notify: bool)
    requires s.live <= s.targets.Keys && i in s.live
    ensures var s1 := BeginClose(s, i, reason, notify);
            i in s1.targets && s1.targets[i].release.Some? && CloseNow(s, i, reason, notify) == FinishClose(s1, i)
  {
    hide FinishClose;
  }

  lemma DataStep(z: Conn, taken: nat)
    requires M.Enabled(z, M.ServerReads(taken)) && z.c.up[z.upRead].UpData?
    ensures var m := z.c.up[z.upRead];
            M.Step(z, M.ServerReads(taken)) == z.(s := MuxServer.HandleData(z.s, m.id, m.payload, taken), upRead := z.upRead + 1)
  {
    hide MuxServer.HandleData;
  }

  /** Handling a data frame without a pause is the message's step, followed by the close when the write fell short. */
  lemma DataIsARun(z: Conn, taken: nat)
    requires M.Enabled(z, M.ServerReads(taken)) && z.c.up[z.upRead].UpData?
    ensures var m, z1 := z.c.up[z.upRead], M.Step(z, M.ServerReads(taken));
            Steps(z1, Owed(z.s, z1.s, m.id)).s == HandleDataNow(z.s, m.id, m.payload, taken)
  {
    hide M.Step, MuxServer.HandleData, HandleDataNow, FinishClose, Steps, Owed;
    DataStep(z, taken);
    var m := z.c.up[z.upRead];
    DataNowIs(M.Step(z, M.ServerReads(taken)), z.s, m.id, m.payload, taken);
  }

  /**
   * A frame for a session that is held, connected and open: exactly the accepted bytes reach its target, and when they
   * are not all of them the session ends with its notice.
   */
  lemma DataReaches(s: Server, i: Id, payload: Bytes, taken: nat)
    requires s.live <= s.targets.Keys && taken <= |payload| && !s.closed && i in s.live
    requires s.targets[i].socket.Live? && !s.targets[i].uplinkClosed
    ensures var s' := HandleDataNow(s, i, payload, taken);
            && s'.targets.Keys == s.targets.Keys
            && s'.targets[i].written == s.targets[i].written + payload[..taken]
            && (forall j | j in s.targets && j != i :: s'.targets[j] == s.targets[j])
            && (taken == |payload| ==> s'.live == s.live && s'.down == s.down && s'.targets[i].socket.Live?)
            && (taken < |payload| ==>
                  && s'.live == s.live - {i} && s'.targets[i].socket == Socket.Released
                  && s'.down == s.down + if s.link.Healthy? then [Close(i, "target write failed")] else [])
  {
    hide CloseNow, Send;
    var s1 := Set(s, i, s.targets[i].(written := s.targets[i].written + payload[..taken]));
    if taken < |payload| { ClosesLoudly(s1, i, "target write failed"); }
  }

  /** A frame for a session that is not held, not connected or past its half-close changes nothing. */
  lemma DataIsIgnored(s: Server, i: Id, payload: Bytes, taken: nat)
    requires s.live <= s.targets.Keys && taken <= |payload|
    requires s.closed || i !in s.live || !s.targets[i].socket.Live? || s.targets[i].uplinkClosed
    ensures HandleDataNow(s, i, payload, taken) == s
  {
  }

  /** A half-close marks its session, and ends the target's input if there is a socket to end it on. */
  lemma HalfCloseMarks(s: Server, i: Id)
    requires s.live <= s.targets.Keys && i in s.live && !s.closed
    ensures var s' := MuxServer.HandleHalfClose(s, i);
            && s'.targets.Keys == s.targets.Keys && s'.live == s.live && s'.down == s.down
            && s'.targets[i].uplinkClosed && s'.targets[i].written == s.targets[i].written
            && s'.targets[i].socket == s.targets[i].socket
            && (s'.targets[i].finSent <==> s.targets[i].finSent || s.targets[i].socket.Live?)
            && (forall j | j in s.targets && j != i :: s'.targets[j] == s.targets[j])
  {
  }

  /** A connect for an id that is held is answered with an error, and the session that has it stays as it is. */
  lemma DuplicateIsRefused(s: Server, i: Id, host: string, port: nat)
    requires i in s.live && !s.closed
    ensures var s' := MuxServer.ConnectCheck(s, i, host, port);
            && s'.live == s.live && s'.targets == s.targets && s'.handler == s.handler
            && s'.down == s.down + if s.link.Healthy? then [Error(i, "duplicate sessionId")] else []
  {
  }

  /** A close with notice: socket released, session out of the map, one message if the link takes it. */
  lemma ClosesLoudly(s: Server, i: Id, reason: string)
    requires s.live <= s.targets.Keys && i in s.live
    ensures var s' := CloseNow(s, i, reason, true);
            && s'.targets.Keys == s.targets.Keys && s'.live == s.live - {i} && s'.link == s.link
            && s'.stopped == s.stopped && s'.closed == s.closed
            && s'.targets[i] == Dropped(s.targets[i]).(closeAt := NextAt(s))
            && (forall j | j in s.targets && j != i :: s'.targets[j] == s.targets[j])
            && s'.down == s.down + if s.link.Healthy? then [Close(i, reason)] else []
  {
    hide CloseNow, Dropped, NextAt;
    CloseNowIs(s, i, reason, true);
  }

  // ----- the reader thread ---------------------------------------------------------------------

  /** The steps of one turn of the reader thread, without the close it may entail. */
  function TurnSteps(s: Server, i: Id, r: Read): seq<M.Action>
    requires i in s.targets
  {
    if s.stopped || !s.targets[i].socket.Live? then [M.ReaderExits(i)]
    else
      match r
      case Chunk(n) => [M.ReaderTakes(i, n)] + [M.ReaderSends(i)]
      case Eof => [M.ReaderAtEof(i)]
      case Nothing(idle) => if idle then [M.ReaderIdles(i)] else []
  }

  lemma ReaderStepIs(z: Conn, a: M.Action)
    requires M.Shaped(z) && M.ReaderEnabled(z.s, a)
    ensures M.Step(z, a) == z.(s := M.ReaderStep(z.s, a))
  {
    hide M.ReaderStep;
  }

  lemma EndTurn(z: Conn, i: Id, a: M.Action, reason: string)
    requires M.Shaped(z) && M.ReaderEnabled(z.s, a) && i in z.s.targets
    requires M.ReaderStep(z.s, a) == ReaderEnd(z.s, i, reason)
    ensures var z1 := Steps(z, [a]); Steps(z1, Owed(z.s, z1.s, i)).s == ReaderCloses(z.s, i, reason, true)
  {
    hide M.Step, BeginClose, CloseNow, Steps, M.ReaderStep;
    ReaderStepIs(z, a);
    StepsCons(z, a, []);
    CloseIsSteps(M.Step(z, a), Set(z.s, i, z.s.targets[i].(reader := MuxServer.Done)), i, reason, true);
  }

  lemma ExitTurn(z: Conn, i: Id)
    requires M.Shaped(z) && M.ReaderEnabled(z.s, M.ReaderExits(i))
    ensures var z1 := Steps(z, [M.ReaderExits(i)]);
            z1.s == ReaderExit(z.s, i) && Steps(z1, Owed(z.s, z1.s, i)) == z1
  {
    hide M.Step, Steps;
    ReaderStepIs(z, M.ReaderExits(i));
    StepsCons(z, M.ReaderExits(i), []);
    NoSteps(M.Step(z, M.ReaderExits(i)));
  }

  /** The state after the reader has taken a chunk. */
  lemma TakeTurn(z: Conn, i: Id, n: nat)
    requires M.Shaped(z) && M.ReaderEnabled(z.s, M.ReaderTakes(i, n))
    ensures var z1 := z.(s := ReaderTake(z.s, i, n));
            && M.Step(z, M.ReaderTakes(i, n)) == z1 && M.Shaped(z1) && M.ReaderEnabled(z1.s, M.ReaderSends(i))
            && z1.s.live == z.s.live && z1.s.link == z.s.link
  {
    ReaderStepIs(z, M.ReaderTakes(i, n));
  }

  lemma SendTurn(z: Conn, i: Id)
    requires M.Shaped(z) && M.ReaderEnabled(z.s, M.ReaderSends(i))
    ensures var z1 := M.Step(z, M.ReaderSends(i));
            Steps(z1, Owed(z.s, z1.s, i)).s
              == match z.s.link
                 case Healthy => ReaderSend(z.s, i)
                 case Broken => ReaderCloses(z.s, i, "wss send failed", false)
                 case Shut => ReaderCloses(z.s, i, "wss closed", false)
  {
    hide M.Step, BeginClose, CloseNow, Send, Steps;
    ReaderStepIs(z, M.ReaderSends(i));
    var s1 := Set(z.s, i, z.s.targets[i].(reader := MuxServer.Done));
    var z1 := M.Step(z, M.ReaderSends(i));
    match z.s.link
    case Healthy =>
      SI.SendFrame(Set(z.s, i, z.s.targets[i].(reader := MuxServer.Waiting)), DownData(i, z.s.targets[i].reader.chunk));
      NoSteps(z1);
    case Broken => CloseIsSteps(z1, s1, i, "wss send failed", false);
    case Shut => CloseIsSteps(z1, s1, i, "wss closed", false);
  }

  lemma ChunkTurnSteps(z: Conn, i: Id, n: nat)
    requires M.Shaped(z) && M.ReaderEnabled(z.s, M.ReaderTakes(i, n))
    ensures var z1 := Steps(z, [M.ReaderTakes(i, n)] + [M.ReaderSends(i)]);
            Steps(z1, Owed(z.s, z1.s, i)).s == ReadTurn(z.s, i, Chunk(n))
  {
    hide M.Step, Steps, ReaderSend, ReaderCloses, ReaderTake, Owed;
    TakeTurn(z, i, n);
    var z1 := z.(s := ReaderTake(z.s, i, n));
    StepsCons(z, M.ReaderTakes(i, n), [M.ReaderSends(i)]);
    StepsCons(z1, M.ReaderSends(i), []);
    SendTurn(z1, i);
    SameOwed(z1.s, z.s, M.Step(z1, M.ReaderSends(i)).s, i);
  }

  lemma SameOwed(s: Server, s0: Server, s': Server, i: Id)
    requires s.live == s0.live
    ensures Owed(s, s', i) == Owed(s0, s', i)
  {
  }

  /**
   * One turn of the reader thread left undisturbed is a run: a chunk is taken and sent, the end of the target's bytes
   * or a long silence ends the session, and a stopped manager or a closed socket ends the thread.
   */
  lemma TurnIsARun(z: Conn, i: Id, r: Read)
    requires M.Shaped(z)
    requires i in z.s.targets && z.s.targets[i].reader == MuxServer.Waiting && Readable(z.s.targets[i], r)
    ensures var z1 := Steps(z, TurnSteps(z.s, i, r));
            Steps(z1, Owed(z.s, z1.s, i)).s == ReadTurn(z.s, i, r)
  {
    hide M.Step, Steps, ReaderSend, ReaderCloses, ReaderTake, ReaderExit, ReaderEnd, Owed;
    if z.s.stopped || !z.s.targets[i].socket.Live? {
      ExitTurn(z, i);
    } else {
      match r
      case Chunk(n) => ChunkTurnSteps(z, i, n);
      case Eof => EndTurn(z, i, M.ReaderAtEof(i), TARGET_CLOSED);
      case Nothing(idle) =>
        if idle { EndTurn(z, i, M.ReaderIdles(i), "target idle timeout"); } else { StayTurn(z, i); }
    }
  }

  lemma StayTurn(z: Conn, i: Id)
    ensures Steps(z, []) == z && Owed(z.s, z.s, i) == []
  {
  }

  /** When the target closes a session that is held, the client is told so at once, and the socket is released. */
  lemma EofTells(s: Server, i: Id, r: Read)
    requires i in s.live && s.live <= s.targets.Keys && Readable(s.targets[i], r) && !s.stopped
    requires s.targets[i].socket.Live? && (r.Eof? || r == Nothing(true))
    ensures var s' := ReadTurn(s, i, r);
            var reason := if r.Eof? then TARGET_CLOSED else "target idle timeout";
            && s'.live == s.live - {i} && s'.targets.Keys == s.targets.Keys
            && s'.targets[i].socket == Socket.Released && s'.targets[i].reader == MuxServer.Done
            && s'.down == s.down + if s.link.Healthy? then [Close(i, reason)] else []
  {
    hide CloseNow, Send, NextAt;
    var reason := if r.Eof? then TARGET_CLOSED else "target idle timeout";
    ClosesLoudly(Set(s, i, s.targets[i].(reader := MuxServer.Done)), i, reason);
  }

  /** A chunk that is read goes out on a healthy link, and nothing else does; on a failed one the session just leaves. */
  lemma ChunkGoesOut(s: Server, i: Id, n: nat)
    requires i in s.live && s.live <= s.targets.Keys && Readable(s.targets[i], Chunk(n)) && !s.stopped
    requires s.targets[i].socket.Live?
    ensures var s' := ReadTurn(s, i, Chunk(n));
            var chunk := s.targets[i].produced[|s.targets[i].read|..|s.targets[i].read| + n];
            && s'.targets.Keys == s.targets.Keys && s'.targets[i].read == s.targets[i].read + chunk
            && s'.down == s.down + (if s.link.Healthy? then [DownData(i, chunk)] else [])
            && s'.live == (if s.link.Healthy? then s.live else s.live - {i})
            && s'.targets[i].socket == if s.link.Healthy? then Socket.Live else Socket.Released
  {
    hide CloseNow, NextAt, ReadTurn;
    var t := s.targets[i].(read := s.targets[i].read + s.targets[i].produced[|s.targets[i].read|..|s.targets[i].read| + n]);
    ChunkTurn(s, i, n, t, s.targets[i].produced[|s.targets[i].read|..|s.targets[i].read| + n]);
    LeavesQuietly(Set(s, i, t.(reader := MuxServer.Done)), i, "wss send failed");
    LeavesQuietly(Set(s, i, t.(reader := MuxServer.Done)), i, "wss closed");
  }

  lemma LeavesQuietly(s: Server, i: Id, reason: string)
    requires s.live <= s.targets.Keys && i in s.live
    ensures var s' := CloseNow(s, i, reason, false);
            && s'.targets.Keys == s.targets.Keys && s'.live == s.live - {i} && s'.down == s.down
            && s'.targets[i] == Dropped(s.targets[i])
  {
    hide CloseNow, Dropped;
    CloseNowIs(s, i, reason, false);
  }

  // ----- the client's close, the sweep, and the end of the manager ----------------------------------

  lemma CloseStep(z: Conn, taken: nat)
    requires M.Enabled(z, M.ServerReads(taken)) && z.c.up[z.upRead].UpClose?
    ensures var m := z.c.up[z.upRead];
            M.Step(z, M.ServerReads(taken))
              == z.(s := BeginClose(z.s, m.id, "client closed", false), upRead := z.upRead + 1)
  {
    hide BeginClose;
  }

  /** Handling the client's `close` without a pause is the message's step and then the release, with no notice. */
  lemma ClientCloseIsARun(z: Conn, taken: nat)
    requires M.Enabled(z, M.ServerReads(taken)) && z.c.up[z.upRead].UpClose?
    ensures var m, z1 := z.c.up[z.upRead], M.Step(z, M.ServerReads(taken));
            Steps(z1, Owed(z.s, z1.s, m.id)).s == CloseNow(z.s, m.id, "client closed", false)
  {
    hide M.Step, BeginClose, CloseNow, Steps, Owed;
    CloseStep(z, taken);
    CloseIsSteps(M.Step(z, M.ServerReads(taken)), z.s, z.c.up[z.upRead].id, "client closed", false);
  }

  /** The steps of a sweep that closes these sessions. */
  function SweepSteps(ids: seq<Id>): seq<M.Action>
    decreases |ids|
  {
    if ids == [] then [] else [M.Sweeps(ids[0])] + (Releases(ids[0]) + SweepSteps(ids[1..]))
  }

  lemma SweepOne(z: Conn, i: Id)
    requires M.Shaped(z) && !z.s.stopped && i in z.s.live
    ensures var s' := CloseNow(z.s, i, "idle timeout", true);
            Steps(M.Step(z, M.Sweeps(i)), Releases(i)) == z.(s := s') && !s'.stopped
  {
    hide M.Step, BeginClose, CloseNow, Steps, FinishClose;
    SweepStep(z, i);
    var z1 := M.Step(z, M.Sweeps(i));
    Begun(z.s, i, "idle timeout", true);
    BegunRelease(z.s, i, "idle timeout", true);
    CloseNowHeld(z.s, i, "idle timeout", true);
    FinishIsSteps(z1, i);
    ClosesLoudly(z.s, i, "idle timeout");
  }

  lemma SweepStep(z: Conn, i: Id)
    requires M.Shaped(z) && !z.s.stopped
    ensures M.Step(z, M.Sweeps(i)) == z.(s := BeginClose(z.s, i, "idle timeout", true))
  {
    hide BeginClose;
  }

  lemma OthersHeld(live: set<Id>, ids: seq<Id>)
    requires ids != [] && Distinct(ids) && forall i | i in ids :: i in live
    ensures ids[0] in live && Distinct(ids[1..]) && forall i | i in ids[1..] :: i in live - {ids[0]}
  {
    assert forall j | 0 < j < |ids| :: ids[j] != ids[0] && ids[j] == ids[1..][j - 1];
  }

  /** A sweep left undisturbed is a run: each idle session closed, released and reported, one after the other. */
  lemma {:induction false} SweepIsARun(z: Conn, ids: seq<Id>)
    requires M.Shaped(z) && !z.s.stopped && Distinct(ids) && forall i | i in ids :: i in z.s.live
    ensures Steps(z, SweepSteps(ids)) == z.(s := CloseEach(z.s, ids, "idle timeout"))
    decreases |ids|
  {
    hide M.Step, CloseNow, Steps, CloseEach, Distinct;
    if ids == [] {
      NoSteps(z);
      CloseNone(z.s, "idle timeout");
    } else {
      OthersHeld(z.s.live, ids);
      SweepOne(z, ids[0]);
      var z1 := z.(s := CloseNow(z.s, ids[0], "idle timeout", true));
      StepsCons(z, M.Sweeps(ids[0]), Releases(ids[0]) + SweepSteps(ids[1..]));
      StepsConcat(M.Step(z, M.Sweeps(ids[0])), Releases(ids[0]), SweepSteps(ids[1..]));
      SweepIsARun(z1, ids[1..]);
      CloseFirst(z.s, ids, "idle timeout");
    }
  }

  /** A sweep releases each of its sessions and reports it once, in order; the others stay as they are. */
  lemma {:induction false} SweepReports(s: Server, ids: seq<Id>, reason: string)
    requires s.live <= s.targets.Keys && Distinct(ids) && forall i | i in ids :: i in s.live
    ensures var s' := CloseEach(s, ids, reason);
            && s'.targets.Keys == s.targets.Keys && s'.link == s.link
            && s'.live == s.live - (set i | i in ids)
            && (forall i | i in ids :: !s'.targets[i].socket.Live? && s'.targets[i].release.None?)
            && (forall i | i in s.targets && i !in ids :: s'.targets[i] == s.targets[i])
            && s'.down == s.down + if s.link.Healthy? then Closes(ids, reason) else []
    decreases |ids|
  {
    hide CloseNow, CloseEach, Distinct, NextAt;
    if ids == [] {
      CloseNone(s, reason);
      assert s.down + Closes([], reason) == s.down && s.down + [] == s.down && s.live - (set i | i in ids) == s.live;
    } else {
      OthersHeld(s.live, ids);
      ClosesLoudly(s, ids[0], reason);
      SweepReports(CloseNow(s, ids[0], reason, true), ids[1..], reason);
      CloseFirst(s, ids, reason);
      FirstOrRest(ids);
      ClosesCons(s.down, ids, reason);
      assert s.live - (set i | i in ids) == s.live - {ids[0]} - (set i | i in ids[1..]);
    }
  }

  /** The steps that release what `destroyAll` took out of the map. */
  function ReleaseSteps(ids: seq<Id>): seq<M.Action>
    decreases |ids|
  {
    if ids == [] then [] else Releases(ids[0]) + ReleaseSteps(ids[1..])
  }

  lemma {:induction false} ReleasingIsARun(z: Conn, ids: seq<Id>)
    requires M.Shaped(z) && Releasing(z.s, ids)
    ensures Steps(z, ReleaseSteps(ids)) == z.(s := ReleaseEach(z.s, ids))
    decreases |ids|
  {
    hide M.Step, Steps, ReleaseEach, FinishClose, Releasing;
    if ids == [] {
      NoSteps(z);
      NothingToRelease(z.s);
    } else {
      ReleaseFirst(z.s, ids);
      FinishIsSteps(z, ids[0]);
      StepsConcat(z, Releases(ids[0]), ReleaseSteps(ids[1..]));
      ReleasingIsARun(z.(s := FinishClose(z.s, ids[0])), ids[1..]);
    }
  }

  lemma StopSteps(z: Conn)
    requires M.Shaped(z) && !z.s.cleared
    ensures Steps(z, [M.Stops] + ([M.Closes] + [M.Clears])) == z.(s := ClearAll(RaiseClosed(RaiseStopped(z.s))))
  {
    hide M.Step, Steps, ClearAll;
    FlagSteps(z);
    StepsCons(z, M.Stops, [M.Closes] + [M.Clears]);
    StepsCons(M.Step(z, M.Stops), M.Closes, [M.Clears]);
    StepsCons(M.Step(M.Step(z, M.Stops), M.Closes), M.Clears, []);
  }

  lemma FlagSteps(z: Conn)
    requires M.Shaped(z) && !z.s.cleared
    ensures var z1 := z.(s := RaiseStopped(z.s));
            var z2 := z.(s := RaiseClosed(z1.s));
            && M.Step(z, M.Stops) == z1 && M.Step(z1, M.Closes) == z2
            && M.Step(z2, M.Clears) == z.(s := ClearAll(z2.s))
  {
    hide M.Step, ClearAll;
    StopFlag(z);
    CloseFlag(z.(s := RaiseStopped(z.s)));
    ClearStep(z.(s := RaiseClosed(RaiseStopped(z.s))));
  }

  lemma StopFlag(z: Conn)
    requires M.Shaped(z)
    ensures M.Step(z, M.Stops) == z.(s := RaiseStopped(z.s))
  {
  }

  lemma CloseFlag(z: Conn)
    requires M.Shaped(z) && z.s.stopped
    ensures M.Step(z, M.Closes) == z.(s := RaiseClosed(z.s))
  {
  }

  lemma ClearStep(z: Conn)
    requires M.Shaped(z) && z.s.closed && !z.s.cleared
    ensures M.Step(z, M.Clears) == z.(s := ClearAll(z.s))
  {
    hide ClearAll;
  }

  /** `stop` left undisturbed is a run: both flags, the map emptied, every session in it released and reported. */
  lemma StopIsARun(z: Conn, ids: seq<Id>)
    requires M.Shaped(z) && !z.s.cleared && Distinct(ids) && forall i: Id :: i in ids <==> i in z.s.live
    ensures var s := ClearAll(RaiseClosed(RaiseStopped(z.s)));
            && Releasing(s, ids)
            && Steps(z, [M.Stops] + ([M.Closes] + [M.Clears]) + ReleaseSteps(ids)).s == ReleaseEach(s, ids)
  {
    hide M.Step, Steps, ReleaseEach, Releasing, ClearAll, Distinct;
    var s1 := RaiseClosed(RaiseStopped(z.s));
    ClearedWait(s1, ids);
    StopSteps(z);
    StepsConcat(z, [M.Stops] + ([M.Closes] + [M.Clears]), ReleaseSteps(ids));
    ClearedShaped(z);
    ReleasingIsARun(z.(s := ClearAll(s1)), ids);
  }

  lemma ClearedShaped(z: Conn)
    requires M.Shaped(z)
    ensures M.Shaped(z.(s := ClearAll(RaiseClosed(RaiseStopped(z.s)))))
  {
  }
}
