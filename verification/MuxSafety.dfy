/** What holds of every reachable state of a connection: the promises of the multiplexing protocol. */
module MuxSafety {
  import opened Common
  import opened MuxClient
  import opened MuxServer
  import opened MuxCross
  import opened Mux
  import CI = MuxClientInv
  import SI = MuxServerInv
  import Ssrf

  // ----- stretches of a channel -----------------------------------------------------------------

  /** Messages written and not yet handled. */
  function UpInFlight(z: Conn): seq<Up> {
    if z.upRead <= |z.c.up| then z.c.up[z.upRead..] else []
  }

  function DownInFlight(z: Conn): seq<Down> {
    if z.downRead <= |z.s.down| then z.s.down[z.downRead..] else []
  }

  lemma SplitSnoc<T>(s: seq<T>, n: nat)
    requires n < |s|
    ensures var front, last := s[..|s| - 1], s[|s| - 1];
            s == front + [last] && s[..n] == front[..n] && s[n..] == front[n..] + [last]
  {
  }

  /** What one message adds to a session's bytes. */
  function Part(m: Up, i: Id): Bytes {
    if CI.IsData(m, i) then m.payload else []
  }

  lemma SnocPart(up: seq<Up>, m: Up, i: Id)
    ensures CI.UpPayload(up + [m], i) == CI.UpPayload(up, i) + Part(m, i)
  {
    CI.UpSnoc(up, m, i);
  }

  lemma {:induction false} UpSplit(up: seq<Up>, n: nat, i: Id)
    requires n <= |up|
    ensures CI.UpPayload(up, i) == CI.UpPayload(up[..n], i) + CI.UpPayload(up[n..], i)
    decreases |up|, 1
  {
    if n == |up| {
      assert up[..n] == up && up[n..] == [];
    } else {
      LongerSplit(up, n, i);
    }
  }

  lemma LongerSplit(up: seq<Up>, n: nat, i: Id)
    requires n < |up|
    ensures CI.UpPayload(up, i) == CI.UpPayload(up[..n], i) + CI.UpPayload(up[n..], i)
    decreases |up|, 0
  {
    hide *;
    var front, last := up[..|up| - 1], up[|up| - 1];
    UpSplit(front, n, i);
    SplitSnoc(up, n);
    SnocPart(front, last, i);
    SnocPart(front[n..], last, i);
    ConcatAssoc(CI.UpPayload(front[..n], i), CI.UpPayload(front[n..], i), Part(last, i));
  }

  lemma {:induction false} DownPrefix(down: seq<Down>, n: nat, i: Id)
    requires n <= |down|
    ensures SI.DownPayload(down[..n], i) <= SI.DownPayload(down, i)
  {
    if n == |down| {
      assert down[..n] == down;
    } else {
      var front := down[..|down| - 1];
      DownPrefix(front, n, i);
      assert front[..n] == down[..n];
    }
  }

  // ----- uplink --------------------------------------------------------------------------------------

  /** Bytes of a session that its proxy still holds back. */
  function Waiting(t: Session): Bytes {
    if t.ready then [] else Flat(t.head + t.pending)
  }

  /** What a target received is a prefix of what the same session uploaded. */
  lemma UplinkPrefix(maxSessions: nat, actions: seq<Action>, i: Id)
    ensures var z := Run(maxSessions, actions);
            i in z.s.targets ==> i in z.c.sess && z.s.targets[i].written <= Upload(z.c.sess[i])
  {
    var z := Run(maxSessions, actions);
    RunHolds(maxSessions, actions);
    if i in z.s.targets {
      assert Known(z.s, i);
      Look(z, i);
      UpSplit(z.c.up, z.upRead, i);
      hide Inv, CI.UpPayload, Flat;
    }
  }

  /**
   * While the link is healthy and a session is not about to end, its upload is exactly what its target received, what
   * is in flight, and what the proxy holds back.
   */
  lemma UplinkConserved(maxSessions: nat, actions: seq<Action>, i: Id)
    ensures var z := Run(maxSessions, actions);
            i in z.c.live && z.c.link.Healthy? && z.s.link.Healthy? && !z.s.closed && !Due(z.s, i) ==>
              i in z.c.sess &&
              Written(z.s, i) + CI.UpPayload(UpInFlight(z), i) + Waiting(z.c.sess[i]) == Upload(z.c.sess[i])
  {
    hide Inv, Due, Written, Waiting, Upload, UpInFlight, CI.UpPayload;
    var z := Run(maxSessions, actions);
    RunHolds(maxSessions, actions);
    if i in z.c.live && z.c.link.Healthy? && z.s.link.Healthy? && !z.s.closed && !Due(z.s, i) { Conserved(z, i); }
  }

  lemma Conserved(z: Conn, i: Id)
    requires Inv(z) && i in z.c.live && z.c.link.Healthy? && z.s.link.Healthy? && !z.s.closed && !Due(z.s, i)
    ensures i in z.c.sess
    ensures Written(z.s, i) + CI.UpPayload(UpInFlight(z), i) + Waiting(z.c.sess[i]) == Upload(z.c.sess[i])
  {
    hide Inv, CI.UpPayload, Flat, CrossOk, UplinkOk, DownlinkOk, AgreeOk, Due, Written, SI.LocalOk, CI.UpOk, SI.DownOk, SI.Inv;
    Parts(z);
    Look(z, i);
    HandledIsWritten(z, i);
    UpSplit(z.c.up, z.upRead, i);
  }

  lemma HandledIsWritten(z: Conn, i: Id)
    requires Inv(z) && i in z.c.sess && z.upRead <= |z.c.up| && z.s.link.Healthy? && !z.s.closed && !Due(z.s, i)
    requires i in z.c.live
    ensures Written(z.s, i) == CI.UpPayload(z.c.up[..z.upRead], i)
  {
    hide Inv, CI.UpPayload, SI.LocalOk, CI.SessionOk, DownlinkOk;
    Look(z, i);
    CI.LiveIsOpen(z.c, i);
    if z.c.sess[i].openAt >= z.upRead {
      NoEarlyData(z.c, i);
      UpSplit(z.c.up[..z.c.sess[i].openAt + 1], z.upRead, i);
      assert z.c.up[..z.c.sess[i].openAt + 1][..z.upRead] == z.c.up[..z.upRead];
    }
  }

  /** A target sees end of stream only after every uploaded byte, and the pump reads no more. */
  lemma FinIsLast(maxSessions: nat, actions: seq<Action>, i: Id)
    ensures var z := Run(maxSessions, actions);
            i in z.s.targets && z.s.targets[i].finSent ==>
              i in z.c.sess && z.c.sess[i].pumpDone && z.s.targets[i].written == Upload(z.c.sess[i])
  {
    var z := Run(maxSessions, actions);
    RunHolds(maxSessions, actions);
    if i in z.s.targets {
      assert Known(z.s, i);
      Look(z, i);
      hide Inv, CI.UpPayload, Flat;
    }
  }

  /**
   * End of file on the local side is announced: once the tunnel is ready, a live session whose pump has met it has
   * written its half-close, behind every byte it uploaded.
   */
  lemma EofIsAnnounced(maxSessions: nat, actions: seq<Action>, i: Id)
    ensures var z := Run(maxSessions, actions);
            i in z.c.live && z.c.link.Healthy? ==>
              i in z.c.sess &&
              var t := z.c.sess[i];
              t.uplinkClosed || (t.ready && t.halfPending) ==>
                t.halfAt.Some? && t.halfAt.value < |z.c.up| && z.c.up[t.halfAt.value] == HalfClose(i)
                && CI.UpPayload(z.c.up[..t.halfAt.value], i) == Upload(t)
  {
    var z := Run(maxSessions, actions);
    RunHolds(maxSessions, actions);
    RunSettles(maxSessions, actions);
    hide Run;
    Parts(z);
    if i in z.c.live && z.c.link.Healthy? {
      assert Settled(z.c.sess[i]);
      HalfIsWritten(z.c, i);
    }
  }

  lemma HalfIsWritten(c: Client, i: Id)
    requires CI.Inv(c) && i in c.live && i in c.sess && c.link.Healthy? && Settled(c.sess[i])
    ensures var t := c.sess[i];
            t.uplinkClosed || (t.ready && t.halfPending) ==>
              t.halfAt.Some? && t.halfAt.value < |c.up| && c.up[t.halfAt.value] == HalfClose(i)
              && CI.UpPayload(c.up[..t.halfAt.value], i) == Upload(t)
  {
    hide CI.UpPayload, Flat;
    CI.InvSession(c, i);
    var t := c.sess[i];
    if t.uplinkClosed {
      NoDataAfterHalf(c, i, t.halfAt.value);
    }
  }

  lemma NoDataAfterHalf(c: Client, i: Id, n: nat)
    requires CI.Inv(c) && i in c.sess && c.sess[i].halfAt == Some(n) && n < |c.up|
    ensures CI.UpPayload(c.up[..n], i) == CI.UpPayload(c.up, i)
  {
    hide CI.SessionOk;
    forall k | n <= k < |c.up| ensures !CI.IsData(c.up[k], i) { assert CI.UpOk(c, k); }
    CI.UpTail(c.up, n, i);
  }

  /** A half-close the server has handled did reach the target. */
  lemma HalfCloseReachesTarget(maxSessions: nat, actions: seq<Action>, i: Id)
    ensures var z := Run(maxSessions, actions);
            i in z.s.targets && z.s.targets[i].uplinkClosed ==> z.s.targets[i].finSent
  {
    var z := Run(maxSessions, actions);
    RunHolds(maxSessions, actions);
    if i in z.s.targets {
      assert Known(z.s, i);
      Look(z, i);
    }
  }

  lemma DataIsWritten(s: Server, i: Id, payload: Bytes, taken: nat)
    requires s.live <= s.targets.Keys && taken <= |payload| && !s.closed && i in s.live
    requires s.targets[i].socket.Live? && !s.targets[i].uplinkClosed
    ensures var s' := HandleData(s, i, payload, taken);
            i in s'.targets && s'.targets[i].written == s.targets[i].written + payload[..taken]
  {
  }

  /** A data message of a session the server holds always reaches the socket: neither drop of `handleData` is taken. */
  lemma NothingDropped(maxSessions: nat, actions: seq<Action>, taken: nat, i: Id)
    ensures var z := Run(maxSessions, actions);
            var z' := Step(z, ServerReads(taken));
            Enabled(z, ServerReads(taken)) && z.c.up[z.upRead].UpData? && z.c.up[z.upRead].id == i
              && i in z.s.live && !z.s.closed ==>
              && i in z'.s.targets
              && z'.s.targets[i].written == z.s.targets[i].written + z.c.up[z.upRead].payload[..taken]
  {
    hide Inv, Run, HandleData;
    var z := Run(maxSessions, actions);
    RunHolds(maxSessions, actions);
    if Enabled(z, ServerReads(taken)) && z.c.up[z.upRead].UpData? && z.c.up[z.upRead].id == i && i in z.s.live && !z.s.closed {
      HeldIsKnown(z, i);
      ReadFacts(z, i);
      DataIsWritten(z.s, i, z.c.up[z.upRead].payload, taken);
    }
  }

  lemma HeldIsKnown(z: Conn, i: Id)
    requires Inv(z) && i in z.s.live
    ensures i in z.s.targets && i in z.c.sess
  {
    assert SI.LocalOk(z.s, i);
    assert Known(z.s, i);
  }

  // ----- downlink ---------------------------------------------------------------------------------------

  /** Everything a session's target has sent. */
  function Produced(s: Server, i: Id): Bytes {
    if i in s.targets then s.targets[i].produced else []
  }

  /** All that is downstream of a session came from its target. */
  lemma SentIsProduced(s: Server, i: Id)
    requires SI.LocalOk(s, i)
    ensures SI.DownPayload(s.down, i) <= Produced(s, i)
  {
    hide SI.DownPayload;
  }

  lemma DeliveredIsSent(z: Conn, i: Id)
    requires DownlinkOk(z, i)
    ensures z.downRead <= |z.s.down| && i in z.c.sess
    ensures Delivered(z.c.sess[i].calls) <= SI.DownPayload(z.s.down[..z.downRead], i)
  {
    hide SI.DownPayload, Delivered, StageOf;
  }

  /** What a session delivers is a prefix of what its own target sent. */
  lemma DownlinkPrefix(maxSessions: nat, actions: seq<Action>, i: Id)
    ensures var z := Run(maxSessions, actions);
            i in z.c.sess ==> Delivered(z.c.sess[i].calls) <= Produced(z.s, i)
  {
    hide Inv, SI.DownPayload, Delivered, Run, DownlinkOk, SI.LocalOk, CI.SessionOk, CrossOk;
    var z := Run(maxSessions, actions);
    RunHolds(maxSessions, actions);
    if i in z.c.sess {
      Look(z, i);
      DownPrefix(z.s.down, z.downRead, i);
      SentIsProduced(z.s, i);
      DeliveredIsSent(z, i);
    }
  }

  /** A session that ended because its target closed has delivered every byte the target sent. */
  lemma TargetClosedIsComplete(maxSessions: nat, actions: seq<Action>, i: Id)
    ensures var z := Run(maxSessions, actions);
            i in z.c.sess && TargetClosed(z.c.sess[i].calls) ==>
              && i in z.s.targets && z.s.targets[i].peerClosed
              && Delivered(z.c.sess[i].calls) == z.s.targets[i].produced
  {
    var z := Run(maxSessions, actions);
    RunHolds(maxSessions, actions);
    if i in z.c.sess { Look(z, i); }
  }

  // ----- callbacks ----------------------------------------------------------------------------------------

  /** `onOpen` comes first if at all, `onData` only after it, and `onClose` ends everything. */
  predicate Orderly(calls: seq<Callback>) {
    && (forall k | 0 <= k < |calls| :: calls[k].OnOpen? ==> k == 0)
    && (forall k | 0 <= k < |calls| :: calls[k].OnData? ==> calls[0].OnOpen?)
    && (forall k | 0 <= k < |calls| :: calls[k].OnClose? ==> k == |calls| - 1)
  }

  lemma {:induction false} StageMeaning(calls: seq<Callback>)
    requires StageOf(calls) != Bad
    ensures Orderly(calls)
    ensures StageOf(calls) == Fresh <==> calls == []
    ensures StageOf(calls) == Running ==> calls[0].OnOpen?
    ensures StageOf(calls) == Over <==> calls != [] && calls[|calls| - 1].OnClose?
  {
    if calls != [] {
      var front := calls[..|calls| - 1];
      StageMeaning(front);
      assert forall k | 0 <= k < |front| :: calls[k] == front[k];
    }
  }

  /** The stage of a session's callbacks is that of its record. */
  lemma StageIs(z: Conn, i: Id)
    requires DownlinkOk(z, i)
    ensures i in z.c.sess
    ensures StageOf(z.c.sess[i].calls)
         == (match z.c.sess[i].state case Connecting => Fresh case Open => Running case Closed => Over)
  {
    hide StageOf, Delivered, SI.DownPayload, TargetClosed;
  }

  /**
   * The life of a session: callbacks come in order, `onClose` has fired exactly when the session has left the map,
   * and then nothing follows.
   */
  lemma SessionLifecycle(maxSessions: nat, actions: seq<Action>, i: Id)
    ensures var z := Run(maxSessions, actions);
            i in z.c.sess ==>
              var t := z.c.sess[i];
              && Orderly(t.calls)
              && (i in z.c.live <==> !t.closed)
              && (t.closed <==> t.calls != [] && t.calls[|t.calls| - 1].OnClose?)
              && (t.state == Open ==> t.calls != [] && t.calls[0] == OnOpen)
  {
    hide Inv, StageOf, Orderly, Run, CI.SessionOk, SI.LocalOk, DownlinkOk, CrossOk, UplinkOk, AgreeOk;
    var z := Run(maxSessions, actions);
    RunHolds(maxSessions, actions);
    if i in z.c.sess {
      Look(z, i);
      StageIs(z, i);
      StageMeaning(z.c.sess[i].calls);
      HalfMeansDone(z.c, i);
      CI.LiveIsOpen(z.c, i);
    }
  }

  // ----- agreement -------------------------------------------------------------------------------------------

  /** Every session of the server is held by the client, or the client's `close` for it is on the way. */
  lemma ServerSessionsKnown(maxSessions: nat, actions: seq<Action>, i: Id)
    ensures var z := Run(maxSessions, actions);
            i in z.s.live && z.c.link.Healthy? ==>
              || i in z.c.live
              || UpClose(i) in UpInFlight(z)
              || z.s.handler == Failing(i)
  {
    var z := Run(maxSessions, actions);
    RunHolds(maxSessions, actions);
    if i in z.s.live && z.c.link.Healthy? && i !in z.c.live {
      assert SI.LocalOk(z.s, i);
      assert Known(z.s, i);
      Look(z, i);
      CI.LiveIsOpen(z.c, i);
      CloseInFlight(z, i);
    }
  }

  lemma CloseInFlight(z: Conn, i: Id)
    requires i in z.c.sess && z.upRead <= |z.c.up| && CI.MarksOk(z.c, i)
    ensures z.c.sess[i].closeAt.Some? && z.c.sess[i].closeAt.value >= z.upRead ==> UpClose(i) in z.c.up[z.upRead..]
  {
    var t := z.c.sess[i];
    if t.closeAt.Some? && t.closeAt.value >= z.upRead {
      assert z.c.up[z.upRead..][t.closeAt.value - z.upRead] == UpClose(i);
    }
  }

  /** A `closeSession` under way will still report to the client. */
  predicate Owed(s: Server, i: Id) {
    i in s.targets && s.targets[i].release.Some?
    && (s.targets[i].release.value.Notify? || s.targets[i].release.value.notify)
  }

  /** Where the client's word of a session, or the server's word of its end, stands. */
  lemma WhereItStands(z: Conn, i: Id)
    requires Inv(z) && i in z.c.live && z.s.link.Healthy? && !z.s.closed && !Alive(z.s, i)
    ensures z.upRead <= |z.c.up| && z.downRead <= |z.s.down| && i in z.c.sess
    ensures var t := z.c.sess[i];
            || (z.upRead <= t.openAt < |z.c.up| && z.c.up[t.openAt] == Connect(i, t.host, t.port))
            || (i in z.s.endAt && z.downRead <= z.s.endAt[i] < |z.s.down| && SI.IsEnd(z.s.down[z.s.endAt[i]], i))
            || Owed(z.s, i)
  {
    Look(z, i);
    CI.LiveIsOpen(z.c, i);
    hide Inv, CI.Inv, SI.Inv, UplinkOk, SI.PhaseOk, SI.ReaderOk, SI.MarksOk, CI.BytesOk, CI.FlagsOk, CrossOk;
  }

  /**
   * Every session of the client is held by the server, has its `connect` unhandled, or has word of its end in flight
   * or about to be written.
   */
  lemma ClientSessionsKnown(maxSessions: nat, actions: seq<Action>, i: Id)
    ensures var z := Run(maxSessions, actions);
            i in z.c.live && z.s.link.Healthy? && !z.s.closed ==>
              && i in z.c.sess
              && (|| Alive(z.s, i)
                  || Connect(i, z.c.sess[i].host, z.c.sess[i].port) in UpInFlight(z)
                  || (exists m | m in DownInFlight(z) :: SI.IsEnd(m, i))
                  || Owed(z.s, i))
  {
    var z := Run(maxSessions, actions);
    RunHolds(maxSessions, actions);
    hide Run, CI.Inv, SI.Inv, CrossOk;
    Parts(z);
    if i in z.c.live && z.s.link.Healthy? && !z.s.closed && !Alive(z.s, i) {
      hide Alive;
      WhereItStands(z, i);
      var t := z.c.sess[i];
      if z.upRead <= t.openAt < |z.c.up| && z.c.up[t.openAt] == Connect(i, t.host, t.port) {
        assert UpInFlight(z)[t.openAt - z.upRead] == z.c.up[t.openAt];
      } else if i in z.s.endAt && z.downRead <= z.s.endAt[i] < |z.s.down| {
        assert DownInFlight(z)[z.s.endAt[i] - z.downRead] == z.s.down[z.s.endAt[i]];
      }
    }
  }

  /** With both channels empty and nothing under way, the two ends hold the same sessions. */
  lemma QuiescentAgreement(maxSessions: nat, actions: seq<Action>)
    ensures var z := Run(maxSessions, actions);
            && z.c.link.Healthy? && z.s.link.Healthy? && !z.s.closed
            && z.upRead == |z.c.up| && z.downRead == |z.s.down| && z.s.handler.Idle?
            && (forall i | i in z.s.targets :: z.s.targets[i].release.None?)
            ==> z.c.live == z.s.live
  {
    var z := Run(maxSessions, actions);
    if && z.c.link.Healthy? && z.s.link.Healthy? && !z.s.closed
       && z.upRead == |z.c.up| && z.downRead == |z.s.down| && z.s.handler.Idle?
       && (forall i | i in z.s.targets :: z.s.targets[i].release.None?)
    {
      forall i: Id ensures i in z.c.live <==> i in z.s.live {
        ServerSessionsKnown(maxSessions, actions, i);
        ClientSessionsKnown(maxSessions, actions, i);
      }
    }
  }

  /** A `connect` never meets an id the server has seen before, so "duplicate sessionId" is never sent. */
  lemma NoDuplicateId(maxSessions: nat, actions: seq<Action>, taken: nat)
    ensures var z := Run(maxSessions, actions);
            Enabled(z, ServerReads(taken)) && z.c.up[z.upRead].Connect? ==>
              z.c.up[z.upRead].id !in z.s.live && z.c.up[z.upRead].id !in z.s.targets
  {
    var z := Run(maxSessions, actions);
    RunHolds(maxSessions, actions);
    if Enabled(z, ServerReads(taken)) && z.c.up[z.upRead].Connect? {
      var m := z.c.up[z.upRead];
      assert CI.UpOk(z.c, z.upRead) && m.id in z.c.sess;
      Look(z, m.id);
      ConnectFacts(z, m.id, m.host, m.port);
      assert SI.LocalOk(z.s, m.id);
    }
  }

  // ----- the server's resources ---------------------------------------------------------------------------------

  predicate SameClose(m: Down, n: Down) {
    m.Close? && n.Close? && m.id == n.id
  }

  /** At most one `close` is written per session, and the map never exceeds the limit. */
  lemma OneClosePerSession(maxSessions: nat, actions: seq<Action>, k: nat, l: nat)
    ensures var z := Run(maxSessions, actions);
            && |z.s.live| <= maxSessions
            && (k < |z.s.down| && l < |z.s.down| && SameClose(z.s.down[k], z.s.down[l]) ==> k == l)
  {
    var z := Run(maxSessions, actions);
    RunHolds(maxSessions, actions);
    LimitIsFixed(maxSessions, actions);
    if k < |z.s.down| && l < |z.s.down| {
      assert SI.DownOk(z.s, k) && SI.DownOk(z.s, l);
    }
  }

  /** A step leaves the server alone, handles a message, or is a sound step of the server. */
  lemma StepCases(z: Conn, a: Action)
    requires Inv(z)
    ensures || Step(z, a).s == z.s
            || Sound(z.s, Step(z, a).s)
            || (&& a.ServerReads? && Enabled(z, a)
                && Step(z, a).s == HandleUp(z.s, z.c.up[z.upRead], a.taken))
  {
    hide Inv, Sound, ClientStep, HandlerStep, ManagerStep, ReaderStep, HandleUp;
    if Enabled(z, a) && !a.ClientReceives? && !a.ServerReads? && !ClientEnabled(z.c, a) {
      ServerStepSound(z, a);
    }
  }

  lemma SoundKeepsLimit(s: Server, s': Server)
    requires Sound(s, s')
    ensures s'.maxSessions == s.maxSessions
  {
    hide SI.Inv;
    assert Quiet(s, s', 0);
  }

  lemma ReadKeepsLimit(s: Server, m: Up, taken: nat)
    requires s.live <= s.targets.Keys && (m.UpData? ==> taken <= |m.payload|)
    ensures HandleUp(s, m, taken).maxSessions == s.maxSessions
  {
    hide Send;
    if m.Connect? {
      SI.SendFrame(s, Error(m.id, "duplicate sessionId"));
      SI.SendFrame(s, Error(m.id, "per-connection session limit reached"));
    }
  }

  lemma StepKeepsLimit(z: Conn, a: Action)
    requires Inv(z)
    ensures Step(z, a).s.maxSessions == z.s.maxSessions
  {
    hide Inv, Step, HandleUp, Sound;
    StepCases(z, a);
    if Sound(z.s, Step(z, a).s) {
      SoundKeepsLimit(z.s, Step(z, a).s);
    } else if Step(z, a).s != z.s {
      ReadKeepsLimit(z.s, z.c.up[z.upRead], a.taken);
    }
  }

  lemma {:induction false} LimitIsFixed(maxSessions: nat, actions: seq<Action>)
    ensures Run(maxSessions, actions).s.maxSessions == maxSessions
  {
    if actions != [] {
      var before := actions[..|actions| - 1];
      LimitIsFixed(maxSessions, before);
      RunHolds(maxSessions, before);
      hide Inv, Step;
      StepKeepsLimit(Run(maxSessions, before), actions[|actions| - 1]);
    }
  }

  /** A connected socket always has an owner: the map, a `closeSession` under way, or the connect that dialed it. */
  lemma SocketsAreOwned(maxSessions: nat, actions: seq<Action>, i: Id)
    ensures var z := Run(maxSessions, actions);
            i in z.s.targets && z.s.targets[i].socket.Live? ==>
              || i in z.s.live
              || (z.s.targets[i].release.Some? && z.s.targets[i].release.value.CloseSocket?)
              || z.s.handler == Dialed(i)
  {
    var z := Run(maxSessions, actions);
    RunHolds(maxSessions, actions);
    assert SI.LocalOk(z.s, i);
  }

  /** Once the manager is stopped and nothing is under way, neither a session nor a connected socket remains. */
  lemma NothingRemains(maxSessions: nat, actions: seq<Action>, i: Id)
    ensures var z := Run(maxSessions, actions);
            z.s.cleared && z.s.handler.Idle? && (forall j | j in z.s.targets :: z.s.targets[j].release.None?) ==>
              z.s.live == {} && (i in z.s.targets ==> !z.s.targets[i].socket.Live?)
  {
    var z := Run(maxSessions, actions);
    RunHolds(maxSessions, actions);
    SocketsAreOwned(maxSessions, actions, i);
  }

  /** A session object is never forgotten; its socket is made at most once and closed at most once. */
  predicate MovesOn(s: Server, s': Server, i: Id) {
    i in s.targets ==>
      && i in s'.targets
      && Rank(s.targets[i].socket) <= Rank(s'.targets[i].socket)
      && s.targets[i].written <= s'.targets[i].written
      && s.targets[i].produced <= s'.targets[i].produced
  }

  lemma CloseMovesOn(s: Server, i: Id, reason: string, notify: bool, j: Id)
    requires s.live <= s.targets.Keys
    ensures MovesOn(s, BeginClose(s, i, reason, notify), j)
  {
  }

  lemma DataMovesOn(s: Server, i: Id, payload: Bytes, taken: nat, j: Id)
    requires s.live <= s.targets.Keys && taken <= |payload|
    ensures MovesOn(s, HandleData(s, i, payload, taken), j)
  {
    hide BeginClose;
    if !s.closed && i in s.live && s.targets[i].socket.Live? && !s.targets[i].uplinkClosed {
      var s' := Set(s, i, s.targets[i].(written := s.targets[i].written + payload[..taken]));
      assert MovesOn(s, s', j);
      CloseMovesOn(s', i, "target write failed", true, j);
    }
  }

  lemma HandleUpMovesOn(s: Server, m: Up, taken: nat, i: Id)
    requires s.live <= s.targets.Keys && (m.UpData? ==> taken <= |m.payload|)
    ensures MovesOn(s, HandleUp(s, m, taken), i)
  {
    hide HandleData, BeginClose, Send;
    match m
    case Connect(j, host, port) => ChecksMoveOn(s, j, host, port, i);
    case UpData(j, payload) => DataMovesOn(s, j, payload, taken, i);
    case HalfClose(j) => HalfMovesOn(s, j, i);
    case UpClose(j) => CloseMovesOn(s, j, "client closed", false, i);
  }

  lemma ChecksMoveOn(s: Server, i: Id, host: string, port: nat, j: Id)
    ensures MovesOn(s, ConnectCheck(s, i, host, port), j)
  {
    hide Send;
    SI.SendFrame(s, Error(i, "duplicate sessionId"));
    SI.SendFrame(s, Error(i, "per-connection session limit reached"));
  }

  lemma HalfMovesOn(s: Server, i: Id, j: Id)
    requires s.live <= s.targets.Keys
    ensures MovesOn(s, HandleHalfClose(s, i), j)
  {
  }

  lemma SoundMovesOn(s: Server, s': Server, i: Id)
    requires Sound(s, s')
    ensures MovesOn(s, s', i)
  {
    hide SI.Inv;
    assert Quiet(s, s', i);
  }

  lemma StepMovesOn(z: Conn, a: Action, i: Id)
    requires Inv(z)
    ensures MovesOn(z.s, Step(z, a).s, i)
  {
    hide Inv, Step, HandleUp, Sound;
    StepCases(z, a);
    if Sound(z.s, Step(z, a).s) {
      SoundMovesOn(z.s, Step(z, a).s, i);
    } else if Step(z, a).s != z.s {
      HandleUpMovesOn(z.s, z.c.up[z.upRead], a.taken, i);
    }
  }

  lemma TargetsMoveOn(maxSessions: nat, actions: seq<Action>, a: Action, i: Id)
    ensures MovesOn(Run(maxSessions, actions).s, Run(maxSessions, actions + [a]).s, i)
  {
    hide Inv, MovesOn;
    RunHolds(maxSessions, actions);
    RunSnoc(maxSessions, actions, a);
    StepMovesOn(Run(maxSessions, actions), a, i);
  }

  lemma RunSnoc(maxSessions: nat, actions: seq<Action>, a: Action)
    ensures Run(maxSessions, actions + [a]) == Step(Run(maxSessions, actions), a)
  {
    hide Step;
    assert (actions + [a])[..|actions|] == actions;
  }

  /** Every address dialed is the first of a guard's answer that holds no refused address. */
  lemma DialedAddressesPassed(maxSessions: nat, actions: seq<Action>, d: Dial)
    ensures d in Run(maxSessions, actions).s.dials ==>
              var guard := Ssrf.Guard(d.host, d.lookup);
              && guard.ok && guard.addresses != [] && d.address == guard.addresses[0]
              && forall a | a in guard.addresses :: !Ssrf.IsBlocked(a).blocked
  {
    RunHolds(maxSessions, actions);
  }
}
