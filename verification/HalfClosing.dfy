/** What a half-close leaves of the other direction: the session's end once its proxy has gone. */
module HalfClosing {
  import opened Common
  import opened MuxClient
  import opened MuxServer
  import opened MuxCross
  import opened Mux
  import opened MuxSafety
  import CI = MuxClientInv
  import SI = MuxServerInv
  import Ssrf

  // ----- after the proxy has gone ------------------------------------------------------------------------------

  /** What a closed session keeps. */
  predicate StaysClosed(c: Client, c': Client, i: Id) {
    i in c.sess && c.sess[i].closed ==> i in c'.sess && c'.sess[i].closed && c'.sess[i].calls == c.sess[i].calls
  }

  lemma LocalStaysClosed(c: Client, c': Client, i: Id, j: Id)
    requires CI.LocalStep(c, c', i)
    ensures StaysClosed(c, c', j)
  {
    hide CI.SessionOk, CI.UpOk;
  }

  lemma ReceiveStaysClosed(c: Client, m: Down, j: Id)
    requires CI.Inv(c)
    ensures c.live <= c.sess.Keys && StaysClosed(c, Receive(c, m), j)
  {
    hide CI.SessionOk, CI.UpOk, Receive;
    ReceiveFrame(c, m);
    if m.id in c.sess && c.sess[m.id].closed { IgnoredWhenClosed(c, m); }
  }

  lemma ClientStaysClosed(c: Client, a: Action, j: Id)
    requires CI.Inv(c) && ClientEnabled(c, a)
    ensures StaysClosed(c, ClientStep(c, a), j)
  {
    hide CI.Inv, CI.LocalStep, PumpRead, PumpEof, PumpStop, ProxyExit;
    if ProxyStep(a) {
      ProxyStepLocal(c, a);
      LocalStaysClosed(c, ClientStep(c, a), a.id, j);
    } else if j in c.sess {
      CI.LiveIsOpen(c, j);
    }
  }

  lemma StepStaysClosed(z: Conn, a: Action, j: Id)
    requires Inv(z)
    ensures StaysClosed(z.c, Step(z, a).c, j)
  {
    hide CI.Inv, SI.Inv, StaysClosed, ClientStep, HandlerStep, ManagerStep, ReaderStep, Receive, HandleUp;
    StillStaysClosed(z.c, j);
    if Enabled(z, a) {
      if a.ClientReceives? { ReceiveStaysClosed(z.c, z.s.down[z.downRead], j); }
      else if !a.ServerReads? && ClientEnabled(z.c, a) { ClientStaysClosed(z.c, a, j); }
    }
  }

  lemma StillStaysClosed(c: Client, j: Id)
    ensures StaysClosed(c, c, j)
  {
  }

  /** Over any continuation of a run a closed session hears nothing more, and a target's bytes only grow. */
  lemma {:induction false} ClosedIsFinal(maxSessions: nat, before: seq<Action>, after: seq<Action>, i: Id)
    ensures StaysClosed(Run(maxSessions, before).c, Run(maxSessions, before + after).c, i)
    ensures Produced(Run(maxSessions, before).s, i) <= Produced(Run(maxSessions, before + after).s, i)
    decreases |after|
  {
    hide Inv, Run, Step;
    if after == [] {
      assert before + after == before;
    } else {
      var front, a := after[..|after| - 1], after[|after| - 1];
      ClosedIsFinal(maxSessions, before, front, i);
      RunHolds(maxSessions, before + front);
      StepStaysClosed(Run(maxSessions, before + front), a, i);
      StepMovesOn(Run(maxSessions, before + front), a, i);
      RunSnoc(maxSessions, before + front, a);
      assert before + front + [a] == before + after;
    }
  }

  lemma ExitCloses(c: Client, i: Id)
    requires i in c.sess && Settled(c.sess[i])
    ensures var c' := ProxyExit(c, i);
            i in c'.sess && c'.sess[i].closed && Delivered(c'.sess[i].calls) == Delivered(c.sess[i].calls)
  {
    hide Delivered;
    DeliveredSnoc(c.sess[i].calls, OnClose(ClientClosed));
  }

  lemma PrefixBothWays(d: Bytes, p: Bytes, p': Bytes)
    requires d <= p <= p'
    ensures d == p' <==> d == p && p == p'
  {
  }

  /**
   * Once the proxy has gone, its session delivers nothing more, whatever happens afterwards.  So the downstream comes
   * out complete exactly when it was complete by then and the target sends no more.
   */
  lemma ExitEndsDownstream(maxSessions: nat, before: seq<Action>, after: seq<Action>, i: Id)
    requires Enabled(Run(maxSessions, before), ProxyExits(i))
    ensures var z, z' := Run(maxSessions, before), Run(maxSessions, before + [ProxyExits(i)] + after);
            && i in z.c.sess && i in z'.c.sess && z'.c.sess[i].closed
            && Delivered(z'.c.sess[i].calls) == Delivered(z.c.sess[i].calls)
            && Produced(z.s, i) <= Produced(z'.s, i)
            && (Delivered(z'.c.sess[i].calls) == Produced(z'.s, i) <==>
                  Delivered(z.c.sess[i].calls) == Produced(z.s, i) && Produced(z'.s, i) == Produced(z.s, i))
  {
    hide Run, Delivered, Produced, Settled, ProxyExit;
    var z, z1 := Run(maxSessions, before), Run(maxSessions, before + [ProxyExits(i)]);
    var z' := Run(maxSessions, before + [ProxyExits(i)] + after);
    RunSnoc(maxSessions, before, ProxyExits(i));
    RunSettles(maxSessions, before);
    ExitCloses(z.c, i);
    assert Produced(z1.s, i) == Produced(z.s, i);
    ClosedIsFinal(maxSessions, before + [ProxyExits(i)], after, i);
    DownlinkPrefix(maxSessions, before, i);
    PrefixBothWays(Delivered(z.c.sess[i].calls), Produced(z.s, i), Produced(z'.s, i));
  }

  // ----- an answer that is lost ----------------------------------------------------------------------------------

  /**
   * A session is opened, connected and announced; the local side ends its upload, and the server passes that on.  The
   * target has still to answer.
   */
  function Asked(i: Id, host: string, port: nat, lookup: Ssrf.Lookup): seq<Action> {
    [] + [OpenStep(i, host, port, [])] + [ServerReads(0)] + [Inserts] + [GuardReturns(lookup)] + [DialReturns(true)]
    + [Publishes] + [Announces] + [StartsReader] + [ClientReceives] + [PumpEnds(i)] + [ServerReads(0)]
  }

  /** A server with one session. */
  function One(maxSessions: nat, i: Id, t: Target, handler: Handler, down: seq<Down>, dials: seq<Dial>): Server {
    Server(Healthy, maxSessions, false, false, false, {i}, map[i := t], handler, down, map[], dials)
  }

  function TargetOf(host: string, port: nat, socket: Socket, published: bool, announcedAt: Option<nat>, reader: Reader): Target {
    Target(host, port, socket, false, published, [], false, [], false, [], reader, None, announcedAt, None)
  }

  function Asking(i: Id, host: string, port: nat): Client {
    Client(Healthy, {i}, map[i := NewSession(host, port, [], 0)], [MuxClient.Connect(i, host, port)])
  }

  lemma AskOpens(n: nat, i: Id, host: string, port: nat)
    ensures Step(Start(n), OpenStep(i, host, port, [])) == Conn(Asking(i, host, port), 0, 0, Start(n).s)
  {
  }

  lemma AskInserts(n: nat, i: Id, host: string, port: nat)
    requires n > 0
    ensures Step(Step(Conn(Asking(i, host, port), 0, 0, Start(n).s), ServerReads(0)), Inserts)
         == Conn(Asking(i, host, port), 1, 0,
                 One(n, i, TargetOf(host, port, NoSocket, false, None, NotStarted), Inserted(i), [], []))
  {
  }

  /** The guard passed the host, so there is an address to dial. */
  function Chosen(host: string, lookup: Ssrf.Lookup): Dial
    requires Ssrf.Guard(host, lookup).ok
  {
    SI.GuardDial(host, lookup);
    Dial(host, lookup, Ssrf.Guard(host, lookup).addresses[0])
  }

  lemma AskDials(n: nat, i: Id, host: string, port: nat, lookup: Ssrf.Lookup, z: Conn)
    requires Ssrf.Guard(host, lookup).ok
    requires z == Conn(Asking(i, host, port), 1, 0,
                       One(n, i, TargetOf(host, port, NoSocket, false, None, NotStarted), Inserted(i), [], []))
    ensures Step(Step(z, GuardReturns(lookup)), DialReturns(true))
         == Conn(Asking(i, host, port), 1, 0,
                 One(n, i, TargetOf(host, port, Live, false, None, NotStarted), Handler.Dialed(i), [], [Chosen(host, lookup)]))
  {
    hide Ssrf.Guard;
    SI.GuardDial(host, lookup);
  }

  lemma AskPublishes(n: nat, i: Id, host: string, port: nat, d: Dial, z: Conn)
    requires z == Conn(Asking(i, host, port), 1, 0,
                       One(n, i, TargetOf(host, port, Live, false, None, NotStarted), Handler.Dialed(i), [], [d]))
    ensures Step(z, Publishes)
         == Conn(Asking(i, host, port), 1, 0,
                 One(n, i, TargetOf(host, port, Live, true, None, NotStarted), Published(i), [], [d]))
  {
  }

  lemma AskAnnounces(n: nat, i: Id, host: string, port: nat, d: Dial, z: Conn)
    requires z == Conn(Asking(i, host, port), 1, 0,
                       One(n, i, TargetOf(host, port, Live, true, None, NotStarted), Published(i), [], [d]))
    ensures Step(z, Announces)
         == Conn(Asking(i, host, port), 1, 0,
                 One(n, i, TargetOf(host, port, Live, true, Some(0), NotStarted), Handler.Announced(i),
                     [MuxClient.Connected(i)], [d]))
  {
  }

  /** The client of a session that has opened. */
  function Answering(i: Id, host: string, port: nat): Client {
    Asking(i, host, port).(sess := map[i := NewSession(host, port, [], 0).(state := Open, ready := true, calls := [OnOpen])])
  }

  lemma AskConnects(n: nat, i: Id, host: string, port: nat, d: Dial, z: Conn)
    requires z == Conn(Asking(i, host, port), 1, 0,
                       One(n, i, TargetOf(host, port, Live, true, Some(0), NotStarted), Handler.Announced(i),
                           [MuxClient.Connected(i)], [d]))
    ensures Step(z, StartsReader)
         == Conn(Asking(i, host, port), 1, 0,
                 One(n, i, TargetOf(host, port, Live, true, Some(0), MuxServer.Waiting), Idle, [MuxClient.Connected(i)], [d]))
  {
  }

  lemma AskReceives(i: Id, host: string, port: nat)
    ensures Receive(Asking(i, host, port), MuxClient.Connected(i)) == Answering(i, host, port)
  {
    hide PushAll;
    var c := Asking(i, host, port);
    assert c.sess[i].head + c.sess[i].pending == [];
    CI.FlushedEffect(c, i);
    assert c.up + CI.Datas(i, []) == c.up;
    assert [] + [OnOpen] == [OnOpen] && Answering(i, host, port).sess == c.sess[i := Answering(i, host, port).sess[i]];
  }

  lemma AskOpened(n: nat, i: Id, host: string, port: nat, d: Dial, z: Conn)
    requires z == Conn(Asking(i, host, port), 1, 0,
                       One(n, i, TargetOf(host, port, Live, true, Some(0), MuxServer.Waiting), Idle,
                           [MuxClient.Connected(i)], [d]))
    ensures Step(z, ClientReceives)
         == Conn(Answering(i, host, port), 1, 1,
                 One(n, i, TargetOf(host, port, Live, true, Some(0), MuxServer.Waiting), Idle, [MuxClient.Connected(i)], [d]))
  {
    hide Receive;
    AskReceives(i, host, port);
  }

  /** The upload has ended on both ends; the session is open and the target connected. */
  predicate Awaiting(z: Conn, i: Id) {
    && i in z.c.live && i in z.c.sess && z.c.sess[i].state == Open && z.c.sess[i].pumpDone && z.c.sess[i].calls == [OnOpen]
    && i in z.s.live && i in z.s.targets && z.s.targets[i].socket.Live? && z.s.targets[i].finSent
    && z.s.targets[i].reader == MuxServer.Waiting && z.s.targets[i].produced == [] && !z.s.targets[i].peerClosed
    && z.c.link.Healthy? && z.s.link.Healthy? && !z.s.closed && !z.s.stopped
    && z.upRead == |z.c.up| && z.downRead == |z.s.down| && Shaped(z)
  }

  lemma AskEnds(n: nat, i: Id, host: string, port: nat, d: Dial, z: Conn)
    requires z == Conn(Answering(i, host, port), 1, 1,
                       One(n, i, TargetOf(host, port, Live, true, Some(0), MuxServer.Waiting), Idle,
                           [MuxClient.Connected(i)], [d]))
    ensures var t := z.c.sess[i].(pumpDone := true, uplinkClosed := true, halfAt := Some(1));
            Step(z, PumpEnds(i)) == z.(c := z.c.(sess := map[i := t], up := z.c.up + [MuxClient.HalfClose(i)]))
  {
  }

  lemma AskHalfCloses(n: nat, i: Id, host: string, port: nat, d: Dial, z: Conn)
    requires z.s == One(n, i, TargetOf(host, port, Live, true, Some(0), MuxServer.Waiting), Idle,
                        [MuxClient.Connected(i)], [d])
    requires z.c.link.Healthy? && z.c.live == {i} && i in z.c.sess && z.upRead == z.downRead == 1
    requires z.c.sess[i].state == Open && z.c.sess[i].pumpDone && z.c.sess[i].calls == [OnOpen]
    requires |z.c.up| == 2 && z.c.up[1] == MuxClient.HalfClose(i)
    ensures Awaiting(Step(z, ServerReads(0)), i)
  {
  }

  lemma AskedWaits(n: nat, i: Id, host: string, port: nat, lookup: Ssrf.Lookup)
    requires n > 0 && Ssrf.Guard(host, lookup).ok
    ensures Awaiting(Run(n, Asked(i, host, port, lookup)), i)
  {
    hide Step, Awaiting, Ssrf.Guard, Chosen;
    var d := Chosen(host, lookup);
    var a: seq<Action> := [] + [OpenStep(i, host, port, [])];
    RunSnoc(n, [], OpenStep(i, host, port, []));
    AskOpens(n, i, host, port);
    RunSnoc(n, a, ServerReads(0));
    RunSnoc(n, a + [ServerReads(0)], Inserts);
    AskInserts(n, i, host, port);
    var b := a + [ServerReads(0)] + [Inserts];
    RunSnoc(n, b, GuardReturns(lookup));
    RunSnoc(n, b + [GuardReturns(lookup)], DialReturns(true));
    AskDials(n, i, host, port, lookup, Run(n, b));
    var e := b + [GuardReturns(lookup)] + [DialReturns(true)];
    RunSnoc(n, e, Publishes);
    AskPublishes(n, i, host, port, d, Run(n, e));
    RunSnoc(n, e + [Publishes], Announces);
    AskAnnounces(n, i, host, port, d, Run(n, e + [Publishes]));
    var f := e + [Publishes] + [Announces];
    RunSnoc(n, f, StartsReader);
    AskConnects(n, i, host, port, d, Run(n, f));
    RunSnoc(n, f + [StartsReader], ClientReceives);
    AskOpened(n, i, host, port, d, Run(n, f + [StartsReader]));
    var g := f + [StartsReader] + [ClientReceives];
    RunSnoc(n, g, PumpEnds(i));
    AskEnds(n, i, host, port, d, Run(n, g));
    RunSnoc(n, g + [PumpEnds(i)], ServerReads(0));
    AskHalfCloses(n, i, host, port, d, Run(n, g + [PumpEnds(i)]));
  }

  lemma SendsAfterExit(z: Conn, i: Id, bytes: Bytes)
    requires Awaiting(z, i)
    ensures Enabled(z, ProxyExits(i)) && Step(z, ProxyExits(i)) == z.(c := ProxyExit(z.c, i))
    ensures Enabled(z.(c := ProxyExit(z.c, i)), TargetSends(i, bytes))
  {
    hide Step, ProxyExit;
    ExitIsStep(z, i);
    ExitShapes(z, i);
  }

  lemma ExitIsStep(z: Conn, i: Id)
    requires Enabled(z, ProxyExits(i))
    ensures Step(z, ProxyExits(i)) == z.(c := ProxyExit(z.c, i))
  {
    hide ProxyExit;
  }

  lemma ExitShapes(z: Conn, i: Id)
    requires Shaped(z) && i in z.c.sess
    ensures Shaped(z.(c := ProxyExit(z.c, i)))
  {
  }

  lemma SentIsProducedNow(z: Conn, i: Id, bytes: Bytes)
    requires Enabled(z, TargetSends(i, bytes)) && Produced(z.s, i) == []
    ensures Produced(Step(z, TargetSends(i, bytes)).s, i) == bytes
  {
    assert [] + bytes == bytes;
  }

  /**
   * The documented run in which the downstream should outlive the half-close: the target answers after the proxy has
   * gone, and whatever happens then, not one byte of the answer is delivered.
   */
  lemma AnswerIsLost(n: nat, i: Id, host: string, port: nat, lookup: Ssrf.Lookup, bytes: Bytes, after: seq<Action>)
    requires n > 0 && Ssrf.Guard(host, lookup).ok
    ensures var z := Run(n, Asked(i, host, port, lookup) + [ProxyExits(i)] + [TargetSends(i, bytes)] + after);
            i in z.c.sess && Delivered(z.c.sess[i].calls) == [] && bytes <= Produced(z.s, i)
  {
    hide Run, Step, Asked, Awaiting, Delivered, Produced, Ssrf.Guard;
    var asked := Asked(i, host, port, lookup);
    var z := Run(n, asked);
    AskedWaits(n, i, host, port, lookup);
    SendsAfterExit(z, i, bytes);
    NothingYet(z, i);
    SentIsProducedNow(Step(z, ProxyExits(i)), i, bytes);
    RunSnoc(n, asked, ProxyExits(i));
    RunSnoc(n, asked + [ProxyExits(i)], TargetSends(i, bytes));
    ClosedIsFinal(n, asked + [ProxyExits(i)] + [TargetSends(i, bytes)], after, i);
    var then_ := [TargetSends(i, bytes)] + after;
    assert asked + [ProxyExits(i)] + [TargetSends(i, bytes)] + after == asked + [ProxyExits(i)] + then_;
    ExitEndsDownstream(n, asked, then_, i);
  }

  lemma NothingYet(z: Conn, i: Id)
    requires Awaiting(z, i)
    ensures Delivered(z.c.sess[i].calls) == [] && Produced(z.s, i) == []
  {
    assert [OnOpen][..0] == [];
  }
}
