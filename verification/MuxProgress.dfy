/**
 * What single steps do in the states a connection can be in: every call and every message leads to exactly the message,
 * the callback or the answer it should, and nothing is swallowed on the way.
 */
module MuxProgress {
  import opened Common
  import opened MuxClient
  import opened MuxServer
  import opened MuxCross
  import opened Mux
  import CI = MuxClientInv
  import SI = MuxServerInv
  import Ssrf

  // ----- the client's own steps ----------------------------------------------------------------------

  lemma ClientStepIs(z: Conn, a: Action)
    requires Inv(z) && ClientEnabled(z.c, a)
    ensures Step(z, a) == z.(c := ClientStep(z.c, a))
  {
    Parts(z);
    hide Inv, ClientStep;
  }

  /** Opening a session writes its connect and enters it into the map, if the link takes the message; else nothing. */
  lemma OpenConnects(z: Conn, i: Id, host: string, port: nat, head: seq<Bytes>)
    requires Inv(z) && i !in z.c.sess
    ensures var c' := Step(z, OpenStep(i, host, port, head)).c;
            if z.c.link.Healthy?
            then c'.live == z.c.live + {i} && c'.up == z.c.up + [Connect(i, host, port)] && i in c'.sess
                 && c'.sess[i].host == host && c'.sess[i].port == port && c'.sess[i].calls == [] && c'.sess[i].head == head
            else c' == z.c
  {
    hide Inv, Step;
    ClientStepIs(z, OpenStep(i, host, port, head));
  }

  /** What the pump reads goes upstream at once when the tunnel is ready, and waits otherwise. */
  lemma ReadsGoOut(z: Conn, i: Id, chunk: Bytes)
    requires Inv(z) && i in z.c.live && ClientEnabled(z.c, PumpReads(i, chunk))
    ensures i in z.c.sess && i in Step(z, PumpReads(i, chunk)).c.sess
    ensures var t, c' := z.c.sess[i], Step(z, PumpReads(i, chunk)).c;
            var t' := c'.sess[i];
            && t'.uploaded == t.uploaded + chunk
            && (!t.ready ==> c'.up == z.c.up && c'.live == z.c.live && t'.pending == t.pending + [chunk] && !t'.pumpDone)
            && (t.ready && z.c.link.Healthy? ==>
                  c'.up == z.c.up + [UpData(i, chunk)] && c'.live == z.c.live && !t'.pumpDone)
            && (t.ready && z.c.link.Broken? ==>
                  c'.up == z.c.up && i !in c'.live && t'.pumpDone && t'.calls == t.calls + [OnClose(SendFailed)])
            && (t.ready && z.c.link.Shut? ==> c'.up == z.c.up && t'.pumpDone && t'.calls == t.calls)
  {
    hide Inv, Step, CI.BytesOk, CI.MarksOk;
    ClientStepIs(z, PumpReads(i, chunk));
    Live(z, i);
  }

  lemma Live(z: Conn, i: Id)
    requires Inv(z) && i in z.c.live
    ensures i in z.c.sess && CI.FlagsOk(z.c, i) && !z.c.sess[i].closed && z.c.sess[i].state != Closed
    ensures z.c.sess[i].state == Open <==> z.c.sess[i].ready
    ensures z.c.sess[i].uplinkClosed ==> z.c.sess[i].pumpDone
  {
    Parts(z);
    CI.InvSession(z.c, i);
    hide Inv, CI.Inv, CI.BytesOk, CI.MarksOk;
  }

  /** End of file goes upstream as a half-close at once when the tunnel is ready, and is remembered otherwise. */
  lemma EofGoesOut(z: Conn, i: Id)
    requires Inv(z) && i in z.c.live && ClientEnabled(z.c, PumpEnds(i))
    ensures i in z.c.sess && i in Step(z, PumpEnds(i)).c.sess
    ensures var t, c' := z.c.sess[i], Step(z, PumpEnds(i)).c;
            && c'.live == z.c.live && c'.sess[i].pumpDone && c'.sess[i].calls == t.calls
            && (t.ready && z.c.link.Healthy? ==> c'.up == z.c.up + [HalfClose(i)] && c'.sess[i].uplinkClosed)
            && (!t.ready ==> c'.up == z.c.up && c'.sess[i].halfPending)
  {
    hide Inv, Step, CI.BytesOk, CI.MarksOk;
    ClientStepIs(z, PumpEnds(i));
    Live(z, i);
  }

  /** A proxy that leaves a session that is still open closes it, and the server is told when the link holds. */
  lemma ExitTells(z: Conn, i: Id)
    requires Inv(z) && AllSettled(z.c) && i in z.c.live && ClientEnabled(z.c, ProxyExits(i))
    ensures i in z.c.sess && i in Step(z, ProxyExits(i)).c.sess
    ensures var t, c' := z.c.sess[i], Step(z, ProxyExits(i)).c;
            && c'.live == z.c.live - {i} && c'.sess[i].calls == t.calls + [OnClose(ClientClosed)]
            && c'.up == z.c.up + if z.c.link.Healthy? then [UpClose(i)] else []
  {
    hide Inv, Step, CI.BytesOk, CI.MarksOk;
    ClientStepIs(z, ProxyExits(i));
    Live(z, i);
    assert Settled(z.c.sess[i]);
  }

  /** When the link goes down every session that was open hears so, in two calls, and none is left. */
  lemma DownTells(z: Conn, reason: string, i: Id)
    requires Inv(z)
    ensures var c' := Step(z, ClientDown(reason)).c;
            && c'.live == {} && c'.link.Shut? && c'.up == z.c.up
            && (i in z.c.sess ==>
                  && i in c'.sess
                  && c'.sess[i].calls
                     == z.c.sess[i].calls + if i in z.c.live then [OnError(reason), OnClose(LinkDown(reason))] else [])
  {
    hide Inv, Step;
    ClientStepIs(z, ClientDown(reason));
  }

  // ----- the client handles a message -------------------------------------------------------------------

  lemma ReceiveIs(z: Conn)
    requires Inv(z) && z.downRead < |z.s.down|
    ensures z.c.live <= z.c.sess.Keys
    ensures Step(z, ClientReceives) == z.(c := Receive(z.c, z.s.down[z.downRead]), downRead := z.downRead + 1)
  {
    Parts(z);
    hide Inv, Receive;
  }

  /** Bytes from the target are handed over; the end of a session is reported with its reason, and the session leaves. */
  lemma MessagesAreHandedOver(z: Conn)
    requires Inv(z) && z.downRead < |z.s.down| && z.s.down[z.downRead].id in z.c.live && !z.s.down[z.downRead].Connected?
    ensures var m, c' := z.s.down[z.downRead], Step(z, ClientReceives).c;
            && m.id in z.c.sess && m.id in c'.sess && c'.up == z.c.up
            && c'.sess[m.id].calls == z.c.sess[m.id].calls
                 + (match m
                    case DownData(_, payload) => [OnData(payload)]
                    case Close(_, reason) => [OnClose(ServerClose(reason))]
                    case Error(_, message) => [OnError(message), OnClose(ServerError(message))])
            && c'.live == if m.DownData? then z.c.live else z.c.live - {m.id}
  {
    hide Inv, Step, CI.BytesOk, CI.MarksOk;
    ReceiveIs(z);
    Live(z, z.s.down[z.downRead].id);
  }

  /** A message to a session that has left changes nothing but the place in the stream. */
  lemma StrayMessagesAreIgnored(z: Conn)
    requires Inv(z) && z.downRead < |z.s.down| && z.s.down[z.downRead].id !in z.c.live
    ensures Step(z, ClientReceives) == z.(downRead := z.downRead + 1)
  {
    hide Inv, Step;
    ReceiveIs(z);
  }

  /**
   * `connected` opens the session: the callback comes first, and on a healthy link what waited goes upstream in order,
   * then a half-close that waited.
   */
  lemma OpeningFlushes(z: Conn, i: Id)
    requires Inv(z) && z.downRead < |z.s.down| && z.s.down[z.downRead] == Connected(i) && i in z.c.live
    requires z.c.link.Healthy?
    ensures i in z.c.sess && z.c.sess[i].state == Connecting && i in Step(z, ClientReceives).c.sess
    ensures var t, c' := z.c.sess[i], Step(z, ClientReceives).c;
            && c'.live == z.c.live && c'.sess[i].state == Open && c'.sess[i].ready
            && c'.sess[i].calls == t.calls + [OnOpen] && c'.sess[i].pending == []
            && c'.up == z.c.up + CI.Datas(i, t.head + t.pending) + if t.halfPending then [HalfClose(i)] else []
  {
    hide Inv, Step, PushAll, CI.BytesOk, CI.MarksOk, CI.Datas;
    ReceiveIs(z);
    Live(z, i);
    FirstConnected(z, i);
    CI.FlushedEffect(z.c, i);
    assert forall up: seq<Up> :: up + [] == up;
  }

  lemma FirstConnected(z: Conn, i: Id)
    requires Inv(z) && z.downRead < |z.s.down| && z.s.down[z.downRead] == Connected(i) && i in z.c.live
    ensures i in z.c.sess && z.c.sess[i].state == Connecting && !z.c.sess[i].uplinkClosed
  {
    hide CI.Inv, SI.Inv, UplinkOk, DownlinkOk, AgreeOk, CI.BytesOk, CI.MarksOk;
    Parts(z);
    CI.LiveIsOpen(z.c, i);
    StillConnecting(z, i);
    Live(z, i);
  }

  // ----- the server handles a message ----------------------------------------------------------------------

  lemma ReadIs(z: Conn, taken: nat)
    requires Inv(z) && Enabled(z, ServerReads(taken))
    ensures z.s.live <= z.s.targets.Keys
    ensures Step(z, ServerReads(taken)).s == HandleUp(z.s, z.c.up[z.upRead], taken)
  {
    Parts(z);
    hide Inv, HandleUp;
  }

  /**
   * A connect is ignored by a closed manager, refused with a message at the limit, and accepted in every other case,
   * however many sessions the map holds already.
   */
  lemma ConnectIsAnswered(z: Conn, taken: nat)
    requires Inv(z) && Enabled(z, ServerReads(taken)) && z.c.up[z.upRead].Connect?
    ensures var m, s' := z.c.up[z.upRead], Step(z, ServerReads(taken)).s;
            && s'.live == z.s.live && s'.targets == z.s.targets
            && (z.s.closed ==> s' == z.s)
            && (!z.s.closed && |z.s.live| < z.s.maxSessions ==>
                  s'.handler == Checked(m.id, m.host, m.port) && s'.down == z.s.down)
            && (!z.s.closed && |z.s.live| >= z.s.maxSessions ==>
                  && s'.handler.Idle?
                  && s'.down == z.s.down
                       + if z.s.link.Healthy? then [Error(m.id, "per-connection session limit reached")] else [])
  {
    hide Inv, Step;
    ReadIs(z, taken);
    NeverSeen(z);
  }

  lemma NeverSeen(z: Conn)
    requires Inv(z) && z.upRead < |z.c.up| && z.c.up[z.upRead].Connect?
    ensures z.c.up[z.upRead].id !in z.s.live
  {
    var m := z.c.up[z.upRead];
    Parts(z);
    UpOkAt(z.c, z.upRead);
    Look(z, m.id);
    ConnectFacts(z, m.id, m.host, m.port);
    SI.NotLive(z.s, m.id);
  }

  /** A half-close of a session the server holds shuts down its target's side, and touches nothing else. */
  lemma HalfCloseIsPassedOn(z: Conn, taken: nat, i: Id)
    requires Inv(z) && Enabled(z, ServerReads(taken)) && z.c.up[z.upRead] == HalfClose(i)
    requires i in z.s.live && !z.s.closed
    ensures i in z.s.targets && z.s.targets[i].socket.Live?
    ensures var t := z.s.targets[i].(uplinkClosed := true, finSent := true);
            Step(z, ServerReads(taken)).s == z.s.(targets := z.s.targets[i := t])
  {
    hide Inv, Step;
    ReadIs(z, taken);
    Held(z, i);
    ReadFacts(z, i);
  }

  lemma Held(z: Conn, i: Id)
    requires Inv(z) && i in z.s.live
    ensures i in z.s.targets && i in z.c.sess && z.upRead <= |z.c.up|
  {
    Parts(z);
    assert SI.LocalOk(z.s, i);
    assert Known(z.s, i);
  }

  /** The client's close takes the session out of the map; its socket is to be released, without a word back. */
  lemma CloseIsTaken(z: Conn, taken: nat, i: Id)
    requires Inv(z) && Enabled(z, ServerReads(taken)) && z.c.up[z.upRead] == UpClose(i)
    ensures var s' := Step(z, ServerReads(taken)).s;
            && s'.live == z.s.live - {i} && s'.down == z.s.down
            && (i in z.s.live ==> i in s'.targets && s'.targets[i].release == Some(CloseSocket(false, "client closed")))
            && (i !in z.s.live ==> s' == z.s)
  {
    hide Inv, Step;
    ReadIs(z, taken);
  }

  // ----- the rest of a connect ---------------------------------------------------------------------------------

  lemma HandlerStepIs(z: Conn, a: Action)
    requires Inv(z) && HandlerEnabled(z.s, a)
    ensures Step(z, a) == z.(s := HandlerStep(z.s, a))
  {
    Parts(z);
    hide Inv, HandlerStep;
  }

  /** The session enters the map, with no socket yet. */
  lemma InsertEnters(z: Conn)
    requires Inv(z) && z.s.handler.Checked?
    ensures var h, s' := z.s.handler, Step(z, Inserts).s;
            && s'.live == z.s.live + {h.id} && s'.handler == Inserted(h.id) && s'.down == z.s.down
            && h.id in s'.targets && s'.targets[h.id].host == h.host && s'.targets[h.id].port == h.port
            && s'.targets[h.id].socket.NoSocket?
  {
    hide Inv, Step;
    HandlerStepIs(z, Inserts);
  }

  /** A host the guard refuses is answered with its reason; one it passes is dialed at the first address it returned. */
  lemma GuardDecides(z: Conn, lookup: Ssrf.Lookup)
    requires Inv(z) && HandlerEnabled(z.s, GuardReturns(lookup)) && !z.s.closed
    ensures var i, s' := z.s.handler.id, Step(z, GuardReturns(lookup)).s;
            var guard := Ssrf.Guard(z.s.targets[i].host, lookup);
            && s'.live == z.s.live && s'.targets == z.s.targets
            && (guard.ok ==> guard.addresses != [] && s'.down == z.s.down
                             && s'.handler == Resolved(i, Dial(z.s.targets[i].host, lookup, guard.addresses[0])))
            && (!guard.ok ==> s'.handler == Failing(i)
                              && s'.down == z.s.down + if z.s.link.Healthy? then [Error(i, guard.reason)] else [])
  {
    hide Inv, Step, Ssrf.Guard;
    HandlerStepIs(z, GuardReturns(lookup));
    SI.GuardDial(z.s.targets[z.s.handler.id].host, lookup);
  }

  /** The address that was checked is dialed; the socket is kept, or the failure is answered. */
  lemma DialIsAnswered(z: Conn, connected: bool)
    requires Inv(z) && HandlerEnabled(z.s, DialReturns(connected))
    ensures var i, s' := z.s.handler.id, Step(z, DialReturns(connected)).s;
            && s'.live == z.s.live && s'.dials == z.s.dials + [z.s.handler.dial] && i in s'.targets
            && (connected ==> s'.handler == Dialed(i) && s'.targets[i].socket.Live? && s'.down == z.s.down)
            && (!connected ==>
                  && s'.handler == Failing(i) && s'.targets == z.s.targets
                  && s'.down == z.s.down
                       + if z.s.link.Healthy? then [Error(i, "target socket error: connect failed")] else [])
  {
    hide Inv, Step;
    HandlerStepIs(z, DialReturns(connected));
  }

  /** The session of a failed connect leaves the map. */
  lemma FailureLeaves(z: Conn)
    requires Inv(z) && HandlerEnabled(z.s, Fails)
    ensures Step(z, Fails) == z.(s := z.s.(live := z.s.live - {z.s.handler.id}, handler := Idle))
  {
    hide Inv, Step;
    HandlerStepIs(z, Fails);
  }

  /** A socket whose session is still wanted is published; one whose session has gone is closed again. */
  lemma PublishDecides(z: Conn)
    requires Inv(z) && HandlerEnabled(z.s, Publishes)
    ensures var i, s' := z.s.handler.id, Step(z, Publishes).s;
            && i in s'.targets && s'.live == z.s.live && s'.down == z.s.down
            && if z.s.closed || i !in z.s.live
               then s'.handler.Idle? && s'.targets[i].socket == Socket.Released
               else s'.handler == Published(i) && s'.targets[i].published && s'.targets[i].socket.Live?
  {
    hide Inv, Step, SI.ReaderOk, SI.MarksOk;
    HandlerStepIs(z, Publishes);
    Parts(z);
    HandlerFacts(z.s);
  }

  /** A published session is announced to the client, and then its reader starts. */
  lemma AnnounceTells(z: Conn)
    requires Inv(z) && HandlerEnabled(z.s, Announces)
    ensures var i, s' := z.s.handler.id, Step(z, Announces).s;
            && s'.live == z.s.live && s'.handler == Handler.Announced(i)
            && s'.down == z.s.down + if z.s.link.Healthy? then [Connected(i)] else []
  {
    hide Inv, Step;
    HandlerStepIs(z, Announces);
  }

  lemma ReaderStarts(z: Conn)
    requires Inv(z) && HandlerEnabled(z.s, StartsReader)
    ensures var i, s' := z.s.handler.id, Step(z, StartsReader).s;
            s'.handler.Idle? && i in s'.targets && s'.targets[i] == z.s.targets[i].(reader := MuxServer.Waiting)
  {
    hide Inv, Step;
    HandlerStepIs(z, StartsReader);
  }
}
