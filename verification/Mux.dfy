/**
 * One WSS connection as a transition system: every interleaving of the steps of both ends, and what holds of every
 * state any of them can reach.
 */
module Mux {
  import opened Common
  import opened MuxClient
  import opened MuxServer
  import opened MuxCross
  import CI = MuxClientInv
  import SI = MuxServerInv
  import Ssrf

  // ----- steps ------------------------------------------------------------------------------

  /** The largest chunk either end reads from a socket at a time. */
  const CHUNK := 65536

  datatype Action =
    // the client: tunnel, proxy, pump threads, and its link
    | OpenStep(id: Id, host: string, port: nat, head: seq<Bytes>)
    | PumpReads(id: Id, chunk: Bytes)
    | PumpEnds(id: Id)
    | PumpStops(id: Id)
    | ProxyExits(id: Id)
    | ClientReceives
    | ClientLinkFails(broken: bool)
    | ClientDown(reason: string)
    // the server: read loop, sweep, stop, reader threads, targets, and its link
    | ServerReads(taken: nat)
    | Inserts
    | GuardReturns(lookup: Ssrf.Lookup)
    | DialReturns(connected: bool)
    | Fails
    | Publishes
    | Announces
    | StartsReader
    | Sweeps(id: Id)
    | Releases(id: Id)
    | Stops
    | Closes
    | Clears
    | ServerLinkFails(broken: bool)
    | TargetSends(id: Id, bytes: Bytes)
    | TargetEnds(id: Id)
    | ReaderTakes(id: Id, n: nat)
    | ReaderSends(id: Id)
    | ReaderAtEof(id: Id)
    | ReaderIdles(id: Id)
    | ReaderExits(id: Id)

  function Failed(broken: bool): (l: Link)
    ensures !l.Healthy?
  {
    if broken then Broken else Shut
  }

  /** Both maps cover their key sets; this holds of every reachable state. */
  predicate Shaped(z: Conn) {
    z.c.live <= z.c.sess.Keys && z.s.live <= z.s.targets.Keys
  }

  predicate ClientEnabled(c: Client, a: Action) {
    match a
    case OpenStep(i, _, _, _) => i !in c.sess
    case PumpReads(i, chunk) => i in c.sess && !c.sess[i].pumpDone && 0 < |chunk| <= CHUNK
    case PumpEnds(i) => i in c.sess && !c.sess[i].pumpDone
    case PumpStops(i) => i in c.sess && !c.sess[i].pumpDone
    case ProxyExits(i) => i in c.sess && c.sess[i].pumpDone
    case ClientLinkFails(broken) => broken ==> c.link.Healthy?
    case ClientDown(_) => true
    case _ => false
  }

  predicate HandlerEnabled(s: Server, a: Action) {
    match a
    case Inserts => s.handler.Checked?
    case GuardReturns(_) => s.handler.Inserted? && s.handler.id in s.targets
    case DialReturns(_) => s.handler.Resolved? && s.handler.id in s.targets
    case Fails => s.handler.Failing? && s.handler.id in s.targets
    case Publishes => s.handler.Dialed? && s.handler.id in s.targets
    case Announces => s.handler.Published? && s.handler.id in s.targets
    case StartsReader => s.handler.Announced? && s.handler.id in s.targets
    case _ => false
  }

  predicate ManagerEnabled(s: Server, a: Action) {
    match a
    case Sweeps(_) => !s.stopped
    case Releases(i) => i in s.targets && s.targets[i].release.Some?
    case Stops => true
    case Closes => s.stopped
    case Clears => s.closed && !s.cleared
    case ServerLinkFails(broken) => broken ==> s.link.Healthy?
    case _ => false
  }

  predicate ReaderEnabled(s: Server, a: Action) {
    match a
    case TargetSends(i, _) => i in s.targets && !s.targets[i].peerClosed
    case TargetEnds(i) => i in s.targets
    case ReaderTakes(i, n) =>
      && i in s.targets && s.targets[i].reader.Waiting? && s.targets[i].socket.Live? && !s.stopped
      && 0 < n <= CHUNK && |s.targets[i].read| + n <= |s.targets[i].produced|
    case ReaderSends(i) => i in s.targets && s.targets[i].reader.Holding?
    case ReaderAtEof(i) =>
      && i in s.targets && s.targets[i].reader.Waiting? && s.targets[i].socket.Live? && !s.stopped
      && s.targets[i].peerClosed && s.targets[i].read == s.targets[i].produced
    case ReaderIdles(i) => i in s.targets && s.targets[i].reader.Waiting? && s.targets[i].socket.Live? && !s.stopped
    case ReaderExits(i) =>
      i in s.targets && s.targets[i].reader.Waiting? && (s.stopped || !s.targets[i].socket.Live?)
    case _ => false
  }

  /** Whether a step can be taken now.  Only the read loop handles messages, one at a time. */
  predicate Enabled(z: Conn, a: Action) {
    && Shaped(z)
    && match a
       case ClientReceives => z.downRead < |z.s.down|
       case ServerReads(taken) =>
         && z.upRead < |z.c.up| && z.s.handler.Idle?
         && (z.c.up[z.upRead].UpData? ==> taken <= |z.c.up[z.upRead].payload|)
       case _ =>
         ClientEnabled(z.c, a) || HandlerEnabled(z.s, a) || ManagerEnabled(z.s, a) || ReaderEnabled(z.s, a)
  }

  function ClientStep(c: Client, a: Action): Client
    requires ClientEnabled(c, a)
  {
    match a
    case OpenStep(i, host, port, head) => OpenSession(c, i, host, port, head)
    case PumpReads(i, chunk) => PumpRead(c, i, chunk)
    case PumpEnds(i) => PumpEof(c, i)
    case PumpStops(i) => PumpStop(c, i)
    case ProxyExits(i) => ProxyExit(c, i)
    case ClientLinkFails(broken) => c.(link := Failed(broken))
    case ClientDown(reason) => Disconnected(c, reason)
  }

  function HandlerStep(s: Server, a: Action): Server
    requires HandlerEnabled(s, a)
  {
    match a
    case Inserts => Insert(s)
    case GuardReturns(lookup) => GuardPhase(s, lookup)
    case DialReturns(connected) => DialPhase(s, connected)
    case Fails => FailPhase(s)
    case Publishes => PublishPhase(s)
    case Announces => AnnouncePhase(s)
    case StartsReader => StartReader(s)
  }

  function ManagerStep(s: Server, a: Action): Server
    requires s.live <= s.targets.Keys && ManagerEnabled(s, a)
  {
    match a
    case Sweeps(i) => BeginClose(s, i, "idle timeout", true)
    case Releases(i) => ReleaseStep(s, i)
    case Stops => RaiseStopped(s)
    case Closes => RaiseClosed(s)
    case Clears => ClearAll(s)
    case ServerLinkFails(broken) => s.(link := Failed(broken))
  }

  function ReaderStep(s: Server, a: Action): Server
    requires s.live <= s.targets.Keys && ReaderEnabled(s, a)
  {
    match a
    case TargetSends(i, bytes) => TargetSend(s, i, bytes)
    case TargetEnds(i) => TargetEnd(s, i)
    case ReaderTakes(i, n) => ReaderTake(s, i, n)
    case ReaderSends(i) => ReaderSend(s, i)
    case ReaderAtEof(i) => ReaderEnd(s, i, TARGET_CLOSED)
    case ReaderIdles(i) => ReaderEnd(s, i, "target idle timeout")
    case ReaderExits(i) => ReaderExit(s, i)
  }

  /** One step of the connection; a step that is not enabled does nothing. */
  function Step(z: Conn, a: Action): Conn {
    if !Enabled(z, a) then z
    else if a.ClientReceives? then ClientReceive(z)
    else if a.ServerReads? then ServerRead(z, a.taken)
    else if ClientEnabled(z.c, a) then z.(c := ClientStep(z.c, a))
    else if HandlerEnabled(z.s, a) then z.(s := HandlerStep(z.s, a))
    else if ManagerEnabled(z.s, a) then z.(s := ManagerStep(z.s, a))
    else z.(s := ReaderStep(z.s, a))
  }

  /** A fresh connection: empty channels, no sessions on either end. */
  function Start(maxSessions: nat): Conn {
    Conn(Client(Healthy, {}, map[], []), 0, 0,
         Server(Healthy, maxSessions, false, false, false, {}, map[], Idle, [], map[], []))
  }

  /** The state after any sequence of attempted steps. */
  function Run(maxSessions: nat, actions: seq<Action>): Conn {
    if actions == [] then Start(maxSessions)
    else Step(Run(maxSessions, actions[..|actions| - 1]), actions[|actions| - 1])
  }

  // ----- every step keeps the invariant ------------------------------------------------------

  lemma StartHolds(maxSessions: nat)
    ensures Inv(Start(maxSessions))
  {
  }

  /** The steps of the proxy and its pump. */
  predicate ProxyStep(a: Action) {
    a.PumpReads? || a.PumpEnds? || a.PumpStops? || a.ProxyExits?
  }

  lemma ProxyStepLocal(c: Client, a: Action)
    requires CI.Inv(c) && ClientEnabled(c, a) && ProxyStep(a)
    ensures CI.LocalStep(c, ClientStep(c, a), a.id)
  {
    hide CI.SessionOk, CI.LocalStep, CI.UpOk, PumpRead, PumpEof, PumpStop, ProxyExit;
    CI.InvSession(c, a.id);
    match a
    case PumpReads(i, chunk) => CI.PumpReadLocal(c, i, chunk);
    case PumpEnds(i) => CI.PumpEofLocal(c, i);
    case PumpStops(i) => CI.PumpStopLocal(c, i);
    case ProxyExits(i) => CI.ProxyExitLocal(c, i);
  }

  lemma ClientStepKeeps(z: Conn, a: Action)
    requires Inv(z) && ClientEnabled(z.c, a)
    ensures Inv(z.(c := ClientStep(z.c, a)))
  {
    Parts(z);
    hide Inv, CI.Inv, SI.Inv, CI.LocalStep, PumpRead, PumpEof, PumpStop, ProxyExit, OpenSession, Disconnected;
    if ProxyStep(a) {
      ProxyStepLocal(z.c, a);
      LocalKeeps(z, ClientStep(z.c, a), a.id);
    } else {
      match a
      case OpenStep(i, host, port, head) => OpenKeeps(z, i, host, port, head);
      case ClientLinkFails(broken) => ClientLinkKeeps(z, Failed(broken));
      case ClientDown(reason) => DisconnectedKeeps(z, reason);
    }
  }

  lemma HandlerFacts(s: Server)
    requires SI.Inv(s) && !s.handler.Idle?
    ensures SI.LocalOk(s, s.handler.id) && (s.handler.id in s.targets ==> SI.PhaseOk(s, s.handler.id))
  {
    assert SI.LocalOk(s, s.handler.id);
  }

  /** A server step is sound when it keeps the server's invariant and every session sees it as quiet. */
  ghost predicate Sound(s: Server, s': Server) {
    SI.Inv(s') && forall j: Id :: Quiet(s, s', j)
  }

  lemma HandlerStepSound(s: Server, a: Action)
    requires SI.Inv(s) && HandlerEnabled(s, a)
    ensures Sound(s, HandlerStep(s, a))
  {
    HandlerFacts(s);
    hide SI.Inv, SI.LocalOk, SI.PhaseOk, Quiet;
    var s' := HandlerStep(s, a);
    match a
    case Inserts =>
      SI.InsertKeeps(s);
      forall j: Id ensures Quiet(s, s', j) { InsertQuiet(s, j); }
    case GuardReturns(lookup) =>
      SI.GuardKeeps(s, lookup);
      forall j: Id ensures Quiet(s, s', j) { GuardQuiet(s, lookup, j); }
    case DialReturns(connected) =>
      SI.DialKeeps(s, connected);
      forall j: Id ensures Quiet(s, s', j) { DialQuiet(s, connected, j); }
    case Fails =>
      SI.FailKeeps(s);
      forall j: Id ensures Quiet(s, s', j) { FailQuiet(s, j); }
    case Publishes =>
      SI.PublishKeeps(s);
      forall j: Id ensures Quiet(s, s', j) { PublishQuiet(s, j); }
    case Announces =>
      SI.AnnounceKeeps(s);
      forall j: Id ensures Quiet(s, s', j) { AnnounceQuiet(s, j); }
    case StartsReader =>
      SI.StartKeeps(s);
      forall j: Id ensures Quiet(s, s', j) { StartQuiet(s, j); }
  }

  lemma ReleaseQuiet(s: Server, i: Id, j: Id)
    requires i in s.targets && s.targets[i].release.Some?
    ensures Quiet(s, ReleaseStep(s, i), j)
  {
    hide Quiet;
    if s.targets[i].release.value.Notify? { NotifyQuiet(s, i, j); } else { CloseSocketQuiet(s, i, j); }
  }

  lemma ManagerStepSound(s: Server, a: Action)
    requires SI.Inv(s) && s.live <= s.targets.Keys && ManagerEnabled(s, a)
    ensures Sound(s, ManagerStep(s, a))
  {
    hide SI.Inv, Quiet, BeginClose, ReleaseStep;
    var s' := ManagerStep(s, a);
    match a
    case Sweeps(i) =>
      SI.CloseKeeps(s, i, "idle timeout", true);
      forall j: Id ensures Quiet(s, s', j) { CloseQuiet(s, i, "idle timeout", true, j); }
    case Releases(i) =>
      SI.ReleaseKeeps(s, i);
      forall j: Id ensures Quiet(s, s', j) { ReleaseQuiet(s, i, j); }
    case Stops =>
      SI.StoppedKeeps(s);
      forall j: Id ensures Quiet(s, s', j) { FlagQuiet(s, j); }
    case Closes =>
      SI.ClosedKeeps(s);
      forall j: Id ensures Quiet(s, s', j) { FlagQuiet(s, j); }
    case Clears =>
      SI.ClearKeeps(s);
      forall j: Id ensures Quiet(s, s', j) { ClearQuiet(s, j); }
    case ServerLinkFails(broken) =>
      SI.LinkKeeps(s, Failed(broken));
      forall j: Id ensures Quiet(s, s', j) { LinkQuiet(s, Failed(broken), j); }
  }

  lemma SendQuiet(s: Server, i: Id, j: Id)
    requires i in s.targets && s.targets[i].reader.Holding? && s.live <= s.targets.Keys
    ensures Quiet(s, ReaderSend(s, i), j)
  {
    hide Quiet, BeginClose;
    match s.link
    case Healthy => ForwardQuiet(s, i, j);
    case Broken => ReaderEndQuiet(s, i, "wss send failed", false, j);
    case Shut => ReaderEndQuiet(s, i, "wss closed", false, j);
  }

  lemma ReaderStepSound(s: Server, a: Action)
    requires SI.Inv(s) && s.live <= s.targets.Keys && ReaderEnabled(s, a)
    ensures Sound(s, ReaderStep(s, a))
  {
    hide SI.Inv, Quiet, BeginClose, ReaderSend, TargetSend, ReaderTake;
    var s' := ReaderStep(s, a);
    match a
    case TargetSends(i, bytes) =>
      SI.TargetSendKeeps(s, i, bytes);
      forall j: Id ensures Quiet(s, s', j) { TargetQuiet(s, i, bytes, j); }
    case TargetEnds(i) =>
      SI.TargetEndKeeps(s, i);
      forall j: Id ensures Quiet(s, s', j) { TargetEndQuiet(s, i, j); }
    case ReaderTakes(i, n) =>
      SI.TakeKeeps(s, i, n);
      forall j: Id ensures Quiet(s, s', j) { TakeQuiet(s, i, n, j); }
    case ReaderSends(i) =>
      SI.ReaderSendKeeps(s, i);
      forall j: Id ensures Quiet(s, s', j) { SendQuiet(s, i, j); }
    case ReaderAtEof(i) =>
      SI.ReaderEndKeeps(s, i, TARGET_CLOSED);
      forall j: Id ensures Quiet(s, s', j) { ReaderEndQuiet(s, i, TARGET_CLOSED, true, j); }
    case ReaderIdles(i) =>
      SI.ReaderEndKeeps(s, i, "target idle timeout");
      forall j: Id ensures Quiet(s, s', j) { ReaderEndQuiet(s, i, "target idle timeout", true, j); }
    case ReaderExits(i) =>
      SI.ReaderExitKeeps(s, i);
      forall j: Id ensures Quiet(s, s', j) { ReaderExitQuiet(s, i, j); }
  }

  /** A step that is neither the client's nor the handling of a message is a sound step of the server. */
  lemma ServerStepSound(z: Conn, a: Action)
    requires Inv(z) && Enabled(z, a) && !a.ClientReceives? && !a.ServerReads? && !ClientEnabled(z.c, a)
    ensures Step(z, a) == z.(s := Step(z, a).s) && Sound(z.s, Step(z, a).s)
  {
    Parts(z);
    hide Inv, Sound, SI.Inv, HandlerStep, ManagerStep, ReaderStep;
    if HandlerEnabled(z.s, a) { HandlerStepSound(z.s, a); }
    else if ManagerEnabled(z.s, a) { ManagerStepSound(z.s, a); }
    else { ReaderStepSound(z.s, a); }
  }

  lemma StepKeeps(z: Conn, a: Action)
    requires Inv(z)
    ensures Inv(Step(z, a))
  {
    hide Inv, ClientStep, HandlerStep, ManagerStep, ReaderStep, ClientReceive, ServerRead;
    if Enabled(z, a) {
      if a.ClientReceives? { ReceiveKeeps(z); }
      else if a.ServerReads? { ReadKeeps(z, a.taken); }
      else if ClientEnabled(z.c, a) { ClientStepKeeps(z, a); }
      else {
        ServerStepSound(z, a);
        QuietKeeps(z, Step(z, a).s);
      }
    }
  }

  lemma {:induction false} RunHolds(maxSessions: nat, actions: seq<Action>)
    ensures Inv(Run(maxSessions, actions))
  {
    if actions == [] {
      StartHolds(maxSessions);
    } else {
      RunHolds(maxSessions, actions[..|actions| - 1]);
      hide Inv, Step;
      StepKeeps(Run(maxSessions, actions[..|actions| - 1]), actions[|actions| - 1]);
    }
  }

  // ----- no half-close is forgotten --------------------------------------------------------------

  /**
   * A session whose pump met end of file before the opening has been half-closed by the opening, and a proxy that is
   * gone has closed its session.
   */
  predicate Settled(t: Session) {
    && (t.ready && t.halfPending && !t.closed ==> t.uplinkClosed)
    && (t.proxyClosed ==> t.closed)
  }

  ghost predicate AllSettled(c: Client) {
    forall i | i in c.sess :: Settled(c.sess[i])
  }

  lemma OpenedSettles(c: Client, i: Id)
    requires CI.Inv(c) && i in c.live && c.sess[i].state == Connecting && Settled(c.sess[i])
    ensures i in Receive(c, Connected(i)).sess && Settled(Receive(c, Connected(i)).sess[i])
  {
    hide CI.UpPayload, Flat, PushAll;
    CI.InvSession(c, i);
    CI.FlushedEffect(c, i);
  }

  lemma ReceiveSettles(c: Client, m: Down)
    requires CI.Inv(c) && AllSettled(c)
    ensures c.live <= c.sess.Keys && AllSettled(Receive(c, m))
  {
    hide CI.SessionOk, CI.UpOk, ProxyOpened;
    ReceiveFrame(c, m);
    if m.id in c.live {
      CI.LiveIsOpen(c, m.id);
      if m.Connected? && c.sess[m.id].state == Connecting { OpenedSettles(c, m.id); }
    }
  }

  lemma ProxyStepSettles(c: Client, a: Action)
    requires ClientEnabled(c, a) && ProxyStep(a) && Settled(c.sess[a.id])
    ensures a.id in ClientStep(c, a).sess && Settled(ClientStep(c, a).sess[a.id])
  {
  }

  lemma ClientStepSettles(c: Client, a: Action)
    requires CI.Inv(c) && AllSettled(c) && ClientEnabled(c, a)
    ensures AllSettled(ClientStep(c, a))
  {
    hide CI.Inv, Settled, CI.LocalStep, PumpRead, PumpEof, PumpStop, ProxyExit;
    if ProxyStep(a) {
      ProxyStepLocal(c, a);
      LocalFacts(c, ClientStep(c, a), a.id);
      ProxyStepSettles(c, a);
    } else {
      OthersSettle(c, a);
    }
  }

  lemma OthersSettle(c: Client, a: Action)
    requires AllSettled(c) && ClientEnabled(c, a) && !ProxyStep(a)
    ensures AllSettled(ClientStep(c, a))
  {
    hide PumpRead, PumpEof, PumpStop, ProxyExit;
  }

  lemma {:induction false} RunSettles(maxSessions: nat, actions: seq<Action>)
    ensures AllSettled(Run(maxSessions, actions).c)
  {
    if actions != [] {
      var before, a := actions[..|actions| - 1], actions[|actions| - 1];
      RunSettles(maxSessions, before);
      RunHolds(maxSessions, before);
      StepSettles(Run(maxSessions, before), a);
    }
  }

  lemma StepSettles(z: Conn, a: Action)
    requires Inv(z) && AllSettled(z.c)
    ensures AllSettled(Step(z, a).c)
  {
    hide CI.Inv, SI.Inv, AllSettled, ClientStep, HandlerStep, ManagerStep, ReaderStep, Receive, HandleUp;
    if Enabled(z, a) {
      if a.ClientReceives? { ReceiveSettles(z.c, z.s.down[z.downRead]); }
      else if !a.ServerReads? && ClientEnabled(z.c, a) { ClientStepSettles(z.c, a); }
    }
  }
}
