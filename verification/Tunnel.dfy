/**
 * The client object of src/client/tunnel.cpp together with the proxy closures of src/client/local_proxy.cpp that own
 * its sessions: imperative steps, each tied to the step function of `MuxClient` it performs.
 */
module Tunnel {
  import opened Common
  import opened MuxClient
  import D = DataFrame
  import J = JsonScanner
  import Protocol

  // ----- session ids -------------------------------------------------------------------

  /** The largest id handed out. */
  const LAST_ID := 0xffff_fffe

  /** The id the counter shows at its `n`-th draw. */
  function IdAt(n: nat): (id: Id)
    ensures 1 <= id <= LAST_ID
  {
    n % LAST_ID + 1
  }

  function NextId(id: Id): Id {
    if id >= LAST_ID then 1 else id + 1
  }

  lemma NextIsAt(n: nat)
    ensures NextId(IdAt(n)) == IdAt(n + 1)
  {
  }

  /** Fewer than a full turn of the counter never shows the same id twice. */
  lemma DrawsDiffer(m: nat, n: nat)
    requires m < n < m + LAST_ID
    ensures IdAt(m) != IdAt(n)
  {
    assert m == LAST_ID * (m / LAST_ID) + m % LAST_ID && n == LAST_ID * (n / LAST_ID) + n % LAST_ID;
    var gap := n / LAST_ID - m / LAST_ID;
    assert LAST_ID * gap == (n - m) - (n % LAST_ID - m % LAST_ID);
  }

  /** The ids of `k` draws from the `n`-th on. */
  ghost function Drawn(n: nat, k: nat): (ids: set<Id>)
  {
    set j | n <= j < n + k :: IdAt(j)
  }

  lemma NotDrawn(n: nat, k: nat)
    requires 0 < k <= LAST_ID
    ensures IdAt(n + k - 1) !in Drawn(n, k - 1)
  {
    hide IdAt;
    forall j | n <= j < n + k - 1 ensures IdAt(j) != IdAt(n + k - 1) { DrawsDiffer(j, n + k - 1); }
  }

  lemma {:induction false} DrawnCount(n: nat, k: nat)
    requires k <= LAST_ID
    ensures |Drawn(n, k)| == k
  {
    hide IdAt;
    if k > 0 {
      DrawnCount(n, k - 1);
      NotDrawn(n, k);
      assert Drawn(n, k) == Drawn(n, k - 1) + {IdAt(n + k - 1)};
    } else {
      assert Drawn(n, k) == {};
    }
  }

  /** Among more draws than there are live sessions, one is free. */
  lemma SomeDrawIsFree(n: nat, k: nat, live: set<Id>)
    requires |live| < k <= LAST_ID
    ensures exists j :: n <= j < n + k && IdAt(j) !in live
  {
    if forall j :: n <= j < n + k ==> IdAt(j) in live {
      DrawnCount(n, k);
      SubsetSize(Drawn(n, k), live);
    }
  }

  /** Shown by one of the first `draws` draws after the `base`-th. */
  ghost predicate WasDrawn(id: Id, base: nat, draws: nat) {
    exists j: nat :: base <= j < base + draws && IdAt(j) == id
  }

  ghost predicate AllDrawn(ids: set<Id>, base: nat, draws: nat) {
    forall i | i in ids :: WasDrawn(i, base, draws)
  }

  /** Within one turn of the counter the next draw is new. */
  lemma NextIsNew(ids: set<Id>, base: nat, before: nat, n: nat)
    requires before <= n && AllDrawn(ids, base, before)
    ensures IdAt(base + n) in ids ==> n >= LAST_ID
  {
    var id := IdAt(base + n);
    if id in ids {
      var j: nat :| base <= j < base + before && IdAt(j) == id;
      if j + LAST_ID > base + n { DrawsDiffer(j, base + n); }
    }
  }

  // ----- the tunnel ----------------------------------------------------------------------------

  datatype Notice = ReadyNotice | DownNotice(reason: string)

  /** `onDown` never fires twice without `onReady` in between, nor `onReady` without `onDown`. */
  predicate Alternates(notices: seq<Notice>) {
    forall k | 0 < k < |notices| :: notices[k].DownNotice? != notices[k - 1].DownNotice?
  }

  /**
   * What attempts to connect lead to: each that succeeds calls `onReady` and then `onDown` with how it ended; of those
   * that fail only one before any other calls `onDown`.
   */
  function NoticesOf(attempts: seq<(Option<string>, string)>): seq<Notice> {
    if attempts == [] then []
    else
      var before, last := NoticesOf(attempts[..|attempts| - 1]), attempts[|attempts| - 1];
      match last.0
      case None => before + [ReadyNotice, DownNotice(last.1)]
      case Some(failure) => if |attempts| == 1 then [DownNotice(failure)] else before
  }

  lemma {:induction false} NoticesAlternate(attempts: seq<(Option<string>, string)>)
    ensures Alternates(NoticesOf(attempts))
    ensures attempts != [] ==>
              NoticesOf(attempts) != [] && NoticesOf(attempts)[|NoticesOf(attempts)| - 1].DownNotice?
  {
    if attempts != [] { NoticesAlternate(attempts[..|attempts| - 1]); }
  }

  class WssTunnel {
    const maxSessions: nat
    var nextId: Id
    var ready: bool
    var disconnected: bool
    var reconnectAttempts: nat
    /** `ws_`, as this object sees it, and what it has written on the current connection. */
    var link: Link
    var up: seq<Up>
    /** The key set of `sessions_`, and every session object of the current connection. */
    var live: set<Id>
    var sess: map<Id, Session>
    /** Calls of `onReady` and `onDown`. */
    var notices: seq<Notice>
    /** How many ids were drawn before the current connection and on it. */
    ghost var base: nat
    ghost var draws: nat

    ghost function View(): Client
      reads this
    {
      Client(link, live, sess, up)
    }

    /** The counter is where its draws put it, and the sessions of this connection have ids drawn on it. */
    ghost predicate Valid()
      reads this
    {
      && live <= sess.Keys
      && (disconnected ==> !ready) && (!ready ==> live == {})
      && nextId == IdAt(base + draws)
      && AllDrawn(sess.Keys, base, draws)
    }

    constructor (maxSessions: nat)
      ensures Valid() && this.maxSessions == maxSessions && !ready && !disconnected
      ensures View() == Client(Shut, {}, map[], []) && notices == []
    {
      this.maxSessions := maxSessions;
      nextId, ready, disconnected, reconnectAttempts := 1, false, false, 0;
      link, up, live, sess, notices := Shut, [], {}, map[], [];
      base, draws := 0, 0;
    }

    /** `allocId`: the first id not in use among the next `2 * maxSessions` draws, or 0. */
    method AllocId() returns (id: Id)
      requires Valid()
      modifies this`nextId, this`draws
      ensures Valid() && draws >= old(draws)
      ensures id == 0 <==> forall j: nat :: old(base + draws) <= j < old(base + draws) + 2 * maxSessions ==> IdAt(j) in live
      ensures id != 0 ==> draws > old(draws) && id == IdAt(base + draws - 1) && id !in live && WasDrawn(id, base, draws)
      ensures |live| < maxSessions && 2 * maxSessions <= LAST_ID ==> 1 <= id <= LAST_ID
      ensures id != 0 && draws <= LAST_ID ==> id !in sess
      ensures id != 0 && old(draws) < LAST_ID ==> draws == old(draws) + 1
    {
      hide IdAt, AllDrawn, WasDrawn;
      ghost var before, start := draws, base + draws;
      for i := 0 to maxSessions * 2
        invariant draws == before + i && nextId == IdAt(start + i)
        invariant forall j: nat :: start <= j < start + i ==> IdAt(j) in live
        invariant i > 0 ==> before >= LAST_ID
      {
        id := nextId;
        NextIsAt(start + i);
        NextIsNew(sess.Keys, base, before, before + i);
        nextId := if id >= LAST_ID then 1 else id + 1;
        draws := draws + 1;
        if id !in live {
          StillDrawn(sess.Keys, base, before, draws);
          LastDrawn(base, draws);
          return;
        }
      }
      if |live| < maxSessions && 2 * maxSessions <= LAST_ID { SomeDrawIsFree(start, 2 * maxSessions, live); }
      StillDrawn(sess.Keys, base, before, draws);
      id := 0;
    }

    /** `openSession`, with the proxy's callbacks attached. */
    method OpenSession(host: string, port: nat, head: seq<Bytes>) returns (r: Option<Id>)
      requires Valid()
      modifies this`nextId, this`draws, this`live, this`sess, this`up
      ensures Valid()
      ensures 2 * maxSessions <= LAST_ID ==> (r.Some? <==> old(ready) && |old(live)| < maxSessions && link.Healthy?)
      ensures r.None? ==> View() == old(View())
      ensures r.Some? ==>
                && 1 <= r.value <= LAST_ID && r.value !in old(live)
                && (draws <= LAST_ID ==> r.value !in old(sess))
                && View() == MuxClient.OpenSession(old(View()), r.value, host, port, head)
    {
      if !ready { return None; }
      if |live| >= maxSessions { return None; }
      hide IdAt, AllDrawn, WasDrawn;
      var id := AllocId();
      if id == 0 { return None; }
      var ok := Announce(id, host, port, head);
      r := if ok then Some(id) else None;
    }

    /** The session enters the map, and leaves it again unless its connect message goes out. */
    method Announce(id: Id, host: string, port: nat, head: seq<Bytes>) returns (ok: bool)
      requires Valid() && ready && id !in live && WasDrawn(id, base, draws)
      modifies this`live, this`sess, this`up
      ensures Valid() && ok == link.Healthy?
      ensures View() == if ok then MuxClient.OpenSession(old(View()), id, host, port, head) else old(View())
    {
      hide WasDrawn;
      live := live + {id};
      if link.Shut? {
        live := live - {id};
        return false;
      }
      var sent := SendUp(Connect(id, host, port));
      if !sent {
        live := live - {id};
        return false;
      }
      sess := sess[id := NewSession(host, port, head, |up| - 1)];
      assert sess.Keys == old(sess.Keys) + {id};
      ok := true;
    }

    /** `sendText` or `sendBinary` on `ws_`. */
    method SendUp(m: Up) returns (ok: bool)
      modifies this`up
      ensures ok == link.Healthy? && up == if ok then old(up) + [m] else old(up)
    {
      ok := link.Healthy?;
      if ok { up := up + [m]; }
    }

    /** `closeSession` */
    method CloseSession(i: Id, cause: Cause, notifyServer: bool)
      requires Valid() && i in sess
      modifies this`live, this`sess, this`up
      ensures Valid() && View() == MuxClient.CloseSession(old(View()), i, cause, notifyServer)
    {
      hide IdAt, AllDrawn, WasDrawn, MuxClient.CloseSession;
      CloseIs(View(), i, cause, notifyServer);
      if sess[i].closed { return; }
      live := live - {i};
      var closeAt := sess[i].closeAt;
      if notifyServer { closeAt := TellServer(i, closeAt); }
      var t := sess[i].(closed := true, state := Closed, closeAt := closeAt);
      sess := sess[i := t.(proxyClosed := true, calls := t.calls + [OnClose(cause)])];
      assert sess.Keys == old(sess.Keys);
    }

    /** The notifying half of `closeSession`: where the message stands, if it went out. */
    method TellServer(i: Id, before: Option<nat>) returns (closeAt: Option<nat>)
      modifies this`up
      ensures link.Healthy? ==> closeAt == Some(|old(up)|) && up == old(up) + [UpClose(i)]
      ensures !link.Healthy? ==> closeAt == before && up == old(up)
    {
      closeAt := before;
      if !link.Shut? {
        var at := |up|;
        var sent := SendUp(UpClose(i));
        if sent { closeAt := Some(at); }
      }
    }

    /** `push` */
    method Push(i: Id, data: Bytes) returns (ok: bool)
      requires Valid() && i in sess
      modifies this`live, this`sess, this`up
      ensures Valid() && (View(), ok) == MuxClient.Push(old(View()), i, data)
    {
      if sess[i].closed || sess[i].uplinkClosed { return false; }
      if link.Shut? { return false; }
      var sent := SendUp(UpData(i, data));
      if !sent {
        CloseSession(i, SendFailed, false);
        return false;
      }
      ok := true;
    }

    /** The record of a session changes. */
    method Put(i: Id, t: Session)
      requires Valid() && i in sess
      modifies this`sess
      ensures Valid() && View() == Update(old(View()), i, t)
    {
      hide IdAt, AllDrawn, WasDrawn;
      sess := sess[i := t];
      assert sess.Keys == old(sess.Keys);
    }

    /** `pushEnd` */
    method PushEnd(i: Id)
      requires Valid() && i in sess
      modifies this`sess, this`up
      ensures Valid() && View() == MuxClient.PushEnd(old(View()), i)
    {
      hide AllDrawn, IdAt;
      if sess[i].closed || sess[i].uplinkClosed { return; }
      Put(i, sess[i].(uplinkClosed := true));
      if link.Shut? { return; }
      var at := |up|;
      var sent := SendUp(HalfClose(i));
      if sent { Put(i, sess[i].(halfAt := Some(at))); }
    }

    // ----- the proxy's closures -----------------------------------------------------------------

    /** The loop of `onOpen` over what waited. */
    method PushChunks(i: Id, chunks: seq<Bytes>)
      requires Valid() && i in sess
      modifies this`live, this`sess, this`up
      ensures Valid() && View() == PushAll(old(View()), i, chunks)
    {
      ghost var goal := PushAll(View(), i, chunks);
      assert chunks[0..] == chunks;
      for k := 0 to |chunks|
        invariant Valid() && i in sess && PushAll(View(), i, chunks[k..]) == goal
      {
        hide MuxClient.Push;
        assert chunks[k..][1..] == chunks[k + 1..];
        var _ := Push(i, chunks[k]);
      }
    }

    /** `onOpen` of a session whose record is now `t`. */
    method OnOpened(i: Id, t: Session)
      requires Valid() && i in sess
      modifies this`live, this`sess, this`up
      ensures Valid() && View() == ProxyOpened(old(View()), i, t)
    {
      hide AllDrawn, IdAt, PushAll, MuxClient.PushEnd;
      Put(i, t.(ready := true));
      PushAllKeeps(View(), i, t.head + t.pending);
      PushChunks(i, t.head + t.pending);
      Put(i, sess[i].(pending := []));
      if sess[i].halfPending { PushEnd(i); }
    }

    /** One turn of the pump: what `readSome` returned. */
    method PumpTurn(i: Id, chunk: Bytes) returns (more: bool)
      requires Valid() && i in sess && !sess[i].pumpDone
      modifies this`live, this`sess, this`up
      ensures Valid() && i in sess && more == !sess[i].pumpDone
      ensures View() == if chunk == [] then PumpEof(old(View()), i) else PumpRead(old(View()), i, chunk)
    {
      hide Valid, PumpRead;
      if |chunk| == 0 {
        Put(i, sess[i].(pumpDone := true));
        if sess[i].ready { PushEnd(i); } else { Put(i, sess[i].(halfPending := true)); }
        return false;
      }
      more := PumpGot(i, chunk);
    }

    /** The pump has read a chunk. */
    method PumpGot(i: Id, chunk: Bytes) returns (more: bool)
      requires Valid() && i in sess && !sess[i].pumpDone
      modifies this`live, this`sess, this`up
      ensures Valid() && i in sess && more == !sess[i].pumpDone && View() == PumpRead(old(View()), i, chunk)
    {
      hide Valid, MuxClient.Push;
      Put(i, sess[i].(uploaded := sess[i].uploaded + chunk));
      if sess[i].ready {
        PushKeepsPump(View(), i, chunk);
        more := Push(i, chunk);
        if !more { Put(i, sess[i].(pumpDone := true)); }
      } else {
        Put(i, sess[i].(pending := sess[i].pending + [chunk]));
        more := true;
      }
    }

    /** What the proxy does after its pump. */
    method AfterPump(i: Id)
      requires Valid() && i in sess
      modifies this`live, this`sess, this`up
      ensures Valid() && View() == ProxyExit(old(View()), i)
    {
      if !sess[i].proxyClosed {
        sess := sess[i := sess[i].(proxyClosed := true)];
        CloseSession(i, ClientClosed, true);
      }
    }

    // ----- messages from the server ------------------------------------------------------------------

    /** The rest of `handleControl` and of the binary handler, once the message has been read. */
    method Dispatch(m: Down)
      requires Valid()
      modifies this`live, this`sess, this`up
      ensures Valid() && View() == Receive(old(View()), m)
    {
      var i := m.id;
      if i !in live { return; }
      var t := sess[i];
      match m
      case Connected(_) =>
        if t.state == Connecting { OnOpened(i, t.(state := Open, calls := t.calls + [OnOpen])); }
      case DownData(_, payload) =>
        if !t.closed { sess := sess[i := t.(calls := t.calls + [OnData(payload)])]; }
      case Close(_, reason) =>
        live := live - {i};
        t := t.(state := Closed, closed := true, proxyClosed := true);
        sess := sess[i := t.(calls := t.calls + [OnClose(ServerClose(reason))])];
      case Error(_, message) =>
        live := live - {i};
        t := t.(state := Closed, closed := true, proxyClosed := true);
        sess := sess[i := t.(calls := t.calls + [OnError(message), OnClose(ServerError(message))])];
    }

    /** The text handler: parse, then `handleControl`. */
    method OnText(text: string)
      requires Valid()
      modifies this`live, this`sess, this`up
      ensures Valid()
      ensures View() == match Protocol.ReadDown(Protocol.TextCarrier(text))
                        case None => old(View())
                        case Some(m) => Receive(old(View()), m)
    {
      hide Receive;
      var msg := J.ParseControlMessage(text);
      if msg.None? { return; }
      var m := Protocol.ReadDownObject(msg.value);
      if m.Some? { Dispatch(m.value); }
    }

    /** The binary handler. */
    method OnBinary(frame: Bytes)
      requires Valid()
      modifies this`live, this`sess, this`up
      ensures Valid()
      ensures View() == match Protocol.ReadDown(Protocol.BinaryCarrier(frame))
                        case None => old(View())
                        case Some(m) => Receive(old(View()), m)
    {
      hide Receive;
      var f := D.Decode(frame);
      if f.None? { return; }
      Dispatch(DownData(f.value.0, f.value.1));
    }

    // ----- connections ----------------------------------------------------------------------------------

    /** The loop of `onDisconnected` over the sessions taken out of the map. */
    method EndAll(sessions: set<Id>, reason: string)
      requires sessions <= sess.Keys
      modifies this`sess
      ensures sess == map i | i in old(sess) ::
                        if i in sessions then Ended(old(sess)[i], [OnError(reason), OnClose(LinkDown(reason))])
                        else old(sess)[i]
    {
      hide Ended;
      var all := sessions;
      while all != {}
        invariant all <= sessions && sess.Keys == old(sess.Keys)
        invariant forall i | i in sess ::
                    sess[i] == if i in sessions && i !in all
                               then Ended(old(sess)[i], [OnError(reason), OnClose(LinkDown(reason))]) else old(sess)[i]
        decreases |all|
      {
        var i :| i in all;
        all := all - {i};
        var t := sess[i];
        EndedIs(t, OnError(reason), OnClose(LinkDown(reason)));
        t := t.(calls := t.calls + [OnError(reason)] + [OnClose(LinkDown(reason))], proxyClosed := true);
        sess := sess[i := t.(state := Closed, closed := true)];
      }
    }

    /** `onDisconnected`: once per connection, every session ends and `onDown` fires. */
    method OnDisconnected(reason: string)
      requires Valid()
      modifies this`disconnected, this`ready, this`live, this`sess, this`link, this`notices
      ensures Valid() && disconnected && live == {}
      ensures old(disconnected) ==> View() == old(View()) && notices == old(notices)
      ensures !old(disconnected) ==>
                View() == Disconnected(old(View()), reason) && notices == old(notices) + [DownNotice(reason)]
    {
      hide AllDrawn;
      if disconnected { return; }
      disconnected := true;
      ready := false;
      link := Shut;
      var all := live;
      live := {};
      EndAll(all, reason);
      assert sess.Keys == old(sess.Keys);
      notices := notices + [DownNotice(reason)];
    }

    /** A handshake succeeded: a new connection with nothing on it is published, and `onReady` fires. */
    method Published()
      requires Valid() && !ready && link.Shut?
      modifies this
      ensures Valid() && ready && !disconnected && View() == Client(Healthy, {}, map[], [])
      ensures notices == old(notices) + [ReadyNotice] && reconnectAttempts == 0
    {
      base, draws := base + draws, 0;
      link, up, sess := Healthy, [], map[];
      ready := true;
      reconnectAttempts := 0;
      disconnected := false;
      notices := notices + [ReadyNotice];
    }

    /** One turn of `runLoop`: a failed attempt, or a connection of which only its end is seen here. */
    method Attempt(failure: Option<string>, ended: string)
      requires Valid() && !ready && link.Shut?
      modifies this
      ensures Valid() && !ready && link.Shut? && disconnected && live == {}
      ensures failure.Some? ==>
                notices == if old(disconnected) then old(notices) else old(notices) + [DownNotice(failure.value)]
      ensures failure.None? ==> notices == old(notices) + [ReadyNotice, DownNotice(ended)]
      ensures reconnectAttempts == if failure.None? then 1 else old(reconnectAttempts) + 1
    {
      if failure.Some? {
        OnDisconnected(failure.value);
      } else {
        Published();
        OnDisconnected(ended);
        OnDisconnected("wss closed");
      }
      reconnectAttempts := reconnectAttempts + 1;
    }

    /** `runLoop`: between two calls of `onReady` there is exactly one of `onDown`, however attempts turn out. */
    method RunLoop(attempts: seq<(Option<string>, string)>)
      requires Valid() && !ready && link.Shut? && !disconnected && notices == []
      modifies this
      ensures Valid() && notices == NoticesOf(attempts) && Alternates(notices)
      ensures reconnectAttempts <= old(reconnectAttempts) + |attempts|
    {
      assert attempts[..|attempts|] == attempts;
      for k := 0 to |attempts|
        invariant Valid() && !ready && link.Shut? && notices == NoticesOf(attempts[..k])
        invariant disconnected <==> k > 0
        invariant reconnectAttempts <= old(reconnectAttempts) + k
      {
        assert attempts[..k + 1][..k] == attempts[..k];
        Attempt(attempts[k].0, attempts[k].1);
      }
      NoticesAlternate(attempts);
    }
  }

  lemma EndedIs(t: Session, first: Callback, second: Callback)
    ensures t.(calls := t.calls + [first] + [second], proxyClosed := true, state := Closed, closed := true)
         == Ended(t, [first, second])
  {
    assert t.calls + [first] + [second] == t.calls + [first, second];
  }

  lemma PushKeepsPump(c: Client, i: Id, chunk: Bytes)
    requires i in c.sess
    ensures MuxClient.Push(c, i, chunk).0.sess[i].pumpDone == c.sess[i].pumpDone
  {
  }

  lemma {:induction false} PushAllKeeps(c: Client, i: Id, chunks: seq<Bytes>)
    requires i in c.sess
    ensures i in PushAll(c, i, chunks).sess
    decreases |chunks|
  {
  }

  /** The record of a session after `closeSession`. */
  function ClosedRecord(t: Session, cause: Cause, closeAt: Option<nat>): Session {
    t.(closed := true, state := Closed, closeAt := closeAt, proxyClosed := true, calls := t.calls + [OnClose(cause)])
  }

  lemma CloseIs(c: Client, i: Id, cause: Cause, notify: bool)
    requires i in c.sess
    ensures var told := notify && c.link.Healthy?;
            var closeAt := if told then Some(|c.up|) else c.sess[i].closeAt;
            MuxClient.CloseSession(c, i, cause, notify)
              == if c.sess[i].closed then c
                 else Client(c.link, c.live - {i}, c.sess[i := ClosedRecord(c.sess[i], cause, closeAt)],
                             if told then c.up + [UpClose(i)] else c.up)
  {
  }

  lemma LastDrawn(base: nat, draws: nat)
    requires draws > 0
    ensures WasDrawn(IdAt(base + draws - 1), base, draws)
  {
  }

  lemma StillDrawn(ids: set<Id>, base: nat, before: nat, draws: nat)
    requires before <= draws && AllDrawn(ids, base, before)
    ensures AllDrawn(ids, base, draws)
  {
    forall i | i in ids ensures WasDrawn(i, base, draws) {
      var j: nat :| base <= j < base + before && IdAt(j) == i;
    }
  }
}
