/** One WSS connection end to end: the state, and the facts that tie the client's end to the server's. */
module MuxCross {
  import opened Common
  import opened MuxClient
  import opened MuxServer
  import CI = MuxClientInv
  import SI = MuxServerInv

  /**
   * Both ends and the two channels between them.  A channel is the log of what was written to it together with how
   * much of it the other end has handled; the rest is in flight.
   */
  datatype Conn = Conn(c: Client, upRead: nat, downRead: nat, s: Server)

  // ----- the callbacks a session has seen ---------------------------------------------------

  /** Where a session's callbacks have got to; `Bad` is any order the tunnel must not produce. */
  datatype Stage = Fresh | Running | Failed | Over | Bad

  function Next(stage: Stage, call: Callback): Stage {
    match (stage, call)
    case (Fresh, OnOpen) => Running
    case (Running, OnData(_)) => Running
    case (Fresh, OnError(_)) => Failed
    case (Running, OnError(_)) => Failed
    case (Fresh, OnClose(_)) => Over
    case (Running, OnClose(_)) => Over
    case (Failed, OnClose(_)) => Over
    case (_, _) => Bad
  }

  function StageOf(calls: seq<Callback>): Stage {
    if calls == [] then Fresh else Next(StageOf(calls[..|calls| - 1]), calls[|calls| - 1])
  }

  lemma StageSnoc(calls: seq<Callback>, call: Callback)
    ensures StageOf(calls + [call]) == Next(StageOf(calls), call)
  {
    assert (calls + [call])[..|calls|] == calls;
  }

  /** The bytes handed to a session's `onData`. */
  function Delivered(calls: seq<Callback>): Bytes {
    if calls == [] then []
    else
      var front, last := calls[..|calls| - 1], calls[|calls| - 1];
      Delivered(front) + if last.OnData? then last.payload else []
  }

  lemma DeliveredSnoc(calls: seq<Callback>, call: Callback)
    ensures Delivered(calls + [call]) == Delivered(calls) + if call.OnData? then call.payload else []
  {
    assert (calls + [call])[..|calls|] == calls;
  }

  /** The session ended because its target closed. */
  predicate TargetClosed(calls: seq<Callback>) {
    calls != [] && calls[|calls| - 1] == OnClose(ServerClose(TARGET_CLOSED))
  }

  // ----- the invariant that spans both ends ----------------------------------------------------

  predicate Alive(s: Server, i: Id) {
    i in s.live || (s.handler.Checked? && s.handler.id == i)
  }

  function Written(s: Server, i: Id): Bytes {
    if i in s.targets then s.targets[i].written else []
  }

  /** The server has told the client that the session is over, or is about to. */
  predicate Due(s: Server, i: Id) {
    i in s.endAt
    || (i in s.targets && s.targets[i].release.Some?
        && (s.targets[i].release.value.Notify? || s.targets[i].release.value.notify))
  }

  predicate Known(s: Server, i: Id) {
    i in s.targets || i in s.endAt || SI.HandlerOn(s.handler, i)
  }

  predicate Announced(s: Server, i: Id, upto: nat) {
    i in s.targets && s.targets[i].announcedAt.Some? && s.targets[i].announcedAt.value < upto
  }

  /** What reached the target of a session, against what its client uploaded. */
  predicate UplinkOk(z: Conn, i: Id) {
    i in z.c.sess && z.upRead <= |z.c.up| &&
    var t := z.c.sess[i];
    var handled := CI.UpPayload(z.c.up[..z.upRead], i);
    && (Known(z.s, i) ==> t.openAt < z.upRead)
    && Written(z.s, i) <= handled
    && (Alive(z.s, i) && !z.s.closed ==> Written(z.s, i) == handled)
    && (i in z.s.targets && z.s.targets[i].uplinkClosed ==> t.halfAt.Some? && t.halfAt.value < z.upRead)
    && (i in z.s.targets && z.s.targets[i].finSent ==> t.halfAt.Some? && z.s.targets[i].written == Upload(t))
    && (i in z.s.targets && z.s.targets[i].uplinkClosed ==> z.s.targets[i].finSent)
    && (t.closeAt.Some? && t.closeAt.value < z.upRead ==> !Alive(z.s, i))
  }

  /** What the client delivered, against what the target sent. */
  predicate DownlinkOk(z: Conn, i: Id) {
    i in z.c.sess && z.downRead <= |z.s.down| &&
    var t := z.c.sess[i];
    var handled := SI.DownPayload(z.s.down[..z.downRead], i);
    && (t.ready ==> Announced(z.s, i, z.downRead))
    && (Announced(z.s, i, z.downRead) && !t.closed ==> t.state == Open)
    && Delivered(t.calls) <= handled
    && (!t.closed ==> Delivered(t.calls) == handled)
    && (i in z.s.endAt && z.s.endAt[i] < z.downRead ==> t.closed)
    && (TargetClosed(t.calls) ==>
          i in z.s.targets && z.s.targets[i].peerClosed && Delivered(t.calls) == z.s.targets[i].produced)
    && StageOf(t.calls) == (match t.state case Connecting => Fresh case Open => Running case Closed => Over)
  }

  /** Each end holds the session, or word of its end is on the way. */
  predicate AgreeOk(z: Conn, i: Id) {
    i in z.c.sess &&
    var t := z.c.sess[i];
    && (z.c.link.Healthy? && t.closed ==> t.closeAt.Some? || (i in z.s.endAt && z.s.endAt[i] < z.downRead))
    && (z.s.link.Healthy? && !z.s.closed && !t.closed && t.openAt < z.upRead ==> Alive(z.s, i) || Due(z.s, i))
  }

  predicate CrossOk(z: Conn, i: Id) {
    UplinkOk(z, i) && DownlinkOk(z, i) && AgreeOk(z, i)
  }

  ghost predicate Inv(z: Conn) {
    && CI.Inv(z.c) && SI.Inv(z.s)
    && z.upRead <= |z.c.up| && z.downRead <= |z.s.down|
    && (forall i: Id :: Known(z.s, i) ==> i in z.c.sess)
    && (forall i | i in z.c.sess :: CrossOk(z, i))
  }

  // ----- steps of the client --------------------------------------------------------------------

  lemma ClientOther(z: Conn, c': Client, i: Id, j: Id)
    requires CI.OwnStep(z.c, c', i) && j in z.c.sess && j != i
    requires z.upRead <= |z.c.up| && z.downRead <= |z.s.down| && CrossOk(z, j)
    ensures z.upRead <= |c'.up| && CrossOk(z.(c := c'), j)
  {
    assert c'.up[..z.upRead] == z.c.up[..z.upRead];
  }

  lemma HalfMeansDone(c: Client, i: Id)
    requires i in c.sess && CI.SessionOk(c, i)
    ensures c.sess[i].halfAt.Some? ==> c.sess[i].pumpDone
    ensures c.sess[i].closed <==> c.sess[i].state == Closed
  {
    hide CI.UpPayload, Flat;
  }

  lemma LocalUplink(z: Conn, c': Client, i: Id)
    requires CI.LocalStep(z.c, c', i) && CI.SessionOk(z.c, i) && z.upRead <= |z.c.up| && UplinkOk(z, i)
    ensures UplinkOk(z.(c := c'), i)
  {
    hide CI.UpPayload, Upload, CI.SessionOk, CI.StaysOrCloses;
    assert c'.up[..z.upRead] == z.c.up[..z.upRead];
    HalfMeansDone(z.c, i);
  }

  /** A session whose step left it open or closed is as the downstream facts have it. */
  lemma LocalDownlink(z: Conn, c': Client, i: Id)
    requires i in z.c.sess && i in c'.sess && CI.StaysOrCloses(z.c, c', i) && c'.sess[i].ready == z.c.sess[i].ready
    requires (c'.link.Healthy? ==> z.c.link.Healthy?) && c'.sess[i].openAt == z.c.sess[i].openAt
    requires z.c.sess[i].closed <==> z.c.sess[i].state == Closed
    requires c'.sess[i].closed <==> c'.sess[i].state == Closed
    requires DownlinkOk(z, i) && AgreeOk(z, i)
    ensures DownlinkOk(z.(c := c'), i) && AgreeOk(z.(c := c'), i)
  {
    hide SI.DownPayload, Delivered, StageOf;
    var t, t' := z.c.sess[i], c'.sess[i];
    if t'.closed != t.closed {
      var cause: Cause :| !cause.ServerClose? && t'.calls == t.calls + [OnClose(cause)];
      StageSnoc(t.calls, OnClose(cause));
      DeliveredSnoc(t.calls, OnClose(cause));
    }
  }

  lemma LocalCross(z: Conn, c': Client, i: Id)
    requires CI.LocalStep(z.c, c', i) && CI.SessionOk(z.c, i)
    requires z.upRead <= |z.c.up| && z.downRead <= |z.s.down| && CrossOk(z, i)
    ensures z.upRead <= |c'.up| && CrossOk(z.(c := c'), i)
  {
    hide UplinkOk, DownlinkOk, AgreeOk, CI.SessionOk, CI.StaysOrCloses;
    HalfMeansDone(z.c, i);
    HalfMeansDone(c', i);
    LocalUplink(z, c', i);
    LocalDownlink(z, c', i);
  }

  lemma LocalKeeps(z: Conn, c': Client, i: Id)
    requires Inv(z) && CI.LocalStep(z.c, c', i)
    ensures Inv(z.(c := c'))
  {
    hide CI.LocalStep, CI.SessionOk, CrossOk;
    CI.LocalStepKeeps(z.c, c', i);
    LocalFacts(z.c, c', i);
    CI.InvSession(z.c, i);
    forall j | j in c'.sess ensures CrossOk(z.(c := c'), j) {
      assert CrossOk(z, j);
      if j == i { LocalCross(z, c', i); } else { ClientOther(z, c', i, j); }
    }
  }

  lemma LocalFacts(c: Client, c': Client, i: Id)
    requires CI.LocalStep(c, c', i)
    ensures CI.OwnStep(c, c', i) && |c.up| <= |c'.up| && c'.sess.Keys == c.sess.Keys && i in c.sess
  {
  }

  lemma OpenOther(z: Conn, i: Id, host: string, port: nat, head: seq<Bytes>, j: Id)
    requires i !in z.c.sess && j in z.c.sess && z.c.link.Healthy? && CrossOk(z, j)
    ensures CrossOk(z.(c := OpenSession(z.c, i, host, port, head)), j)
  {
    hide CI.UpPayload, SI.DownPayload, Delivered, StageOf, Flat;
    assert (z.c.up + [Connect(i, host, port)])[..z.upRead] == z.c.up[..z.upRead];
  }

  lemma OpenNew(z: Conn, i: Id, host: string, port: nat, head: seq<Bytes>)
    requires i !in z.c.sess && z.c.link.Healthy? && z.upRead <= |z.c.up| && z.downRead <= |z.s.down|
    requires !Known(z.s, i)
    requires CI.UpPayload(z.c.up[..z.upRead], i) == [] && SI.DownPayload(z.s.down[..z.downRead], i) == []
    ensures CrossOk(z.(c := OpenSession(z.c, i, host, port, head)), i)
  {
    hide CI.UpPayload, SI.DownPayload, Flat;
    assert (z.c.up + [Connect(i, host, port)])[..z.upRead] == z.c.up[..z.upRead];
  }

  lemma OpenKeeps(z: Conn, i: Id, host: string, port: nat, head: seq<Bytes>)
    requires Inv(z) && i !in z.c.sess
    ensures Inv(z.(c := OpenSession(z.c, i, host, port, head)))
  {
    hide CrossOk, CI.Inv, SI.Inv, Known, CI.UpPayload, SI.DownPayload;
    var c' := OpenSession(z.c, i, host, port, head);
    Parts(z);
    CI.OpenKeeps(z.c, i, host, port, head);
    assert !Known(z.s, i);
    if z.c.link.Healthy? {
      NothingBefore(z, i);
      forall j | j in c'.sess ensures CrossOk(z.(c := c'), j) {
        if j != i { OpenOther(z, i, host, port, head, j); } else { OpenNew(z, i, host, port, head); }
      }
    }
    Whole(z.(c := c'));
  }

  /** Neither channel carries anything of a session that was never opened. */
  lemma NothingBefore(z: Conn, i: Id)
    requires CI.Inv(z.c) && SI.Inv(z.s) && i !in z.c.sess && !Known(z.s, i)
    requires z.upRead <= |z.c.up| && z.downRead <= |z.s.down|
    ensures CI.UpPayload(z.c.up[..z.upRead], i) == [] && SI.DownPayload(z.s.down[..z.downRead], i) == []
  {
    forall k | 0 <= k < |z.c.up| ensures !CI.IsData(z.c.up[k], i) { assert CI.UpOk(z.c, k); }
    forall k | 0 <= k < |z.s.down| ensures !SI.IsData(z.s.down[k], i) { assert SI.DownOk(z.s, k); }
    CI.UpTail(z.c.up[..z.upRead], 0, i);
    SI.DownTail(z.s.down[..z.downRead], 0, i);
  }

  /** A link that stopped being healthy never makes the two ends disagree. */
  lemma ClientLinkKeeps(z: Conn, link: Link)
    requires Inv(z) && !link.Healthy?
    ensures Inv(z.(c := z.c.(link := link)))
  {
    CI.LinkKeeps(z.c, link);
    var z' := z.(c := z.c.(link := link));
    forall j | j in z'.c.sess ensures CrossOk(z', j) { assert CrossOk(z, j); }
  }

  /** What the upstream facts need to know of a change on the client's side. */
  predicate SameUpload(c: Client, c': Client, i: Id, upRead: nat) {
    && i in c.sess && i in c'.sess && c.up <= c'.up && upRead <= |c.up|
    && var t, t' := c.sess[i], c'.sess[i];
       && t'.openAt == t.openAt
       && CI.MarkGrows(t.halfAt, t'.halfAt, |c.up|) && CI.MarkGrows(t.closeAt, t'.closeAt, |c.up|)
       && (t.halfAt.Some? ==> Upload(t') == Upload(t))
  }

  lemma UplinkSame(z: Conn, z': Conn, i: Id)
    requires SameUpload(z.c, z'.c, i, z.upRead) && UplinkOk(z, i) && z'.s == z.s && z'.upRead == z.upRead
    ensures UplinkOk(z', i)
  {
    assert z'.c.up[..z.upRead] == z.c.up[..z.upRead];
    hide CI.UpPayload, Upload;
  }

  lemma DisconnectedDown(z: Conn, reason: string, i: Id)
    requires i in z.c.sess && DownlinkOk(z, i) && AgreeOk(z, i) && (z.c.sess[i].closed <==> i !in z.c.live)
    requires i in z.c.live ==> z.c.sess[i].state != Closed
    ensures var z' := z.(c := Disconnected(z.c, reason)); DownlinkOk(z', i) && AgreeOk(z', i)
  {
    hide SI.DownPayload, Delivered, StageOf, TargetClosed;
    TwoCalls(z.c.sess[i].calls, OnError(reason), OnClose(LinkDown(reason)));
  }

  lemma DisconnectedUp(z: Conn, reason: string, i: Id)
    requires i in z.c.sess && z.upRead <= |z.c.up| && UplinkOk(z, i)
    ensures UplinkOk(z.(c := Disconnected(z.c, reason)), i)
  {
    hide UplinkOk;
    UplinkSame(z, z.(c := Disconnected(z.c, reason)), i);
  }

  lemma DisconnectedOne(z: Conn, reason: string, i: Id)
    requires i in z.c.sess && z.upRead <= |z.c.up| && z.downRead <= |z.s.down| && CrossOk(z, i) && CI.SessionOk(z.c, i)
    ensures CrossOk(z.(c := Disconnected(z.c, reason)), i)
  {
    hide UplinkOk, DownlinkOk, AgreeOk, Disconnected, CI.MarksOk, CI.BytesOk;
    DisconnectedUp(z, reason, i);
    DisconnectedDown(z, reason, i);
  }

  lemma DisconnectedKeeps(z: Conn, reason: string)
    requires Inv(z)
    ensures Inv(z.(c := Disconnected(z.c, reason)))
  {
    hide CrossOk, CI.Inv, SI.Inv, CI.SessionOk, Known;
    var z' := z.(c := Disconnected(z.c, reason));
    CI.DisconnectedKeeps(z.c, reason);
    forall j | j in z'.c.sess ensures CrossOk(z', j) {
      assert CrossOk(z, j);
      CI.InvSession(z.c, j);
      DisconnectedOne(z, reason, j);
    }
  }

  /** Two further callbacks that hand over no bytes. */
  predicate ErrorThenClose(calls: seq<Callback>, first: Callback, second: Callback) {
    var calls' := calls + [first, second];
    && StageOf(calls') == Next(Next(StageOf(calls), first), second)
    && Delivered(calls') == Delivered(calls)
    && (TargetClosed(calls') <==> second == OnClose(ServerClose(TARGET_CLOSED)))
  }

  lemma TwoCalls(calls: seq<Callback>, first: Callback, second: Callback)
    requires !first.OnData? && !second.OnData?
    ensures ErrorThenClose(calls, first, second)
  {
    assert calls + [first, second] == calls + [first] + [second];
    StageSnoc(calls, first);
    StageSnoc(calls + [first], second);
    DeliveredSnoc(calls, first);
    DeliveredSnoc(calls + [first], second);
  }

  // ----- the client handles a message --------------------------------------------------------------

  function ClientReceive(z: Conn): Conn
    requires z.downRead < |z.s.down| && z.c.live <= z.c.sess.Keys
  {
    z.(c := Receive(z.c, z.s.down[z.downRead]), downRead := z.downRead + 1)
  }

  lemma HandledSnoc(down: seq<Down>, n: nat, i: Id)
    requires n < |down|
    ensures SI.DownPayload(down[..n + 1], i)
         == SI.DownPayload(down[..n], i) + if SI.IsData(down[n], i) then down[n].payload else []
  {
    assert down[..n + 1] == down[..n] + [down[n]];
    SI.DownSnoc(down[..n], down[n], i);
  }

  /** A message of another session moves no mark of this one. */
  lemma ReceiveOther(z: Conn, c': Client, j: Id)
    requires z.upRead <= |z.c.up| && z.downRead < |z.s.down| && j in z.c.sess && CrossOk(z, j)
    requires z.s.down[z.downRead].id != j && SI.LocalOk(z.s, j)
    requires z.c.up <= c'.up && j in c'.sess && c'.sess[j] == z.c.sess[j] && (c'.link.Healthy? ==> z.c.link.Healthy?)
    ensures CrossOk(z.(c := c', downRead := z.downRead + 1), j)
  {
    hide SI.DownPayload, CI.UpPayload, Delivered, StageOf, UplinkOk, TargetClosed;
    HandledSnoc(z.s.down, z.downRead, j);
    UplinkSame(z, z.(c := c', downRead := z.downRead + 1), j);
  }

  /** A message to a session the client no longer holds. */
  lemma ReceiveGone(z: Conn, i: Id)
    requires z.upRead <= |z.c.up| && z.downRead < |z.s.down| && i in z.c.sess && CrossOk(z, i)
    requires z.c.sess[i].closed
    ensures CrossOk(z.(downRead := z.downRead + 1), i)
  {
    HandledSnoc(z.s.down, z.downRead, i);
    hide SI.DownPayload, CI.UpPayload, Delivered, StageOf;
  }

  /** A session's record before and after its opening. */
  predicate OpenedRecord(t: Session, t': Session, healthy: bool) {
    && t.state == Connecting && !t.closed && !t.ready
    && t'.ready && t'.openAt == t.openAt && t'.closeAt == t.closeAt
    && (|| (!t'.closed && t'.state == Open && t'.calls == t.calls + [OnOpen])
        || (t'.closed && t'.state == Closed && !healthy && t'.calls == t.calls + [OnOpen, OnClose(SendFailed)]))
  }

  lemma OpeningFacts(c: Client, c': Client, i: Id)
    requires CI.OpeningStep(c, c', i) && i in c.sess && CI.SessionOk(c, i) && c.sess[i].state == Connecting
    ensures i in c'.sess && SameUpload(c, c', i, |c.up|) && OpenedRecord(c.sess[i], c'.sess[i], c'.link.Healthy?)
    ensures c'.link.Healthy? ==> c.link.Healthy?
  {
    hide CI.UpPayload, Flat;
  }

  lemma ConnectedDown(z: Conn, c': Client, i: Id)
    requires z.downRead < |z.s.down| && i in z.c.sess && i in c'.sess && DownlinkOk(z, i) && AgreeOk(z, i)
    requires z.s.down[z.downRead] == Connected(i) && i in z.s.targets && z.s.targets[i].announcedAt == Some(z.downRead)
    requires i in z.s.endAt ==> z.s.endAt[i] != z.downRead
    requires OpenedRecord(z.c.sess[i], c'.sess[i], c'.link.Healthy?) && (c'.link.Healthy? ==> z.c.link.Healthy?)
    ensures var z' := z.(c := c', downRead := z.downRead + 1); DownlinkOk(z', i) && AgreeOk(z', i)
  {
    HandledSnoc(z.s.down, z.downRead, i);
    var calls := z.c.sess[i].calls;
    StageSnoc(calls, OnOpen);
    DeliveredSnoc(calls, OnOpen);
    TwoCalls(calls, OnOpen, OnClose(SendFailed));
    hide SI.DownPayload, Delivered, StageOf;
  }

  /** The messages already written tell where a session's marks are. */
  lemma DownFacts(s: Server, k: nat)
    requires SI.Inv(s) && k < |s.down|
    ensures var m := s.down[k];
            && Known(s, m.id)
            && (m.id in s.endAt && s.endAt[m.id] == k ==> SI.IsEnd(m, m.id))
            && (SI.IsEnd(m, m.id) ==> m.id in s.endAt && s.endAt[m.id] <= k)
            && (m.Connected? ==> m.id in s.targets && s.targets[m.id].announcedAt == Some(k))
            && (m.DownData? ==> Announced(s, m.id, k))
  {
    assert SI.DownOk(s, k) && SI.LocalOk(s, s.down[k].id);
    hide SI.DownPayload;
  }

  lemma UplinkReceived(z: Conn, c': Client, i: Id)
    requires SameUpload(z.c, c', i, |z.c.up|) && z.upRead <= |z.c.up| && UplinkOk(z, i)
    ensures UplinkOk(z.(c := c', downRead := z.downRead + 1), i)
  {
    UplinkSame(z, z.(c := c', downRead := z.downRead + 1), i);
  }

  lemma ReceiveData(z: Conn, i: Id, payload: Bytes)
    requires z.downRead < |z.s.down| && i in z.c.sess && DownlinkOk(z, i) && AgreeOk(z, i)
    requires z.s.down[z.downRead] == DownData(i, payload) && Announced(z.s, i, z.downRead)
    requires i in z.s.endAt ==> z.s.endAt[i] != z.downRead
    requires !z.c.sess[i].closed && CI.FlagsOk(z.c, i)
    ensures var t := z.c.sess[i];
            var z' := z.(c := Update(z.c, i, t.(calls := t.calls + [OnData(payload)])), downRead := z.downRead + 1);
            DownlinkOk(z', i) && AgreeOk(z', i)
  {
    HandledSnoc(z.s.down, z.downRead, i);
    StageSnoc(z.c.sess[i].calls, OnData(payload));
    DeliveredSnoc(z.c.sess[i].calls, OnData(payload));
    hide SI.DownPayload, Delivered, StageOf;
  }

  /** When the client handles `close` for a closed target, it has every byte the target sent. */
  lemma AllDelivered(z: Conn, i: Id)
    requires z.downRead < |z.s.down| && SI.Inv(z.s)
    requires z.s.down[z.downRead] == Close(i, TARGET_CLOSED)
    ensures i in z.s.targets && z.s.targets[i].peerClosed
    ensures SI.DownPayload(z.s.down[..z.downRead], i) == z.s.targets[i].produced
  {
    assert SI.DownOk(z.s, z.downRead);
    forall k | z.downRead <= k < |z.s.down| ensures !SI.IsData(z.s.down[k], i) { assert SI.DownOk(z.s, k); }
    SI.DownTail(z.s.down, z.downRead, i);
  }

  function EndCalls(m: Down): seq<Callback> {
    match m
    case Error(_, message) => [OnError(message), OnClose(ServerError(message))]
    case Close(_, reason) => [OnClose(ServerClose(reason))]
    case _ => []
  }

  lemma EndCallsEffect(calls: seq<Callback>, m: Down)
    requires m.Close? || m.Error?
    ensures var calls' := calls + EndCalls(m);
            && Delivered(calls') == Delivered(calls)
            && (StageOf(calls) == Fresh || StageOf(calls) == Running ==> StageOf(calls') == Over)
            && (TargetClosed(calls') ==> m == Close(m.id, TARGET_CLOSED))
  {
    if m.Error? {
      TwoCalls(calls, OnError(m.message), OnClose(ServerError(m.message)));
    } else {
      StageSnoc(calls, OnClose(ServerClose(m.reason)));
      DeliveredSnoc(calls, OnClose(ServerClose(m.reason)));
    }
  }

  lemma ReceiveEnd(z: Conn, c': Client, i: Id)
    requires z.downRead < |z.s.down| && i in z.c.sess && i in c'.sess && DownlinkOk(z, i) && AgreeOk(z, i)
    requires SI.IsEnd(z.s.down[z.downRead], i) && i in z.s.endAt && z.s.endAt[i] <= z.downRead
    requires !z.c.sess[i].closed && CI.FlagsOk(z.c, i) && c'.link == z.c.link
    requires c'.sess[i] == Ended(z.c.sess[i], EndCalls(z.s.down[z.downRead]))
    requires z.s.down[z.downRead] == Close(i, TARGET_CLOSED) ==>
               i in z.s.targets && z.s.targets[i].peerClosed
               && SI.DownPayload(z.s.down[..z.downRead], i) == z.s.targets[i].produced
    ensures var z' := z.(c := c', downRead := z.downRead + 1); DownlinkOk(z', i) && AgreeOk(z', i)
  {
    HandledSnoc(z.s.down, z.downRead, i);
    EndCallsEffect(z.c.sess[i].calls, z.s.down[z.downRead]);
    hide SI.DownPayload, Delivered, StageOf, EndCalls;
  }

  lemma SessionFacts(c: Client, i: Id)
    requires CI.Inv(c) && i in c.sess
    ensures CI.SessionOk(c, i) && CI.FlagsOk(c, i) && (i in c.live <==> !c.sess[i].closed)
    ensures !c.sess[i].closed && c.sess[i].state != Connecting ==> c.sess[i].ready
  {
    assert CI.SessionOk(c, i);
  }

  /** The invariant, at one session. */
  lemma Look(z: Conn, i: Id)
    requires Inv(z) && i in z.c.sess
    ensures z.upRead <= |z.c.up| && z.downRead <= |z.s.down| && CrossOk(z, i)
    ensures UplinkOk(z, i) && DownlinkOk(z, i) && AgreeOk(z, i)
    ensures CI.Inv(z.c) && SI.Inv(z.s) && CI.SessionOk(z.c, i) && SI.LocalOk(z.s, i) && z.c.live <= z.c.sess.Keys
  {
    hide CI.SessionOk, SI.LocalOk, UplinkOk, DownlinkOk, AgreeOk, CI.UpOk, SI.DownOk;
  }

  lemma Parts(z: Conn)
    requires Inv(z)
    ensures z.upRead <= |z.c.up| && z.downRead <= |z.s.down| && CI.Inv(z.c) && SI.Inv(z.s)
    ensures z.c.live <= z.c.sess.Keys && z.s.live <= z.s.targets.Keys
  {
    forall i | i in z.s.live ensures i in z.s.targets { assert SI.LocalOk(z.s, i); }
  }

  /** Assembling the invariant again. */
  lemma Whole(z: Conn)
    requires CI.Inv(z.c) && SI.Inv(z.s) && z.upRead <= |z.c.up| && z.downRead <= |z.s.down|
    requires forall i: Id :: Known(z.s, i) ==> i in z.c.sess
    requires forall i | i in z.c.sess :: CrossOk(z, i)
    ensures Inv(z)
  {
  }

  lemma ReceiveOwnConnected(z: Conn, i: Id)
    requires CI.Inv(z.c) && SI.Inv(z.s) && z.c.live <= z.c.sess.Keys && z.upRead <= |z.c.up|
    requires z.downRead < |z.s.down| && z.s.down[z.downRead] == Connected(i)
    requires i in z.c.sess && !z.c.sess[i].closed && CrossOk(z, i)
    ensures i in Receive(z.c, Connected(i)).sess
    ensures CrossOk(z.(c := Receive(z.c, Connected(i)), downRead := z.downRead + 1), i)
  {
    hide *;
    var c' := Receive(z.c, Connected(i));
    StillConnecting(z, i);
    CI.OpenedKeeps(z.c, i);
    SessionFacts(z.c, i);
    OpeningFacts(z.c, c', i);
    ConnectedReceived(z, c', i);
  }

  lemma StillConnecting(z: Conn, i: Id)
    requires CI.Inv(z.c) && SI.Inv(z.s) && z.downRead < |z.s.down| && z.s.down[z.downRead] == Connected(i)
    requires i in z.c.sess && !z.c.sess[i].closed && z.upRead <= |z.c.up| && CrossOk(z, i)
    ensures z.c.sess[i].state == Connecting && i in z.c.live
  {
    DownFacts(z.s, z.downRead);
    SessionFacts(z.c, i);
    NotYet(z.s, i, z.downRead);
    hide CI.Inv, SI.Inv, UplinkOk, AgreeOk, Delivered, StageOf, SI.DownPayload;
  }

  lemma ConnectedReceived(z: Conn, c': Client, i: Id)
    requires SI.Inv(z.s) && z.downRead < |z.s.down| && z.s.down[z.downRead] == Connected(i)
    requires i in z.c.sess && i in c'.sess && z.upRead <= |z.c.up| && CrossOk(z, i)
    requires SameUpload(z.c, c', i, |z.c.up|) && OpenedRecord(z.c.sess[i], c'.sess[i], c'.link.Healthy?)
    requires c'.link.Healthy? ==> z.c.link.Healthy?
    ensures z.upRead <= |c'.up| && CrossOk(z.(c := c', downRead := z.downRead + 1), i)
  {
    hide SI.Inv, UplinkOk, DownlinkOk, AgreeOk, OpenedRecord, Upload;
    DownFacts(z.s, z.downRead);
    UplinkReceived(z, c', i);
    ConnectedDown(z, c', i);
  }

  lemma NotYet(s: Server, i: Id, k: nat)
    requires i in s.targets && s.targets[i].announcedAt == Some(k)
    ensures !Announced(s, i, k)
  {
  }

  lemma ReceiveOwnOther(z: Conn, i: Id)
    requires CI.Inv(z.c) && SI.Inv(z.s) && z.c.live <= z.c.sess.Keys && z.upRead <= |z.c.up|
    requires z.downRead < |z.s.down| && z.s.down[z.downRead].id == i && !z.s.down[z.downRead].Connected?
    requires i in z.c.sess && !z.c.sess[i].closed && CrossOk(z, i)
    ensures var c' := Receive(z.c, z.s.down[z.downRead]);
            i in c'.sess && CrossOk(z.(c := c', downRead := z.downRead + 1), i)
  {
    var m := z.s.down[z.downRead];
    var c' := Receive(z.c, m);
    hide SI.Inv, CI.Inv, SI.DownPayload, CI.UpPayload, UplinkOk, DownlinkOk, AgreeOk, CI.SessionOk, CI.FlagsOk;
    DownFacts(z.s, z.downRead);
    SessionFacts(z.c, i);
    UplinkReceived(z, c', i);
    if m.DownData? {
      ReceiveData(z, i, m.payload);
    } else {
      if m == Close(i, TARGET_CLOSED) { AllDelivered(z, i); }
      ReceiveEnd(z, c', i);
    }
  }

  lemma ReceiveFrame(c: Client, m: Down)
    requires CI.Inv(c)
    ensures var c' := Receive(c, m);
            && c.up <= c'.up && c'.sess.Keys == c.sess.Keys && (c'.link.Healthy? ==> c.link.Healthy?)
            && forall j | j in c.sess && j != m.id :: c'.sess[j] == c.sess[j]
  {
    hide CI.SessionOk, CI.UpOk;
    if m.id in c.live && m.Connected? && c.sess[m.id].state == Connecting { CI.OpenedKeeps(c, m.id); }
  }

  lemma IgnoredWhenClosed(c: Client, m: Down)
    requires CI.Inv(c) && m.id in c.sess && c.sess[m.id].closed
    ensures Receive(c, m) == c
  {
    CI.LiveIsOpen(c, m.id);
  }

  lemma ReceiveOne(z: Conn, j: Id)
    requires Inv(z) && z.downRead < |z.s.down| && j in z.c.sess
    ensures var c' := Receive(z.c, z.s.down[z.downRead]);
            j in c'.sess && z.upRead <= |c'.up| && CrossOk(z.(c := c', downRead := z.downRead + 1), j)
  {
    Look(z, j);
    hide *;
    var m := z.s.down[z.downRead];
    ReceiveFrame(z.c, m);
    if j != m.id {
      ReceiveOther(z, Receive(z.c, m), j);
    } else if z.c.sess[j].closed {
      IgnoredWhenClosed(z.c, m);
      ReceiveGone(z, j);
    } else if m.Connected? {
      assert m == Connected(j);
      ReceiveOwnConnected(z, j);
    } else {
      ReceiveOwnOther(z, j);
    }
  }

  lemma ReceiveKeeps(z: Conn)
    requires Inv(z) && z.downRead < |z.s.down|
    ensures z.c.live <= z.c.sess.Keys && Inv(ClientReceive(z))
  {
    hide CrossOk, CI.Inv, SI.Inv, Receive, Known;
    Parts(z);
    var m := z.s.down[z.downRead];
    var z' := z.(c := Receive(z.c, m), downRead := z.downRead + 1);
    CI.ReceiveKeeps(z.c, m);
    ReceiveFrame(z.c, m);
    forall j | j in z'.c.sess ensures CrossOk(z', j) { ReceiveOne(z, j); }
    assert z'.s == z.s && z'.upRead <= |z'.c.up| && z'.downRead <= |z'.s.down|;
    Whole(z');
  }

  // ----- steps of the server that read nothing from upstream -------------------------------------------

  /** A server step as session `j` sees it when no upstream message is handled. */
  predicate Quiet(s: Server, s': Server, j: Id) {
    && (s'.link.Healthy? ==> s.link.Healthy?) && (s.closed ==> s'.closed) && s'.maxSessions == s.maxSessions
    && s.down <= s'.down
    && (Known(s', j) ==> Known(s, j))
    && Written(s', j) == Written(s, j)
    && (j in s.targets ==> j in s'.targets && QuietTarget(s.targets[j], s'.targets[j], |s.down|))
    && (j !in s.targets && j in s'.targets ==> FreshTarget(s'.targets[j]))
    && (j in s.endAt ==> j in s'.endAt && s'.endAt[j] == s.endAt[j])
    && (j !in s.endAt && j in s'.endAt ==> s'.endAt[j] >= |s.down|)
    && (Alive(s', j) ==> Alive(s, j))
    && (s'.link.Healthy? && !s'.closed ==> (Alive(s, j) || Due(s, j) ==> Alive(s', j) || Due(s', j)))
  }

  /** A socket is made at most once and closed at most once. */
  function Rank(socket: Socket): nat {
    match socket case NoSocket => 0 case Live => 1 case Released => 2
  }

  predicate QuietTarget(t: Target, t': Target, written: nat) {
    && t'.uplinkClosed == t.uplinkClosed && t'.finSent == t.finSent && t'.written == t.written
    && Rank(t.socket) <= Rank(t'.socket) && t.produced <= t'.produced
    && (t.peerClosed ==> t'.peerClosed && t'.produced == t.produced)
    && (t'.announcedAt == t.announcedAt
        || (t.announcedAt.None? && t'.announcedAt.Some? && t'.announcedAt.value >= written))
  }

  predicate FreshTarget(t: Target) {
    !t.uplinkClosed && !t.finSent && t.announcedAt.None? && t.socket.NoSocket?
  }

  lemma QuietCross(z: Conn, s': Server, j: Id)
    requires CrossOk(z, j) && Quiet(z.s, s', j)
    ensures CrossOk(z.(s := s'), j)
  {
    hide CI.UpPayload, SI.DownPayload, Delivered, StageOf, Upload;
    assert s'.down[..z.downRead] == z.s.down[..z.downRead];
  }

  lemma QuietKeeps(z: Conn, s': Server)
    requires Inv(z) && SI.Inv(s') && forall j: Id :: Quiet(z.s, s', j)
    ensures Inv(z.(s := s'))
  {
    Parts(z);
    var z' := z.(s := s');
    assert Quiet(z.s, s', 0);
    forall j: Id ensures Known(s', j) ==> j in z.c.sess { assert Quiet(z.s, s', j); }
    hide CI.Inv, SI.Inv, Quiet, Known;
    forall j | j in z.c.sess ensures CrossOk(z', j) {
      assert CrossOk(z, j);
      hide CrossOk;
      QuietCross(z, s', j);
    }
    hide CrossOk, Inv;
    Whole(z');
  }

  /** A server step that leaves a session's entries alone is quiet for it. */
  predicate Untouched(s: Server, s': Server, j: Id) {
    && SI.SameSession(s, s', j) && s.down <= s'.down
    && s'.link == s.link && s'.closed == s.closed && s'.maxSessions == s.maxSessions
    && (SI.HandlerOn(s'.handler, j) <==> SI.HandlerOn(s.handler, j))
    && (s'.handler.Checked? && s'.handler.id == j <==> s.handler.Checked? && s.handler.id == j)
  }

  lemma FrameQuiet(s: Server, s': Server, j: Id)
    requires Untouched(s, s', j)
    ensures Quiet(s, s', j)
  {
  }

  lemma ThenQuiet(s: Server, s1: Server, s2: Server, j: Id)
    requires Quiet(s, s1, j) && Quiet(s1, s2, j) && (j in s1.targets ==> j in s.targets)
    ensures Quiet(s, s2, j)
  {
    hide Alive, Due, Known, Written;
  }

  /** Sending is quiet, except that it makes a session known. */
  lemma WriteQuiet(s: Server, m: Down, j: Id)
    requires m.Error? || m.Close? ==> Known(s, m.id)
    ensures Quiet(s, Send(s, m), j)
  {
    hide Written;
    SI.SendFrame(s, m);
    assert Written(Send(s, m), j) == Written(s, j) by { SameTargets(s, Send(s, m), j); }
  }

  lemma SameTargets(s: Server, s': Server, j: Id)
    requires s'.targets == s.targets
    ensures Written(s', j) == Written(s, j)
  {
  }

  lemma InsertQuiet(s: Server, j: Id)
    requires s.handler.Checked? && SI.LocalOk(s, s.handler.id)
    ensures Quiet(s, Insert(s), j)
  {
    hide SI.DownPayload;
  }

  lemma GuardQuiet(s: Server, lookup: SI.Ssrf.Lookup, j: Id)
    requires s.handler.Inserted? && s.handler.id in s.targets
    ensures Quiet(s, GuardPhase(s, lookup), j)
  {
    hide SI.DownPayload, SI.Ssrf.Guard, Quiet;
    if j == s.handler.id { GuardOwnQuiet(s, lookup); } else { FrameQuiet(s, GuardPhase(s, lookup), j); }
  }

  /** A connect that failed: the read loop moves on and an error goes out. */
  lemma FailWithQuiet(s: Server, i: Id, message: string, j: Id)
    requires SI.HandlerOn(s.handler, i) && !s.handler.Checked?
    ensures Quiet(s, SI.FailWith(s, i, message), j)
  {
    hide Quiet, Send;
    var s1 := s.(handler := Failing(i));
    FrameQuiet(s, s1, j);
    WriteQuiet(s1, Error(i, message), j);
    ThenQuiet(s, s1, Send(s1, Error(i, message)), j);
    SendThenHandler(s, Error(i, message), Failing(i));
  }

  lemma SendThenHandler(s: Server, m: Down, handler: Handler)
    ensures Send(s.(handler := handler), m) == Send(s, m).(handler := handler)
  {
  }

  lemma GuardOwnQuiet(s: Server, lookup: SI.Ssrf.Lookup)
    requires s.handler.Inserted? && s.handler.id in s.targets
    ensures Quiet(s, GuardPhase(s, lookup), s.handler.id)
  {
    hide SI.Ssrf.Guard, Quiet, Send;
    var i := s.handler.id;
    var guard := SI.Ssrf.Guard(s.targets[i].host, lookup);
    if s.closed {
      DroppedQuiet(s, i);
    } else if !guard.ok {
      FailWithQuiet(s, i, guard.reason, i);
    } else {
      FrameQuiet(s, GuardPhase(s, lookup), i);
    }
  }

  /** Once the manager is closed nothing is owed to the client. */
  lemma DroppedQuiet(s: Server, i: Id)
    requires s.closed && SI.HandlerOn(s.handler, i) && !s.handler.Checked?
    ensures Quiet(s, s.(live := s.live - {i}, handler := Idle), i)
  {
  }

  lemma DialQuiet(s: Server, connected: bool, j: Id)
    requires s.handler.Resolved? && s.handler.id in s.targets && SI.PhaseOk(s, s.handler.id)
    ensures Quiet(s, DialPhase(s, connected), j)
  {
    hide Quiet, Send, SI.PhaseOk;
    var i := s.handler.id;
    var s1 := s.(dials := s.dials + [s.handler.dial]);
    FrameQuiet(s, s1, j);
    if !connected {
      FailWithQuiet(s1, i, "target socket error: connect failed", j);
    } else if j == i {
      NoSocketYet(s);
      RecordQuiet(s1, i, s.targets[i].(socket := Live), Dialed(i));
    } else {
      FrameQuiet(s1, DialPhase(s, connected), j);
    }
    ThenQuiet(s, s1, DialPhase(s, connected), j);
  }

  lemma NoSocketYet(s: Server)
    requires s.handler.Resolved? && s.handler.id in s.targets && SI.PhaseOk(s, s.handler.id)
    ensures s.targets[s.handler.id].socket.NoSocket?
  {
  }

  lemma FailQuiet(s: Server, j: Id)
    requires s.handler.Failing? && s.handler.id in s.targets && SI.PhaseOk(s, s.handler.id)
    ensures Quiet(s, FailPhase(s), j)
  {
  }

  lemma PublishQuiet(s: Server, j: Id)
    requires s.handler.Dialed? && s.handler.id in s.targets
    ensures Quiet(s, PublishPhase(s), j)
  {
    hide Quiet;
    if j == s.handler.id { PublishOwnQuiet(s); } else { FrameQuiet(s, PublishPhase(s), j); }
  }

  /** One record changed, its entry in the map kept or not, and nothing else of the session touched. */
  lemma RecordQuiet(s: Server, i: Id, t: Target, handler: Handler)
    requires i in s.targets && SI.HandlerOn(s.handler, i) && !s.handler.Checked? && !handler.Checked?
    requires QuietTarget(s.targets[i], t, |s.down|) && t.release == s.targets[i].release
    ensures Quiet(s, Set(s, i, t).(handler := handler), i)
  {
    hide QuietTarget;
    assert t.written == s.targets[i].written by { SameWritten(s.targets[i], t, |s.down|); }
  }

  lemma SameWritten(t: Target, t': Target, n: nat)
    requires QuietTarget(t, t', n)
    ensures t'.written == t.written
  {
  }

  lemma PublishOwnQuiet(s: Server)
    requires s.handler.Dialed? && s.handler.id in s.targets
    ensures Quiet(s, PublishPhase(s), s.handler.id)
  {
    hide Quiet;
    var i := s.handler.id;
    var t := s.targets[i];
    if s.closed || i !in s.live {
      RecordQuiet(s, i, t.(socket := Released), Idle);
    } else {
      RecordQuiet(s, i, t.(published := true), Published(i));
    }
  }

  lemma AnnounceQuiet(s: Server, j: Id)
    requires s.handler.Published? && s.handler.id in s.targets && SI.PhaseOk(s, s.handler.id)
    ensures Quiet(s, AnnouncePhase(s), j)
  {
    hide Quiet, Send, SI.PhaseOk;
    var i := s.handler.id;
    var t := s.targets[i].(announcedAt := NextAt(s));
    var s1 := Set(s, i, t).(handler := Handler.Announced(i));
    NotAnnounced(s);
    if j == i { RecordQuiet(s, i, t, Handler.Announced(i)); } else { FrameQuiet(s, s1, j); }
    WriteQuiet(s1, Connected(i), j);
    ThenQuiet(s, s1, Send(s1, Connected(i)), j);
    SendThenRecord(s, Connected(i), i, t, Handler.Announced(i));
  }

  lemma NotAnnounced(s: Server)
    requires s.handler.Published? && s.handler.id in s.targets && SI.PhaseOk(s, s.handler.id)
    ensures s.targets[s.handler.id].announcedAt.None?
  {
  }

  /** Sending commutes with the changes of a record and of the read loop's place. */
  lemma SendThenRecord(s: Server, m: Down, i: Id, t: Target, handler: Handler)
    ensures Send(Set(s, i, t).(handler := handler), m) == Set(Send(s, m), i, t).(handler := handler)
  {
  }

  lemma StartQuiet(s: Server, j: Id)
    requires s.handler.Announced? && s.handler.id in s.targets
    ensures Quiet(s, StartReader(s), j)
  {
  }

  lemma CloseQuiet(s: Server, i: Id, reason: string, notify: bool, j: Id)
    requires s.live <= s.targets.Keys && (notify || !s.link.Healthy?)
    ensures Quiet(s, BeginClose(s, i, reason, notify), j)
  {
    hide Quiet;
    if j == i { CloseOwnQuiet(s, i, reason, notify); } else { FrameQuiet(s, BeginClose(s, i, reason, notify), j); }
  }

  lemma CloseOwnQuiet(s: Server, i: Id, reason: string, notify: bool)
    requires s.live <= s.targets.Keys && (notify || !s.link.Healthy?)
    ensures Quiet(s, BeginClose(s, i, reason, notify), i)
  {
  }

  lemma CloseSocketQuiet(s: Server, i: Id, j: Id)
    requires i in s.targets && s.targets[i].release.Some? && s.targets[i].release.value.CloseSocket?
    ensures Quiet(s, ReleaseStep(s, i), j)
  {
  }

  lemma NotifyQuiet(s: Server, i: Id, j: Id)
    requires i in s.targets && s.targets[i].release.Some? && s.targets[i].release.value.Notify?
    ensures Quiet(s, ReleaseStep(s, i), j)
  {
    hide Quiet;
    if j == i { NotifyOwnQuiet(s, i); } else { FrameQuiet(s, ReleaseStep(s, i), j); }
  }

  lemma NotifyOwnQuiet(s: Server, i: Id)
    requires i in s.targets && s.targets[i].release.Some? && s.targets[i].release.value.Notify?
    ensures Quiet(s, ReleaseStep(s, i), i)
  {
    hide Quiet, Send;
    var m := Close(i, s.targets[i].release.value.reason);
    var s1 := Send(s, m);
    SI.SendFrame(s, m);
    CloseIsSent(s, m);
    WriteQuiet(s, m, i);
    ReportedQuiet(s1, i, s.targets[i].(release := None, closeAt := NextAt(s)));
    ThenQuiet(s, s1, ReleaseStep(s, i), i);
  }

  lemma CloseIsSent(s: Server, m: Down)
    requires m.Close?
    ensures s.link.Healthy? ==> m.id in Send(s, m).endAt
  {
  }

  /** A close that was sent is no longer owed. */
  lemma ReportedQuiet(s: Server, i: Id, t: Target)
    requires i in s.targets && (s.link.Healthy? ==> i in s.endAt)
    requires t == s.targets[i].(release := t.release, closeAt := t.closeAt)
    ensures Quiet(s, Set(s, i, t), i)
  {
  }

  lemma FlagQuiet(s: Server, j: Id)
    ensures Quiet(s, RaiseStopped(s), j) && Quiet(s, RaiseClosed(s), j)
  {
  }

  lemma ClearQuiet(s: Server, j: Id)
    requires s.closed
    ensures Quiet(s, ClearAll(s), j)
  {
  }

  lemma LinkQuiet(s: Server, link: Link, j: Id)
    requires !link.Healthy?
    ensures Quiet(s, s.(link := link), j)
  {
  }

  lemma TargetQuiet(s: Server, i: Id, bytes: Bytes, j: Id)
    requires i in s.targets && !s.targets[i].peerClosed
    ensures Quiet(s, TargetSend(s, i, bytes), j)
  {
  }

  lemma TargetEndQuiet(s: Server, i: Id, j: Id)
    requires i in s.targets
    ensures Quiet(s, TargetEnd(s, i), j)
  {
  }

  lemma TakeQuiet(s: Server, i: Id, n: nat, j: Id)
    requires i in s.targets && |s.targets[i].read| + n <= |s.targets[i].produced|
    ensures Quiet(s, ReaderTake(s, i, n), j)
  {
  }

  lemma ReaderExitQuiet(s: Server, i: Id, j: Id)
    requires i in s.targets
    ensures Quiet(s, ReaderExit(s, i), j)
  {
  }

  lemma ForwardQuiet(s: Server, i: Id, j: Id)
    requires i in s.targets && s.targets[i].reader.Holding? && s.live <= s.targets.Keys && s.link.Healthy?
    ensures Quiet(s, ReaderSend(s, i), j)
  {
  }

  lemma ReaderEndQuiet(s: Server, i: Id, reason: string, notify: bool, j: Id)
    requires i in s.targets && s.live <= s.targets.Keys && (notify || !s.link.Healthy?)
    ensures Quiet(s, BeginClose(Set(s, i, s.targets[i].(reader := Done)), i, reason, notify), j)
  {
    hide Quiet;
    ReaderExitQuiet(s, i, j);
    CloseQuiet(ReaderExit(s, i), i, reason, notify, j);
    ThenQuiet(s, ReaderExit(s, i), BeginClose(ReaderExit(s, i), i, reason, notify), j);
  }

  // ----- the server handles a message ---------------------------------------------------------------------

  /** The read loop takes the next upstream message; a target accepts the first `taken` bytes of a data frame. */
  function HandleUp(s: Server, m: Up, taken: nat): Server
    requires s.live <= s.targets.Keys && (m.UpData? ==> taken <= |m.payload|)
  {
    match m
    case Connect(i, host, port) => ConnectCheck(s, i, host, port)
    case UpData(i, payload) => HandleData(s, i, payload, taken)
    case HalfClose(i) => HandleHalfClose(s, i)
    case UpClose(i) => HandleClose(s, i)
  }

  function ServerRead(z: Conn, taken: nat): Conn
    requires z.upRead < |z.c.up| && z.s.live <= z.s.targets.Keys
    requires z.c.up[z.upRead].UpData? ==> taken <= |z.c.up[z.upRead].payload|
  {
    z.(s := HandleUp(z.s, z.c.up[z.upRead], taken), upRead := z.upRead + 1)
  }

  lemma UpHandledSnoc(up: seq<Up>, n: nat, i: Id)
    requires n < |up|
    ensures CI.UpPayload(up[..n + 1], i)
         == CI.UpPayload(up[..n], i) + if CI.IsData(up[n], i) then up[n].payload else []
  {
    assert up[..n + 1] == up[..n] + [up[n]];
    CI.UpSnoc(up[..n], up[n], i);
  }

  lemma CheckOtherQuiet(s: Server, i: Id, host: string, port: nat, j: Id)
    requires i != j && s.handler.Idle?
    ensures Quiet(s, ConnectCheck(s, i, host, port), j)
  {
    hide Quiet, Send;
    RefusedOtherQuiet(s, Error(i, "duplicate sessionId"), j);
    RefusedOtherQuiet(s, Error(i, "per-connection session limit reached"), j);
    FrameQuiet(s, s, j);
    FrameQuiet(s, s.(handler := Checked(i, host, port)), j);
  }

  lemma RefusedOtherQuiet(s: Server, m: Down, j: Id)
    requires m.id != j
    ensures Quiet(s, Send(s, m), j)
  {
    hide Quiet;
    FrameQuiet(s, Send(s, m), j);
  }

  lemma DataOtherQuiet(s: Server, i: Id, payload: Bytes, taken: nat, j: Id)
    requires s.live <= s.targets.Keys && taken <= |payload| && i != j
    ensures Quiet(s, HandleData(s, i, payload, taken), j)
  {
    hide Quiet, BeginClose;
    FrameQuiet(s, s, j);
    if !s.closed && i in s.live {
      var s1 := Set(s, i, s.targets[i].(written := s.targets[i].written + payload[..taken]));
      FrameQuiet(s, s1, j);
      CloseQuiet(s1, i, "target write failed", true, j);
      ThenQuiet(s, s1, BeginClose(s1, i, "target write failed", true), j);
    }
  }

  lemma EndOtherQuiet(s: Server, i: Id, j: Id)
    requires s.live <= s.targets.Keys && i != j
    ensures Quiet(s, HandleHalfClose(s, i), j) && Quiet(s, HandleClose(s, i), j)
  {
    hide Quiet;
    FrameQuiet(s, HandleHalfClose(s, i), j);
    FrameQuiet(s, HandleClose(s, i), j);
  }

  /** Handling a message of another session looks quiet. */
  lemma ReadOtherQuiet(s: Server, m: Up, taken: nat, j: Id)
    requires s.live <= s.targets.Keys && (m.UpData? ==> taken <= |m.payload|) && m.id != j && s.handler.Idle?
    ensures Quiet(s, HandleUp(s, m, taken), j)
  {
    hide Quiet, ConnectCheck, HandleData, HandleHalfClose, HandleClose;
    match m
    case Connect(i, host, port) => CheckOtherQuiet(s, i, host, port, j);
    case UpData(i, payload) => DataOtherQuiet(s, i, payload, taken, j);
    case HalfClose(i) => EndOtherQuiet(s, i, j);
    case UpClose(i) => EndOtherQuiet(s, i, j);
  }

  lemma ReadOther(z: Conn, s': Server, j: Id)
    requires CrossOk(z, j) && Quiet(z.s, s', j) && z.upRead < |z.c.up| && z.c.up[z.upRead].id != j && CI.MarksOk(z.c, j)
    ensures CrossOk(z.(s := s', upRead := z.upRead + 1), j)
  {
    hide CI.UpPayload, SI.DownPayload, Delivered, StageOf, Upload, Quiet;
    QuietCross(z, s', j);
    var z1 := z.(s := s');
    UpHandledSnoc(z.c.up, z.upRead, j);
    assert UplinkOk(z1.(upRead := z.upRead + 1), j);
  }

  /** No data of a session precedes its connect. */
  lemma NoEarlyData(c: Client, i: Id)
    requires CI.Inv(c) && i in c.sess
    ensures c.sess[i].openAt < |c.up| && CI.UpPayload(c.up[..c.sess[i].openAt + 1], i) == []
  {
    CI.InvSession(c, i);
    var n := c.sess[i].openAt + 1;
    forall k | 0 <= k < n ensures !CI.IsData(c.up[..n][k], i) { assert CI.UpOk(c, k); }
    CI.UpTail(c.up[..n], 0, i);
  }

  lemma UpOkAt(c: Client, k: nat)
    requires CI.Inv(c) && k < |c.up|
    ensures CI.UpOk(c, k)
  {
  }

  lemma ConnectFacts(z: Conn, i: Id, host: string, port: nat)
    requires CrossOk(z, i) && z.upRead < |z.c.up| && z.c.up[z.upRead] == Connect(i, host, port) && CI.Inv(z.c)
    ensures !Known(z.s, i) && z.c.sess[i].openAt == z.upRead
    ensures z.c.sess[i].closeAt.Some? ==> z.c.sess[i].closeAt.value > z.upRead
    ensures CI.UpPayload(z.c.up[..z.upRead + 1], i) == []
  {
    hide CI.UpPayload, SI.DownPayload, Delivered, StageOf, Upload, CI.Inv, DownlinkOk, AgreeOk;
    UpOkAt(z.c, z.upRead);
    CI.InvSession(z.c, i);
    NoEarlyData(z.c, i);
  }

  lemma ReadConnect(z: Conn, i: Id, host: string, port: nat)
    requires CrossOk(z, i) && z.upRead < |z.c.up| && z.c.up[z.upRead] == Connect(i, host, port)
    requires CI.Inv(z.c) && SI.PlaceOk(z.s, i) && z.s.handler.Idle?
    ensures !Known(z.s, i)
    ensures CrossOk(z.(s := ConnectCheck(z.s, i, host, port), upRead := z.upRead + 1), i)
  {
    hide CI.UpPayload, SI.DownPayload, Delivered, StageOf, Upload, CI.Inv;
    ConnectFacts(z, i, host, port);
    var s' := ConnectCheck(z.s, i, host, port);
    assert s'.down[..z.downRead] == z.s.down[..z.downRead];
    assert Written(s', i) == [] && (Alive(s', i) || Due(s', i) || z.s.closed || !z.s.link.Healthy?);
  }

  /** A half-close finds its session's socket connected. */
  lemma HalfCloseLands(z: Conn, i: Id)
    requires CrossOk(z, i) && z.upRead < |z.c.up| && z.c.up[z.upRead] == HalfClose(i)
    requires CI.UpOk(z.c, z.upRead) && CI.SessionOk(z.c, i) && SI.LocalOk(z.s, i) && i in z.s.live
    ensures i in z.s.targets && z.s.targets[i].socket.Live?
  {
    hide CI.UpPayload, SI.DownPayload, Delivered, StageOf, Upload;
  }

  /** While a session can receive data its socket is connected and its upstream open. */
  lemma DataLands(z: Conn, i: Id)
    requires CrossOk(z, i) && z.upRead < |z.c.up| && z.c.up[z.upRead].UpData? && z.c.up[z.upRead].id == i
    requires CI.UpOk(z.c, z.upRead) && SI.LocalOk(z.s, i) && i in z.s.live
    ensures i in z.s.targets && z.s.targets[i].socket.Live? && !z.s.targets[i].uplinkClosed && !z.s.targets[i].finSent
  {
    hide CI.UpPayload, SI.DownPayload, Delivered, StageOf, Upload;
  }

  /** Bytes of a data frame reach the socket: all of them, unless the session is ending. */
  lemma WrittenUplink(z: Conn, i: Id, payload: Bytes, taken: nat)
    requires UplinkOk(z, i) && z.upRead < |z.c.up| && z.c.up[z.upRead] == UpData(i, payload) && taken <= |payload|
    requires CI.UpOk(z.c, z.upRead) && i in z.s.targets && !z.s.targets[i].finSent
    requires Written(z.s, i) == CI.UpPayload(z.c.up[..z.upRead], i) && (taken < |payload| ==> !Alive(z.s, i))
    ensures var t := z.s.targets[i];
            UplinkOk(z.(s := Set(z.s, i, t.(written := t.written + payload[..taken])), upRead := z.upRead + 1), i)
  {
    hide CI.UpPayload, Upload;
    UpHandledSnoc(z.c.up, z.upRead, i);
    assert payload[..taken] <= payload && (taken == |payload| ==> payload[..taken] == payload);
  }

  lemma WrittenDownlink(z: Conn, i: Id, bytes: Bytes)
    requires DownlinkOk(z, i) && AgreeOk(z, i) && i in z.s.targets && (Known(z.s, i) ==> z.c.sess[i].openAt < z.upRead)
    ensures var t := z.s.targets[i];
            var z' := z.(s := Set(z.s, i, t.(written := t.written + bytes)), upRead := z.upRead + 1);
            DownlinkOk(z', i) && AgreeOk(z', i)
  {
    hide SI.DownPayload, Delivered, StageOf, TargetClosed;
  }

  lemma DataDropped(z: Conn, i: Id, payload: Bytes)
    requires CrossOk(z, i) && z.upRead < |z.c.up| && z.c.up[z.upRead] == UpData(i, payload) && CI.UpOk(z.c, z.upRead)
    requires !Alive(z.s, i) || z.s.closed
    ensures CrossOk(z.(upRead := z.upRead + 1), i)
  {
    hide CI.UpPayload, SI.DownPayload, Delivered, StageOf, Upload, TargetClosed;
    UpHandledSnoc(z.c.up, z.upRead, i);
  }

  /** Ending a session before or after its record of written bytes is extended comes to the same. */
  lemma CloseThenWrite(s: Server, i: Id, bytes: Bytes, reason: string)
    requires s.live <= s.targets.Keys && i in s.live
    ensures var s1 := BeginClose(s, i, reason, true);
            && i in s1.targets && s1.targets[i] == s.targets[i].(release := s1.targets[i].release)
            && i !in s1.live && s1.handler == s.handler
            && BeginClose(Set(s, i, s.targets[i].(written := s.targets[i].written + bytes)), i, reason, true)
            == Set(s1, i, s1.targets[i].(written := s1.targets[i].written + bytes))
  {
  }

  lemma DataIs(s: Server, i: Id, payload: Bytes, taken: nat)
    requires s.live <= s.targets.Keys && taken <= |payload| && !s.closed && i in s.live
    requires s.targets[i].socket.Live? && !s.targets[i].uplinkClosed
    ensures var s1 := if taken < |payload| then BeginClose(s, i, "target write failed", true) else s;
            i in s1.targets && s1.targets[i].written == s.targets[i].written && s1.targets[i].finSent == s.targets[i].finSent
            && HandleData(s, i, payload, taken)
            == Set(s1, i, s1.targets[i].(written := s1.targets[i].written + payload[..taken]))
            && (taken < |payload| ==> i !in s1.live) && s1.handler == s.handler
  {
    hide BeginClose;
    CloseThenWrite(s, i, payload[..taken], "target write failed");
  }

  lemma StillHandled(z: Conn, i: Id)
    requires UplinkOk(z, i) && Alive(z.s, i) && !z.s.closed && i in z.s.targets
    ensures z.c.sess[i].openAt < z.upRead && z.s.targets[i].written == CI.UpPayload(z.c.up[..z.upRead], i)
  {
    hide CI.UpPayload, Upload;
  }

  lemma ReadData(z: Conn, i: Id, payload: Bytes, taken: nat)
    requires CrossOk(z, i) && z.upRead < |z.c.up| && z.c.up[z.upRead] == UpData(i, payload) && taken <= |payload|
    requires z.s.live <= z.s.targets.Keys && z.s.handler.Idle?
    requires CI.UpOk(z.c, z.upRead)
    requires i in z.s.live ==> i in z.s.targets && z.s.targets[i].socket.Live? && !z.s.targets[i].uplinkClosed
                               && !z.s.targets[i].finSent
    ensures CrossOk(z.(s := HandleData(z.s, i, payload, taken), upRead := z.upRead + 1), i)
  {
    hide CrossOk, Quiet, BeginClose, HandleData, UplinkOk, DownlinkOk, AgreeOk;
    if z.s.closed || i !in z.s.live {
      DataIgnored(z.s, i, payload, taken);
      DataDropped(z, i, payload);
    } else {
      var s1 := if taken < |payload| then BeginClose(z.s, i, "target write failed", true) else z.s;
      DataIs(z.s, i, payload, taken);
      CrossParts(z, i);
      StillHandled(z, i);
      if taken < |payload| {
        CloseQuiet(z.s, i, "target write failed", true, i);
        QuietCross(z, s1, i);
      }
      DataLandsAt(z.(s := s1), i, payload, taken);
    }
  }

  lemma CrossParts(z: Conn, i: Id)
    requires CrossOk(z, i)
    ensures UplinkOk(z, i) && DownlinkOk(z, i) && AgreeOk(z, i)
  {
    hide UplinkOk, DownlinkOk, AgreeOk;
  }

  lemma DataIgnored(s: Server, i: Id, payload: Bytes, taken: nat)
    requires s.live <= s.targets.Keys && taken <= |payload| && (s.closed || i !in s.live)
    ensures HandleData(s, i, payload, taken) == s
  {
    hide BeginClose;
  }

  lemma DataLandsAt(z: Conn, i: Id, payload: Bytes, taken: nat)
    requires CrossOk(z, i) && z.upRead < |z.c.up| && z.c.up[z.upRead] == UpData(i, payload) && taken <= |payload|
    requires CI.UpOk(z.c, z.upRead) && i in z.s.targets && !z.s.targets[i].finSent && z.c.sess[i].openAt < z.upRead
    requires z.s.targets[i].written == CI.UpPayload(z.c.up[..z.upRead], i)
    requires taken < |payload| ==> i !in z.s.live && z.s.handler.Idle?
    ensures var t := z.s.targets[i];
            CrossOk(z.(s := Set(z.s, i, t.(written := t.written + payload[..taken])), upRead := z.upRead + 1), i)
  {
    hide UplinkOk, DownlinkOk, AgreeOk, CI.UpOk, Known;
    WrittenUplink(z, i, payload, taken);
    WrittenDownlink(z, i, payload[..taken]);
  }

  /** The half-close of a session stands after all its data. */
  lemma AllUploaded(z: Conn, i: Id)
    requires CI.Inv(z.c) && z.upRead < |z.c.up| && z.c.up[z.upRead] == HalfClose(i)
    ensures i in z.c.sess && CI.UpPayload(z.c.up[..z.upRead], i) == Upload(z.c.sess[i])
  {
    assert CI.UpOk(z.c, z.upRead);
    CI.InvSession(z.c, i);
    forall k | z.upRead <= k < |z.c.up| ensures !CI.IsData(z.c.up[k], i) { assert CI.UpOk(z.c, k); }
    CI.UpTail(z.c.up, z.upRead, i);
  }

  lemma ReadHalfClose(z: Conn, i: Id)
    requires CrossOk(z, i) && z.upRead < |z.c.up| && z.c.up[z.upRead] == HalfClose(i)
    requires z.s.live <= z.s.targets.Keys && z.s.handler.Idle? && CI.UpOk(z.c, z.upRead) && CI.MarksOk(z.c, i)
    requires CI.UpPayload(z.c.up[..z.upRead], i) == Upload(z.c.sess[i])
    requires i in z.s.live ==> i in z.s.targets && z.s.targets[i].socket.Live?
    ensures CrossOk(z.(s := HandleHalfClose(z.s, i), upRead := z.upRead + 1), i)
  {
    hide CI.UpPayload, SI.DownPayload, Delivered, StageOf, Upload;
    UpHandledSnoc(z.c.up, z.upRead, i);
  }

  lemma ClosedAfterClose(c: Client, i: Id)
    requires i in c.sess && CI.SessionOk(c, i)
    ensures c.sess[i].closeAt.Some? ==> c.sess[i].closed
  {
    hide CI.UpPayload, Flat;
  }

  lemma CloseUplink(z: Conn, i: Id, reason: string)
    requires UplinkOk(z, i) && z.upRead < |z.c.up| && z.c.up[z.upRead] == UpClose(i)
    requires z.s.live <= z.s.targets.Keys && z.s.handler.Idle? && CI.UpOk(z.c, z.upRead)
    ensures UplinkOk(z.(s := BeginClose(z.s, i, reason, false), upRead := z.upRead + 1), i)
  {
    hide CI.UpPayload, Upload;
    UpHandledSnoc(z.c.up, z.upRead, i);
  }

  lemma CloseDownlink(z: Conn, i: Id, reason: string)
    requires DownlinkOk(z, i) && AgreeOk(z, i) && z.s.live <= z.s.targets.Keys && z.c.sess[i].closed
    ensures var z' := z.(s := BeginClose(z.s, i, reason, false), upRead := z.upRead + 1);
            DownlinkOk(z', i) && AgreeOk(z', i)
  {
    hide SI.DownPayload, Delivered, StageOf, TargetClosed;
  }

  lemma ReadClose(z: Conn, i: Id)
    requires CrossOk(z, i) && z.upRead < |z.c.up| && z.c.up[z.upRead] == UpClose(i)
    requires z.s.live <= z.s.targets.Keys && z.s.handler.Idle? && CI.UpOk(z.c, z.upRead) && CI.SessionOk(z.c, i)
    ensures CrossOk(z.(s := HandleClose(z.s, i), upRead := z.upRead + 1), i)
  {
    hide UplinkOk, DownlinkOk, AgreeOk, CI.SessionOk, BeginClose;
    ClosedAfterClose(z.c, i);
    CloseUplink(z, i, "client closed");
    CloseDownlink(z, i, "client closed");
  }

  lemma ReadOne(z: Conn, taken: nat, j: Id)
    requires Inv(z) && z.upRead < |z.c.up| && z.s.handler.Idle? && z.s.live <= z.s.targets.Keys && j in z.c.sess
    requires z.c.up[z.upRead].UpData? ==> taken <= |z.c.up[z.upRead].payload|
    ensures CrossOk(ServerRead(z, taken), j)
  {
    Look(z, j);
    ReadFacts(z, j);
    hide *;
    var m := z.c.up[z.upRead];
    var s' := HandleUp(z.s, m, taken);
    assert ServerRead(z, taken) == z.(s := s', upRead := z.upRead + 1) by { ServerReadIs(z, taken); }
    HandleUpIs(z.s, m, taken);
    if m.id != j {
      ReadOtherQuiet(z.s, m, taken, j);
      ReadOther(z, s', j);
    } else {
      match m
      case Connect(_, host, port) => ReadConnect(z, j, host, port);
      case UpData(_, payload) => ReadData(z, j, payload, taken);
      case HalfClose(_) =>
        AllUploaded(z, j);
        ReadHalfClose(z, j);
      case UpClose(_) => ReadClose(z, j);
    }
  }

  lemma ServerReadIs(z: Conn, taken: nat)
    requires z.upRead < |z.c.up| && z.s.live <= z.s.targets.Keys
    requires z.c.up[z.upRead].UpData? ==> taken <= |z.c.up[z.upRead].payload|
    ensures ServerRead(z, taken) == z.(s := HandleUp(z.s, z.c.up[z.upRead], taken), upRead := z.upRead + 1)
  {
  }

  lemma HandleUpIs(s: Server, m: Up, taken: nat)
    requires s.live <= s.targets.Keys && (m.UpData? ==> taken <= |m.payload|)
    ensures m.Connect? ==> HandleUp(s, m, taken) == ConnectCheck(s, m.id, m.host, m.port)
    ensures m.UpData? ==> HandleUp(s, m, taken) == HandleData(s, m.id, m.payload, taken)
    ensures m.HalfClose? ==> HandleUp(s, m, taken) == HandleHalfClose(s, m.id)
    ensures m.UpClose? ==> HandleUp(s, m, taken) == HandleClose(s, m.id)
  {
  }

  /** What the invariant says about the next upstream message. */
  lemma ReadFacts(z: Conn, j: Id)
    requires Inv(z) && z.upRead < |z.c.up| && j in z.c.sess
    ensures CI.MarksOk(z.c, j) && CI.UpOk(z.c, z.upRead)
    ensures z.c.up[z.upRead].UpData? && z.c.up[z.upRead].id == j && j in z.s.live ==>
              j in z.s.targets && z.s.targets[j].socket.Live? && !z.s.targets[j].uplinkClosed && !z.s.targets[j].finSent
    ensures z.c.up[z.upRead] == HalfClose(j) && j in z.s.live ==> j in z.s.targets && z.s.targets[j].socket.Live?
  {
    hide CI.Inv, SI.Inv, Inv, CI.UpOk, CrossOk, SI.LocalOk, CI.SessionOk;
    Look(z, j);
    UpOkAt(z.c, z.upRead);
    CI.InvSession(z.c, j);
    MarksOf(z.c, j);
    if z.c.up[z.upRead].id == j && j in z.s.live {
      if z.c.up[z.upRead].UpData? { DataLands(z, j); }
      if z.c.up[z.upRead].HalfClose? { HalfCloseLands(z, j); }
    }
  }

  lemma MarksOf(c: Client, i: Id)
    requires i in c.sess && CI.SessionOk(c, i)
    ensures CI.MarksOk(c, i)
  {
  }

  lemma ReadAppends(s: Server, m: Up, taken: nat)
    requires s.live <= s.targets.Keys && (m.UpData? ==> taken <= |m.payload|)
    ensures s.down <= HandleUp(s, m, taken).down
  {
    hide Send;
    if m.Connect? {
      SI.SendFrame(s, Error(m.id, "duplicate sessionId"));
      SI.SendFrame(s, Error(m.id, "per-connection session limit reached"));
    }
  }

  lemma ReadServer(z: Conn, taken: nat)
    requires Inv(z) && z.upRead < |z.c.up| && z.s.handler.Idle? && z.s.live <= z.s.targets.Keys
    requires z.c.up[z.upRead].UpData? ==> taken <= |z.c.up[z.upRead].payload|
    ensures SI.Inv(HandleUp(z.s, z.c.up[z.upRead], taken))
    ensures forall j: Id :: Known(HandleUp(z.s, z.c.up[z.upRead], taken), j) ==> j in z.c.sess
  {
    var m := z.c.up[z.upRead];
    var i := m.id;
    assert CI.UpOk(z.c, z.upRead) && i in z.c.sess;
    Look(z, i);
    match m {
      case Connect(_, host, port) =>
        ReadConnect(z, i, host, port);
        SI.CheckKeeps(z.s, i, host, port);
      case UpData(_, payload) => SI.DataKeeps(z.s, i, payload, taken);
      case HalfClose(_) => SI.HalfCloseKeeps(z.s, i);
      case UpClose(_) => SI.CloseKeeps(z.s, i, "client closed", false);
    }
    var s' := HandleUp(z.s, m, taken);
    hide SI.Inv, CI.Inv, CrossOk, HandleUp;
    forall j: Id ensures Known(s', j) ==> j in z.c.sess {
      if j != i {
        ReadOtherQuiet(z.s, m, taken, j);
      }
    }
  }

  lemma ReadKeeps(z: Conn, taken: nat)
    requires Inv(z) && z.upRead < |z.c.up| && z.s.handler.Idle? && z.s.live <= z.s.targets.Keys
    requires z.c.up[z.upRead].UpData? ==> taken <= |z.c.up[z.upRead].payload|
    ensures Inv(ServerRead(z, taken))
  {
    hide CrossOk, CI.Inv, SI.Inv, HandleUp, Known;
    Parts(z);
    ReadServer(z, taken);
    ReadAppends(z.s, z.c.up[z.upRead], taken);
    var z' := ServerRead(z, taken);
    forall j | j in z.c.sess ensures CrossOk(z', j) { ReadOne(z, taken, j); }
    Whole(z');
  }
}
