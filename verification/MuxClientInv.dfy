/** What every step of the client keeps: an invariant of `MuxClient.Client`. */
module MuxClientInv {
  import opened Common
  import opened MuxClient

  // ----- payloads -------------------------------------------------------------------

  predicate IsData(m: Up, i: Id) {
    m.UpData? && m.id == i
  }

  /** The bytes of session `i` in a stretch of upstream. */
  function UpPayload(up: seq<Up>, i: Id): Bytes {
    if up == [] then []
    else
      var front, last := up[..|up| - 1], up[|up| - 1];
      UpPayload(front, i) + if IsData(last, i) then last.payload else []
  }

  lemma UpSnoc(up: seq<Up>, m: Up, i: Id)
    ensures UpPayload(up + [m], i) == UpPayload(up, i) + if IsData(m, i) then m.payload else []
  {
    assert (up + [m])[..|up|] == up;
  }

  /** Stretches without data for a session do not change its bytes. */
  lemma {:induction false} UpTail(up: seq<Up>, n: nat, i: Id)
    requires n <= |up| && forall k | n <= k < |up| :: !IsData(up[k], i)
    ensures UpPayload(up, i) == UpPayload(up[..n], i)
  {
    if n < |up| {
      UpTail(up[..|up| - 1], n, i);
      assert up[..|up| - 1][..n] == up[..n];
    } else {
      assert up[..n] == up;
    }
  }

  function Datas(i: Id, chunks: seq<Bytes>): (ms: seq<Up>)
    ensures |ms| == |chunks| && forall k | 0 <= k < |ms| :: ms[k] == UpData(i, chunks[k])
  {
    seq(|chunks|, k requires 0 <= k < |chunks| => UpData(i, chunks[k]))
  }

  lemma MoreDatas(up: seq<Up>, i: Id, chunks: seq<Bytes>)
    requires chunks != []
    ensures up + Datas(i, chunks) == up + [UpData(i, chunks[0])] + Datas(i, chunks[1..])
  {
  }

  lemma {:induction false} UpDatas(up: seq<Up>, i: Id, chunks: seq<Bytes>, j: Id)
    ensures UpPayload(up + Datas(i, chunks), j) == UpPayload(up, j) + if i == j then Flat(chunks) else []
    decreases |chunks|
  {
    hide UpPayload;
    if chunks == [] {
      assert up + Datas(i, chunks) == up;
    } else {
      UpDatas(up + [UpData(i, chunks[0])], i, chunks[1..], j);
      MoreDatas(up, i, chunks);
      UpSnoc(up, UpData(i, chunks[0]), j);
    }
  }

  lemma FlatFirst(chunks: seq<Bytes>)
    requires chunks != []
    ensures Flat(chunks) == chunks[0] + Flat(chunks[1..])
  {
  }

  lemma NoChunks()
    ensures Flat([]) == []
  {
  }

  lemma {:induction false} FlatConcat(a: seq<Bytes>, b: seq<Bytes>)
    ensures Flat(a + b) == Flat(a) + Flat(b)
  {
    hide Flat;
    if a == [] {
      NoChunks();
      assert a + b == b && [] + Flat(b) == Flat(b);
    } else {
      FlatConcat(a[1..], b);
      assert (a + b)[1..] == a[1..] + b && (a + b)[0] == a[0];
      FlatFirst(a + b);
      FlatFirst(a);
      ConcatAssoc(a[0], Flat(a[1..]), Flat(b));
    }
  }

  lemma FlatOne(chunk: Bytes)
    ensures Flat([chunk]) == chunk
  {
    assert [chunk][1..] == [];
  }

  // ----- the invariant -----------------------------------------------------------------

  /** What one message already written says about the session it belongs to. */
  ghost predicate UpOk(c: Client, k: nat)
    requires k < |c.up|
  {
    var m := c.up[k];
    m.id in c.sess &&
    var t := c.sess[m.id];
    && t.openAt <= k
    && (t.closeAt.Some? ==> k <= t.closeAt.value)
    && match m
       case Connect(_, _, _) => t.openAt == k
       case UpData(_, _) =>
         t.openAt < k && t.ready && (t.halfAt.Some? ==> k < t.halfAt.value) && (t.closeAt.Some? ==> k < t.closeAt.value)
       case HalfClose(_) => t.halfAt == Some(k)
       case UpClose(_) => t.closeAt == Some(k)
  }

  /** The marks a session keeps of its own control messages are right. */
  ghost predicate MarksOk(c: Client, i: Id)
    requires i in c.sess
  {
    var t := c.sess[i];
    && t.openAt < |c.up| && c.up[t.openAt] == Connect(i, t.host, t.port)
    && (t.halfAt.Some? ==> t.openAt < t.halfAt.value < |c.up| && c.up[t.halfAt.value] == HalfClose(i))
    && (t.closeAt.Some? ==> t.openAt < t.closeAt.value < |c.up| && c.up[t.closeAt.value] == UpClose(i))
  }

  /** Flags of the session and of the proxy agree. */
  ghost predicate FlagsOk(c: Client, i: Id)
    requires i in c.sess
  {
    var t := c.sess[i];
    && (i in c.live <==> !t.closed)
    && (t.closed <==> t.state == Closed)
    && (t.closed ==> t.proxyClosed)
    && (t.state == Open ==> t.ready)
    && (t.state == Connecting ==> !t.ready)
    && (t.uplinkClosed ==> t.pumpDone && t.ready)
    && (t.halfPending ==> t.pumpDone)
    && (t.halfAt.Some? ==> t.uplinkClosed)
    && (t.closeAt.Some? ==> t.closed)
  }

  /** Where the uploaded bytes are: written upstream, or waiting in the proxy until the tunnel is ready. */
  ghost predicate BytesOk(c: Client, i: Id)
    requires i in c.sess
  {
    var t := c.sess[i];
    && UpPayload(c.up, i) <= Upload(t)
    && (t.ready ==> t.pending == [])
    && (!t.ready ==> UpPayload(c.up, i) == [] && Flat(t.head + t.pending) == Upload(t))
    && (t.ready && !t.closed && c.link.Healthy? ==> UpPayload(c.up, i) == Upload(t))
    && (t.halfAt.Some? ==> UpPayload(c.up, i) == Upload(t))
    && (t.uplinkClosed && !t.closed && c.link.Healthy? ==> t.halfAt.Some?)
  }

  ghost predicate SessionOk(c: Client, i: Id)
    requires i in c.sess
  {
    MarksOk(c, i) && FlagsOk(c, i) && BytesOk(c, i)
  }

  ghost predicate Inv(c: Client) {
    && c.live <= c.sess.Keys
    && (forall k | 0 <= k < |c.up| :: UpOk(c, k))
    && (forall i | i in c.sess :: SessionOk(c, i))
  }

  // ----- steps keep it --------------------------------------------------------------------

  /** A mark is set at most once, and only to a place not written before. */
  predicate MarkGrows(before: Option<nat>, after: Option<nat>, written: nat) {
    after == before || (before.None? && after.Some? && after.value >= written)
  }

  /** A step of one session: it may write its own messages and change its own record, and nothing else. */
  ghost predicate OwnStep(c: Client, c': Client, i: Id) {
    && i in c.sess && c'.sess.Keys == c.sess.Keys
    && (forall j | j in c.sess && j != i :: c'.sess[j] == c.sess[j] && (j in c'.live <==> j in c.live))
    && c'.live <= c.sess.Keys
    && c.up <= c'.up
    && (forall k | |c.up| <= k < |c'.up| :: c'.up[k].id == i)
    && (c'.link.Healthy? ==> c.link.Healthy?)
    && var t, t' := c.sess[i], c'.sess[i];
       && t'.openAt == t.openAt
       && (t.ready ==> t'.ready)
       && MarkGrows(t.halfAt, t'.halfAt, |c.up|)
       && MarkGrows(t.closeAt, t'.closeAt, |c.up|)
  }

  lemma OtherPayload(c: Client, c': Client, i: Id, j: Id)
    requires OwnStep(c, c', i) && i != j
    ensures UpPayload(c'.up, j) == UpPayload(c.up, j)
  {
    UpTail(c'.up, |c.up|, j);
    assert c'.up[..|c.up|] == c.up;
  }

  /** For a session's own step it is enough to look at that session and at what it wrote. */
  lemma OwnStepKeeps(c: Client, c': Client, i: Id)
    requires Inv(c) && OwnStep(c, c', i)
    requires SessionOk(c', i) && forall k | |c.up| <= k < |c'.up| :: UpOk(c', k)
    ensures Inv(c')
  {
    forall j | j in c'.sess && j != i ensures SessionOk(c', j) {
      assert SessionOk(c, j);
      OtherPayload(c, c', i, j);
      OldMarks(c, c', i, j);
    }
    forall k | 0 <= k < |c.up| ensures UpOk(c', k) {
      assert UpOk(c, k);
      assert c'.up[k] == c.up[k];
    }
  }

  lemma OldMarks(c: Client, c': Client, i: Id, j: Id)
    requires OwnStep(c, c', i) && j in c.sess && j != i && MarksOk(c, j)
    ensures MarksOk(c', j)
  {
    assert forall k | 0 <= k < |c.up| :: c'.up[k] == c.up[k];
  }

  // ----- what a step does to its own session, as the other end can tell ------------------------

  /** The session is as before, or this step closed it locally; when the link held, the server was told. */
  ghost predicate StaysOrCloses(c: Client, c': Client, i: Id)
    requires i in c.sess && i in c'.sess
  {
    var t, t' := c.sess[i], c'.sess[i];
    || (t'.closed == t.closed && t'.state == t.state && t'.calls == t.calls && t'.closeAt == t.closeAt)
    || (&& !t.closed && t'.closed
        && (exists cause: Cause :: !cause.ServerClose? && t'.calls == t.calls + [OnClose(cause)])
        && (c'.link.Healthy? ==> t'.closeAt.Some?))
  }

  predicate SameRecord(t: Session, t': Session) {
    && t'.closed == t.closed && t'.state == t.state && t'.calls == t.calls && t'.closeAt == t.closeAt
    && t'.pumpDone == t.pumpDone
  }

  /** A step of the proxy or of the tunnel's own API. */
  ghost predicate LocalStep(c: Client, c': Client, i: Id) {
    && OwnStep(c, c', i)
    && SessionOk(c', i)
    && (forall k | |c.up| <= k < |c'.up| :: UpOk(c', k))
    && StaysOrCloses(c, c', i)
    && var t, t' := c.sess[i], c'.sess[i];
       t'.ready == t.ready && (t.pumpDone ==> t'.pumpDone && Upload(t') == Upload(t))
  }

  lemma LocalStepKeeps(c: Client, c': Client, i: Id)
    requires Inv(c) && LocalStep(c, c', i)
    ensures Inv(c')
  {
    OwnStepKeeps(c, c', i);
  }

  /** Closing a session that is open. */
  lemma CloseOwn(c: Client, i: Id, cause: Cause, notify: bool)
    requires i in c.sess && SessionOk(c, i) && c.live <= c.sess.Keys && !c.sess[i].closed
    requires c.link.Healthy? ==> notify
    ensures var c' := CloseSession(c, i, cause, notify); OwnStep(c, c', i) && SessionOk(c', i)
  {
    hide UpPayload, Flat;
    UpSnoc(c.up, UpClose(i), i);
  }

  lemma CloseShows(c: Client, i: Id, cause: Cause, notify: bool)
    requires i in c.sess && SessionOk(c, i) && !c.sess[i].closed
    requires !cause.ServerClose? && (c.link.Healthy? ==> notify)
    ensures var c' := CloseSession(c, i, cause, notify);
            && StaysOrCloses(c, c', i) && (forall k | |c.up| <= k < |c'.up| :: UpOk(c', k))
            && c'.sess[i].ready == c.sess[i].ready && c'.sess[i].pumpDone == c.sess[i].pumpDone
            && Upload(c'.sess[i]) == Upload(c.sess[i])
  {
    hide UpPayload, Flat, BytesOk;
    assert CloseSession(c, i, cause, notify).sess[i].calls == c.sess[i].calls + [OnClose(cause)];
  }

  lemma CloseLocal(c: Client, i: Id, cause: Cause, notify: bool)
    requires i in c.sess && SessionOk(c, i) && c.live <= c.sess.Keys
    requires !cause.ServerClose? && (c.link.Healthy? ==> notify)
    ensures LocalStep(c, CloseSession(c, i, cause, notify), i)
  {
    hide SessionOk, UpOk, OwnStep, StaysOrCloses, Upload;
    if c.sess[i].closed {
      StaysLocal(c, i);
    } else {
      CloseOwn(c, i, cause, notify);
      CloseShows(c, i, cause, notify);
    }
  }

  lemma PushEndSends(c: Client, i: Id)
    requires i in c.sess && SessionOk(c, i) && c.live <= c.sess.Keys && c.sess[i].pumpDone && c.sess[i].ready
    requires !c.sess[i].closed && !c.sess[i].uplinkClosed && c.link.Healthy?
    ensures LocalStep(c, PushEnd(c, i), i) && SameRecord(c.sess[i], PushEnd(c, i).sess[i])
  {
    hide UpPayload, Flat;
    UpSnoc(c.up, HalfClose(i), i);
  }

  lemma PushEndSilent(c: Client, i: Id)
    requires i in c.sess && SessionOk(c, i) && c.live <= c.sess.Keys && c.sess[i].pumpDone && c.sess[i].ready
    requires c.sess[i].closed || c.sess[i].uplinkClosed || !c.link.Healthy?
    ensures LocalStep(c, PushEnd(c, i), i) && SameRecord(c.sess[i], PushEnd(c, i).sess[i])
  {
    hide UpPayload, Flat;
  }

  lemma PushEndLocal(c: Client, i: Id)
    requires i in c.sess && SessionOk(c, i) && c.live <= c.sess.Keys && c.sess[i].pumpDone && c.sess[i].ready
    ensures LocalStep(c, PushEnd(c, i), i) && SameRecord(c.sess[i], PushEnd(c, i).sess[i])
    ensures PushEnd(c, i).link == c.link
  {
    hide SessionOk, LocalStep, SameRecord;
    if !c.sess[i].closed && !c.sess[i].uplinkClosed && c.link.Healthy? {
      PushEndSends(c, i);
    } else {
      PushEndSilent(c, i);
    }
  }

  /** A chunk read before the tunnel is ready waits in the proxy. */
  lemma PumpWaits(c: Client, i: Id, chunk: Bytes)
    requires i in c.sess && SessionOk(c, i) && c.live <= c.sess.Keys && !c.sess[i].pumpDone && !c.sess[i].ready
    ensures LocalStep(c, PumpRead(c, i, chunk), i)
  {
    hide UpPayload, Flat;
    var t := c.sess[i];
    FlatConcat(t.head + t.pending, [chunk]);
    FlatOne(chunk);
    ConcatAssoc(t.head, t.pending, [chunk]);
    ConcatAssoc(Flat(t.head), t.uploaded, chunk);
  }

  /** A chunk read on a session that can send goes upstream. */
  lemma PumpSends(c: Client, i: Id, chunk: Bytes)
    requires i in c.sess && SessionOk(c, i) && c.live <= c.sess.Keys && !c.sess[i].pumpDone && c.sess[i].ready
    requires !c.sess[i].closed && c.link.Healthy?
    ensures LocalStep(c, PumpRead(c, i, chunk), i)
  {
    hide UpPayload, Flat;
    var t := c.sess[i];
    UpSnoc(c.up, UpData(i, chunk), i);
    ConcatAssoc(Flat(t.head), t.uploaded, chunk);
  }

  /** A chunk read on a session that cannot send ends the pump. */
  lemma PumpFails(c: Client, i: Id, chunk: Bytes)
    requires i in c.sess && SessionOk(c, i) && c.live <= c.sess.Keys && !c.sess[i].pumpDone && c.sess[i].ready
    requires c.sess[i].closed || !c.link.Healthy?
    ensures LocalStep(c, PumpRead(c, i, chunk), i)
  {
    hide UpPayload, Flat;
    var t := c.sess[i];
    ConcatAssoc(Flat(t.head), t.uploaded, chunk);
    if !t.closed && c.link.Broken? {
      assert PumpRead(c, i, chunk).sess[i].calls == t.calls + [OnClose(SendFailed)];
    }
  }

  lemma PumpReadLocal(c: Client, i: Id, chunk: Bytes)
    requires i in c.sess && SessionOk(c, i) && c.live <= c.sess.Keys && !c.sess[i].pumpDone
    ensures LocalStep(c, PumpRead(c, i, chunk), i)
  {
    hide SessionOk, LocalStep, PumpRead;
    if !c.sess[i].ready {
      PumpWaits(c, i, chunk);
    } else if !c.sess[i].closed && c.link.Healthy? {
      PumpSends(c, i, chunk);
    } else {
      PumpFails(c, i, chunk);
    }
  }

  /** Marking the pump done first does not show in what a step does. */
  lemma PumpMarked(c: Client, c1: Client, c2: Client, i: Id)
    requires i in c.sess && !c.sess[i].pumpDone
    requires c1 == Update(c, i, c.sess[i].(pumpDone := true)) && LocalStep(c1, c2, i)
    ensures LocalStep(c, c2, i)
  {
    hide UpPayload, Flat, SessionOk, UpOk;
  }

  lemma PumpMarkedOk(c: Client, i: Id)
    requires i in c.sess && SessionOk(c, i)
    ensures SessionOk(Update(c, i, c.sess[i].(pumpDone := true)), i)
  {
    hide UpPayload, Flat;
  }

  lemma PumpEofWaits(c: Client, i: Id)
    requires i in c.sess && SessionOk(c, i) && c.live <= c.sess.Keys && !c.sess[i].pumpDone && !c.sess[i].ready
    ensures LocalStep(c, PumpEof(c, i), i)
  {
    hide UpPayload, Flat;
  }

  lemma PumpEofLocal(c: Client, i: Id)
    requires i in c.sess && SessionOk(c, i) && c.live <= c.sess.Keys && !c.sess[i].pumpDone
    ensures LocalStep(c, PumpEof(c, i), i)
  {
    hide SessionOk, LocalStep, PushEnd, UpPayload, Flat;
    if c.sess[i].ready {
      var c1 := Update(c, i, c.sess[i].(pumpDone := true));
      PumpMarkedOk(c, i);
      PushEndLocal(c1, i);
      PumpMarked(c, c1, PushEnd(c1, i), i);
    } else {
      PumpEofWaits(c, i);
    }
  }

  lemma PumpStopLocal(c: Client, i: Id)
    requires i in c.sess && SessionOk(c, i) && c.live <= c.sess.Keys
    ensures LocalStep(c, PumpStop(c, i), i)
  {
  }

  /** Marking the proxy closed does not show in what a step does. */
  lemma MarkedFirst(c: Client, c1: Client, c2: Client, i: Id)
    requires i in c.sess && c1 == Update(c, i, c.sess[i].(proxyClosed := true)) && LocalStep(c1, c2, i)
    ensures LocalStep(c, c2, i)
  {
    hide UpPayload, Flat, SessionOk, UpOk;
  }

  lemma MarkedOk(c: Client, i: Id)
    requires i in c.sess && SessionOk(c, i)
    ensures SessionOk(Update(c, i, c.sess[i].(proxyClosed := true)), i)
  {
    hide UpPayload, Flat;
  }

  lemma ExitIs(c: Client, i: Id)
    requires i in c.sess && SessionOk(c, i)
    ensures ProxyExit(c, i)
         == if c.sess[i].proxyClosed then c
            else CloseSession(Update(c, i, c.sess[i].(proxyClosed := true)), i, ClientClosed, true)
  {
    hide SessionOk, CloseSession;
  }

  lemma StaysLocal(c: Client, i: Id)
    requires i in c.sess && SessionOk(c, i) && c.live <= c.sess.Keys
    ensures LocalStep(c, c, i)
  {
    hide UpPayload, Flat, SessionOk;
  }

  lemma ProxyExitLocal(c: Client, i: Id)
    requires i in c.sess && SessionOk(c, i) && c.live <= c.sess.Keys
    ensures LocalStep(c, ProxyExit(c, i), i)
  {
    hide UpPayload, Flat, SessionOk, LocalStep, ProxyExit, CloseSession;
    ExitIs(c, i);
    if c.sess[i].proxyClosed {
      StaysLocal(c, i);
    } else {
      var c1 := Update(c, i, c.sess[i].(proxyClosed := true));
      MarkedOk(c, i);
      CloseLocal(c1, i, ClientClosed, true);
      MarkedFirst(c, c1, CloseSession(c1, i, ClientClosed, true), i);
    }
  }

  // ----- the opening of a session ------------------------------------------------------------------

  /** Sending a list of chunks is all or nothing: the link does not change while the callback runs. */
  lemma {:induction false} PushAllEffect(c: Client, i: Id, chunks: seq<Bytes>)
    requires i in c.sess
    ensures var t := c.sess[i];
            PushAll(c, i, chunks) ==
              if t.closed || t.uplinkClosed || c.link.Shut? || chunks == [] then c
              else if c.link.Healthy? then c.(up := c.up + Datas(i, chunks))
              else CloseSession(c, i, SendFailed, false)
    decreases |chunks|
  {
    if chunks != [] {
      PushAllEffect(Push(c, i, chunks[0]).0, i, chunks[1..]);
      assert c.up + Datas(i, chunks) == c.up + [UpData(i, chunks[0])] + Datas(i, chunks[1..]);
    }
  }

  /** The session opens; if the link had failed, sending what waited closes it at once. */
  ghost predicate OpeningStep(c: Client, c': Client, i: Id) {
    && OwnStep(c, c', i)
    && SessionOk(c', i)
    && (forall k | |c.up| <= k < |c'.up| :: UpOk(c', k))
    && var t, t' := c.sess[i], c'.sess[i];
       && t'.ready && t'.pumpDone == t.pumpDone && Upload(t') == Upload(t) && t'.closeAt == t.closeAt
       && (|| (!t'.closed && t'.state == Open && t'.calls == t.calls + [OnOpen])
           || (t'.closed && !c'.link.Healthy? && t'.calls == t.calls + [OnOpen, OnClose(SendFailed)]))
  }

  /** The record of a session whose `onOpen` is running. */
  function Opening(t: Session): Session {
    t.(state := Open, calls := t.calls + [OnOpen], ready := true)
  }

  /** The state after `onOpen` has sent what waited, before a waiting half-close. */
  function AfterFlush(c: Client, i: Id): (c': Client)
    requires i in c.sess
    ensures i in c'.sess
  {
    Flushed(c, i, Opening(c.sess[i]))
  }

  /** `AfterFlush`, spelled out. */
  lemma FlushedEffect(c: Client, i: Id)
    requires i in c.live && i in c.sess && !c.sess[i].closed && !c.sess[i].uplinkClosed
    ensures var t, c' := c.sess[i], AfterFlush(c, i);
            var waiting := t.head + t.pending;
            var started := Opening(t).(pending := []);
            if c.link.Broken? && waiting != [] then
              c' == c.(live := c.live - {i},
                       sess := c.sess[i := started.(closed := true, state := Closed, proxyClosed := true,
                                                    calls := t.calls + [OnOpen, OnClose(SendFailed)])])
            else
              c' == c.(sess := c.sess[i := started], up := if c.link.Healthy? then c.up + Datas(i, waiting) else c.up)
  {
    var t := c.sess[i];
    PushAllEffect(Update(c, i, Opening(t)), i, t.head + t.pending);
    assert t.calls + [OnOpen] + [OnClose(SendFailed)] == t.calls + [OnOpen, OnClose(SendFailed)];
    if t.head + t.pending == [] {
      assert c.up + Datas(i, []) == c.up;
    }
  }

  lemma FlushIsOwn(c: Client, i: Id)
    requires i in c.live && c.live <= c.sess.Keys && SessionOk(c, i) && c.sess[i].state == Connecting
    ensures OwnStep(c, AfterFlush(c, i), i)
    ensures forall k | |c.up| <= k < |AfterFlush(c, i).up| :: UpOk(AfterFlush(c, i), k)
  {
    hide UpPayload, Flat, AfterFlush, BytesOk;
    FlushedEffect(c, i);
  }

  lemma FlushMarks(c: Client, i: Id)
    requires i in c.live && c.live <= c.sess.Keys && SessionOk(c, i) && c.sess[i].state == Connecting
    ensures MarksOk(AfterFlush(c, i), i) && FlagsOk(AfterFlush(c, i), i)
  {
    hide UpPayload, Flat, AfterFlush, BytesOk;
    FlushedEffect(c, i);
  }

  lemma FlushBytes(c: Client, i: Id)
    requires i in c.live && c.live <= c.sess.Keys && SessionOk(c, i) && c.sess[i].state == Connecting
    ensures BytesOk(AfterFlush(c, i), i)
  {
    hide UpPayload, Flat, AfterFlush, MarksOk;
    var t := c.sess[i];
    FlushedEffect(c, i);
    UpDatas(c.up, i, t.head + t.pending, i);
    NoChunks();
  }

  lemma FlushOpens(c: Client, i: Id)
    requires i in c.live && c.live <= c.sess.Keys && SessionOk(c, i) && c.sess[i].state == Connecting
    ensures OpeningStep(c, AfterFlush(c, i), i)
    ensures var t, t' := c.sess[i], AfterFlush(c, i).sess[i];
            t'.halfPending == t.halfPending && t'.halfAt == t.halfAt && AfterFlush(c, i).live <= c.sess.Keys
  {
    hide UpPayload, Flat, AfterFlush, BytesOk, MarksOk, OwnStep, UpOk;
    FlushIsOwn(c, i);
    FlushMarks(c, i);
    FlushBytes(c, i);
    FlushedEffect(c, i);
  }

  lemma ThenLocal(c: Client, c1: Client, c2: Client, i: Id)
    requires OpeningStep(c, c1, i) && LocalStep(c1, c2, i) && SameRecord(c1.sess[i], c2.sess[i]) && c2.link == c1.link
    requires Inv(c2)
    requires c1.sess[i].halfAt == c.sess[i].halfAt && c1.sess[i].pumpDone
    ensures OpeningStep(c, c2, i)
  {
    hide UpPayload, Flat, MarksOk, BytesOk, FlagsOk;
    assert SessionOk(c2, i);
    assert OwnStep(c, c2, i);
  }

  lemma OpenedKeeps(c: Client, i: Id)
    requires Inv(c) && i in c.live && c.sess[i].state == Connecting
    ensures var c' := Receive(c, Connected(i)); Inv(c') && OpeningStep(c, c', i)
  {
    hide SessionOk, OwnStep, UpOk, UpPayload, Flat, PushEnd, PushAll;
    InvSession(c, i);
    var c1 := AfterFlush(c, i);
    FlushOpens(c, i);
    OwnStepKeeps(c, c1, i);
    if c1.sess[i].halfPending {
      HalfPendingReady(c1, i);
      PushEndLocal(c1, i);
      LocalStepKeeps(c1, PushEnd(c1, i), i);
      ThenLocal(c, c1, PushEnd(c1, i), i);
    }
    assert Receive(c, Connected(i)) == if c1.sess[i].halfPending then PushEnd(c1, i) else c1;
  }

  lemma InvSession(c: Client, i: Id)
    requires Inv(c) && i in c.sess
    ensures SessionOk(c, i)
  {
  }

  /** A session is in `sessions_` exactly when its `closed_` flag is down. */
  lemma LiveIsOpen(c: Client, i: Id)
    requires Inv(c) && i in c.sess
    ensures i in c.live <==> !c.sess[i].closed
  {
    InvSession(c, i);
  }

  lemma HalfPendingReady(c: Client, i: Id)
    requires Inv(c) && i in c.sess && c.sess[i].halfPending
    ensures SessionOk(c, i) && c.live <= c.sess.Keys && c.sess[i].pumpDone
  {
    assert SessionOk(c, i);
  }

  // ----- messages and the end of the link --------------------------------------------------------

  /** Data or the end of a session changes its record only. */
  lemma ReceiveRecord(c: Client, m: Down)
    requires m.id in c.live && c.live <= c.sess.Keys && SessionOk(c, m.id) && !m.Connected?
    ensures OwnStep(c, Receive(c, m), m.id) && SessionOk(Receive(c, m), m.id) && Receive(c, m).up == c.up
  {
    hide UpPayload, Flat, OwnStep, BytesOk;
    ReceiveOwn(c, m);
    ReceiveBytes(c, m);
  }

  lemma ReceiveOwn(c: Client, m: Down)
    requires m.id in c.live && c.live <= c.sess.Keys && !m.Connected?
    ensures OwnStep(c, Receive(c, m), m.id)
  {
  }

  lemma ReceiveBytes(c: Client, m: Down)
    requires m.id in c.live && c.live <= c.sess.Keys && BytesOk(c, m.id) && !m.Connected?
    ensures m.id in Receive(c, m).sess && BytesOk(Receive(c, m), m.id)
  {
    hide UpPayload, Flat;
  }

  lemma ReceiveKeeps(c: Client, m: Down)
    requires Inv(c)
    ensures Inv(Receive(c, m))
  {
    hide SessionOk, UpOk, OwnStep, ProxyOpened, Ended, OpeningStep;
    var i := m.id;
    if i in c.live {
      InvSession(c, i);
      if m.Connected? {
        if c.sess[i].state == Connecting { OpenedKeeps(c, i); }
      } else {
        ReceiveRecord(c, m);
        OwnStepKeeps(c, Receive(c, m), i);
      }
    }
  }

  lemma OpenOther(c: Client, i: Id, host: string, port: nat, head: seq<Bytes>, j: Id)
    requires c.link.Healthy? && i !in c.sess && j in c.sess && SessionOk(c, j)
    ensures SessionOk(OpenSession(c, i, host, port, head), j)
  {
    hide UpPayload, Flat;
    UpSnoc(c.up, Connect(i, host, port), j);
  }

  lemma OpenNew(c: Client, i: Id, host: string, port: nat, head: seq<Bytes>)
    requires Inv(c) && c.link.Healthy? && i !in c.sess
    ensures SessionOk(OpenSession(c, i, host, port, head), i)
  {
    forall k | 0 <= k < |c.up| ensures !IsData(c.up[k], i) { assert UpOk(c, k); }
    UpTail(c.up, 0, i);
    UpSnoc(c.up, Connect(i, host, port), i);
    assert head + [] == head;
  }

  lemma OpenKeeps(c: Client, i: Id, host: string, port: nat, head: seq<Bytes>)
    requires Inv(c) && i !in c.sess
    ensures Inv(OpenSession(c, i, host, port, head))
  {
    var c' := OpenSession(c, i, host, port, head);
    if c.link.Healthy? {
      OpenNew(c, i, host, port, head);
      forall j | j in c'.sess ensures SessionOk(c', j) {
        if j != i { OpenOther(c, i, host, port, head, j); }
      }
      forall k | 0 <= k < |c'.up| ensures UpOk(c', k) {
        if k < |c.up| { assert UpOk(c, k); }
      }
    }
  }

  lemma DisconnectedSession(c: Client, reason: string, i: Id)
    requires i in c.sess && SessionOk(c, i)
    ensures i in Disconnected(c, reason).sess && SessionOk(Disconnected(c, reason), i)
  {
    hide UpPayload, Flat;
  }

  lemma DisconnectedMessage(c: Client, reason: string, k: nat)
    requires k < |c.up| && UpOk(c, k)
    ensures k < |Disconnected(c, reason).up| && UpOk(Disconnected(c, reason), k)
  {
  }

  lemma DisconnectedKeeps(c: Client, reason: string)
    requires Inv(c)
    ensures Inv(Disconnected(c, reason))
  {
    hide SessionOk, UpOk;
    var c' := Disconnected(c, reason);
    forall i | i in c'.sess ensures SessionOk(c', i) { DisconnectedSession(c, reason, i); }
    forall k | 0 <= k < |c'.up| ensures UpOk(c', k) { DisconnectedMessage(c, reason, k); }
  }

  lemma LinkKeeps(c: Client, link: Link)
    requires Inv(c) && !link.Healthy?
    ensures Inv(c.(link := link))
  {
    var c' := c.(link := link);
    forall i | i in c'.sess ensures SessionOk(c', i) { InvSession(c, i); }
    forall k | 0 <= k < |c'.up| ensures UpOk(c', k) { assert UpOk(c, k); }
  }
}
