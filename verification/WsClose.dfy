/**
 * The closing of a WebSocket under concurrency: the read loop, callers of `close` and `terminate`, and senders, step
 * by step at each access to the shared state of src/common/websocket.cpp.
 */
module WsClose {
  import opened WsReceive

  datatype Kind = Data | Close | Ping

  /**
   * Where the read loop is: reading frames; inside `handleControl` for a Close frame after loading the state, or after
   * storing it; inside `failConnection` for a long frame, past the exchange; out of its loop; inside the last
   * `failConnection`; returned.
   */
  datatype Reader = Reading | SawOpen | Stored | FailingMid | Leaving | FailingEnd | Returned

  /** `closing` and `terminating` count the calls that are past their change of the state and not yet done. */
  datatype Ws = Ws(
    state: WsState, streamOpen: bool, reader: Reader, closing: nat, terminating: nat,
    sent: seq<Kind>, emitted: bool, fired: nat)

  datatype Step =
    | SendData
    | SendPing
    | CloseCall
    | CloseSend
    | TerminateCall
    | TerminateEmit
    | ReadClose
    | StoreClosing
    | ReplyClose
    | ReadTooLong
    | FailedMid
    | LeaveLoop
    | Finish
    | FailedEnd

  function Start(): Ws {
    Ws(Open, true, Reading, 0, 0, [], false, 0)
  }

  predicate Enabled(w: Ws, a: Step) {
    match a
    case SendData => w.state == Open
    case SendPing => true
    case CloseCall => w.state != Closed
    case CloseSend => w.closing > 0
    case TerminateCall => true
    case TerminateEmit => w.terminating > 0
    case ReadClose => w.reader == Reading
    case StoreClosing => w.reader == SawOpen
    case ReplyClose => w.reader == Stored
    case ReadTooLong => w.reader == Reading
    case FailedMid => w.reader == FailingMid
    case LeaveLoop => w.reader == Reading
    case Finish => w.reader == Leaving
    case FailedEnd => w.reader == FailingEnd
  }

  /** `sendFrame` past its check. */
  function Write(w: Ws, kind: Kind): Ws {
    if w.streamOpen then w.(sent := w.sent + [kind]) else w
  }

  /** `emitClose` */
  function Emit(w: Ws): Ws {
    if w.emitted then w else w.(emitted := true, fired := w.fired + 1)
  }

  function Do(w: Ws, a: Step): Ws
    requires Enabled(w, a)
  {
    match a
    case SendData => Write(w, Data)
    case SendPing => Write(w, Ping)
    case CloseCall => w.(state := if w.state == Open then Closing else w.state, closing := w.closing + 1)
    case CloseSend => Write(w, Close).(closing := w.closing - 1)
    case TerminateCall => w.(state := Closed, streamOpen := false, terminating := w.terminating + 1)
    case TerminateEmit => Emit(w).(terminating := w.terminating - 1)
    case ReadClose => w.(reader := if w.state == Open then SawOpen else Leaving)
    case StoreClosing => w.(state := Closing, reader := Stored)
    case ReplyClose => Write(w, Close).(reader := Leaving)
    case ReadTooLong =>
      if w.state == Closed then w.(reader := Leaving)
      else w.(state := Closed, streamOpen := false, reader := FailingMid)
    case FailedMid => Emit(w).(reader := Leaving)
    case LeaveLoop => w.(reader := Leaving)
    case Finish =>
      if w.state == Closed then w.(reader := Returned)
      else w.(state := Closed, streamOpen := false, reader := FailingEnd)
    case FailedEnd => Emit(w).(reader := Returned)
  }

  function Run(steps: seq<Step>): Ws {
    if steps == [] then Start()
    else
      var w, a := Run(steps[..|steps| - 1]), steps[|steps| - 1];
      if Enabled(w, a) then Do(w, a) else w
  }

  // ----- what always holds ----------------------------------------------------------------

  predicate CloseThenNoData(sent: seq<Kind>) {
    forall j, k | 0 <= j < k < |sent| :: sent[j] == Close ==> sent[k] != Data
  }

  predicate Inv(w: Ws) {
    && CloseThenNoData(w.sent)
    && (Close in w.sent || w.closing > 0 || w.reader == Stored ==> w.state != Open)
    && w.fired == (if w.emitted then 1 else 0)
    && (w.state == Closed ==> w.emitted || w.terminating > 0 || w.reader == FailingMid || w.reader == FailingEnd)
    && (w.reader == Returned ==> w.emitted || w.terminating > 0)
  }

  lemma WriteKeeps(w: Ws, kind: Kind)
    requires CloseThenNoData(w.sent) && (kind == Data ==> Close !in w.sent)
    ensures CloseThenNoData(Write(w, kind).sent)
  {
  }

  lemma DoKeeps(w: Ws, a: Step)
    requires Inv(w) && Enabled(w, a)
    ensures Inv(Do(w, a))
  {
    WriteKeeps(w, Ping);
    WriteKeeps(w, Close);
    if Close !in w.sent { WriteKeeps(w, Data); }
    hide CloseThenNoData;
  }

  lemma {:induction false} RunKeeps(steps: seq<Step>)
    ensures Inv(Run(steps))
  {
    if steps != [] {
      RunKeeps(steps[..|steps| - 1]);
      var w, a := Run(steps[..|steps| - 1]), steps[|steps| - 1];
      if Enabled(w, a) { DoKeeps(w, a); }
    }
  }

  /** No data frame is written after a Close frame, in any interleaving. */
  lemma NoDataAfterClose(steps: seq<Step>, j: nat, k: nat)
    ensures var sent := Run(steps).sent; j < k < |sent| && sent[j] == Close ==> sent[k] != Data
  {
    RunKeeps(steps);
  }

  /** The close handler never fires twice, and it has fired once the read loop has returned and no `terminate` runs. */
  lemma ClosedOnce(steps: seq<Step>)
    ensures var w := Run(steps);
            && w.fired <= 1
            && (w.reader == Returned && w.terminating == 0 ==> w.fired == 1)
            && (w.state == Closed && w.terminating == 0 && (w.reader == Reading || w.reader == Leaving) ==> w.fired == 1)
  {
    RunKeeps(steps);
  }

  // ----- the order of states --------------------------------------------------------------

  function Rank(s: WsState): nat {
    match s case Open => 0 case Closing => 1 case Closed => 2
  }

  /** A step moves the state back just when it is the read loop's store and meets a state closed since the load. */
  lemma StoreMovesBack(w: Ws, a: Step)
    requires Inv(w) && Enabled(w, a)
    ensures Rank(Do(w, a).state) < Rank(w.state) <==> a == StoreClosing && w.state == Closed
  {
    hide CloseThenNoData;
  }

  /** No `terminate` fell between the read loop's load and its store. */
  predicate Calm(steps: seq<Step>) {
    forall k | 0 <= k < |steps| :: steps[k] == TerminateCall ==> Run(steps[..k]).reader != SawOpen
  }

  lemma CalmSplits(steps: seq<Step>)
    requires steps != []
    ensures var front := steps[..|steps| - 1];
            Calm(steps) <==> Calm(front) && (steps[|steps| - 1] == TerminateCall ==> Run(front).reader != SawOpen)
  {
    var front := steps[..|steps| - 1];
    assert forall k | 0 <= k < |front| :: front[k] == steps[k] && front[..k] == steps[..k];
    if Calm(steps) {
      forall k | 0 <= k < |front| ensures front[k] == TerminateCall ==> Run(front[..k]).reader != SawOpen {
        assert steps[k] == front[k];
      }
    }
  }

  /**
   * The load is made once, so a read loop that is still reading has seen no `terminate` in between; and once one has
   * fallen in between, the state stays closed until the store.
   */
  lemma {:induction false} LoadIsStale(steps: seq<Step>)
    ensures Run(steps).reader == Reading ==> Calm(steps)
    ensures Run(steps).reader == SawOpen ==> (Run(steps).state == Closed <==> !Calm(steps))
  {
    if steps != [] {
      LoadIsStale(steps[..|steps| - 1]);
      CalmSplits(steps);
      hide Calm;
    }
  }

  /**
   * The state moves forward, except exactly when the read loop stores after a `terminate` that fell between its load
   * and its store.
   */
  lemma BackwardExactly(steps: seq<Step>, a: Step)
    requires Enabled(Run(steps), a)
    ensures Rank(Do(Run(steps), a).state) < Rank(Run(steps).state) <==> a == StoreClosing && !Calm(steps)
  {
    RunKeeps(steps);
    StoreMovesBack(Run(steps), a);
    LoadIsStale(steps);
    hide Calm, Inv;
  }

  /** The store does move a closed endpoint back when `terminate` falls between the read loop's load and its store. */
  lemma ClosedCanReopenToClosing()
    ensures Run([ReadClose, TerminateCall]).state == Closed
    ensures Run([ReadClose, TerminateCall, StoreClosing]).state == Closing
  {
    Unroll([], ReadClose);
    Unroll([ReadClose], TerminateCall);
    Unroll([ReadClose, TerminateCall], StoreClosing);
  }

  lemma Unroll(steps: seq<Step>, a: Step)
    ensures Run(steps + [a]) == if Enabled(Run(steps), a) then Do(Run(steps), a) else Run(steps)
    ensures [] + [ReadClose] == [ReadClose] && [ReadClose] + [TerminateCall] == [ReadClose, TerminateCall]
    ensures [ReadClose, TerminateCall] + [StoreClosing] == [ReadClose, TerminateCall, StoreClosing]
  {
    assert (steps + [a])[..|steps|] == steps;
  }
}
