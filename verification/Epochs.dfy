/**
 * The tunnel's life over many WSS connections.  A session object survives the connection it was opened on, because its
 * proxy thread still holds it, and every call it makes goes through the tunnel's current `ws_` and `sessions_`.
 */
module Epochs {
  import opened Common
  import opened MuxClient
  import opened MuxCross
  import opened Mux
  import CI = MuxClientInv
  import opened Tunnel

  /** `past` are the connections that are over, `now` the one `ws_` refers to. */
  datatype World = World(
    past: seq<Conn>, now: Option<Conn>, ready: bool, disconnected: bool, notices: seq<Notice>)

  datatype Event =
    | Publish
    | Within(a: Action)
    | FromOld(e: nat, a: Action)
    | Fails(reason: string)
    | Retire(reason: string)

  /** What a proxy thread does with its session. */
  predicate OfProxy(a: Action) {
    a.PumpReads? || a.PumpEnds? || a.PumpStops? || a.ProxyExits?
  }

  /** The tunnel as a session of connection `e` finds it: its own record, but the current link, map and stream. */
  function Seen(w: World, e: nat): Client
    requires e < |w.past|
  {
    match w.now
    case None => Client(Shut, {}, w.past[e].c.sess, [])
    case Some(z) => Client(z.c.link, z.c.live, w.past[e].c.sess, z.c.up)
  }

  /** Opening a session needs a tunnel that is ready; ending a connection goes through `onDisconnected`. */
  predicate Possible(w: World, ev: Event) {
    match ev
    case Publish => w.now.None? && (w.disconnected || w.notices == [])
    case Within(a) => w.now.Some? && Enabled(w.now.value, a) && (a.OpenStep? ==> w.ready) && !a.ClientDown?
    case FromOld(e, a) => e < |w.past| && OfProxy(a) && ClientEnabled(w.past[e].c, a)
    case Fails(_) => true
    case Retire(_) => w.now.Some?
  }

  /** `onDisconnected` */
  function Disconnect(w: World, reason: string): World {
    if w.disconnected then w
    else
      World(w.past, if w.now.None? then None else Some(Step(w.now.value, ClientDown(reason))),
            false, true, w.notices + [DownNotice(reason)])
  }

  function Next(maxSessions: nat, w: World, ev: Event): World
    requires Possible(w, ev)
  {
    match ev
    case Publish => World(w.past, Some(Start(maxSessions)), true, false, w.notices + [ReadyNotice])
    case Within(a) => w.(now := Some(Step(w.now.value, a)))
    case FromOld(e, a) =>
      var c' := ClientStep(Seen(w, e), a);
      var old' := w.past[e].(c := w.past[e].c.(sess := c'.sess));
      w.(past := w.past[e := old'],
         now := if w.now.None? then None
                else Some(w.now.value.(c := w.now.value.c.(link := c'.link, live := c'.live, up := c'.up))))
    case Fails(reason) => Disconnect(w, reason)
    case Retire(reason) =>
      var w' := Disconnect(w, reason);
      w'.(past := w'.past + [w'.now.value], now := None)
  }

  function Life(maxSessions: nat, events: seq<Event>): World {
    if events == [] then World([], None, false, false, [])
    else
      var w, ev := Life(maxSessions, events[..|events| - 1]), events[|events| - 1];
      if Possible(w, ev) then Next(maxSessions, w, ev) else w
  }

  // ----- every connection is a run of its own ------------------------------------------------

  ghost predicate Reached(maxSessions: nat, z: Conn) {
    exists actions: seq<Action> :: z == Run(maxSessions, actions)
  }

  predicate AllClosed(c: Client) {
    c.live == {} && forall i | i in c.sess :: c.sess[i].closed
  }

  ghost predicate Holds(maxSessions: nat, w: World) {
    && (w.now.Some? ==> Reached(maxSessions, w.now.value))
    && (w.now.Some? && w.disconnected ==> AllClosed(w.now.value.c) && w.now.value.c.link.Shut?)
    && (forall e | 0 <= e < |w.past| :: Reached(maxSessions, w.past[e]) && AllClosed(w.past[e].c))
    && (w.disconnected ==> w.notices != [] && w.notices[|w.notices| - 1].DownNotice?)
    && (w.ready ==> !w.disconnected)
    && (w.now.None? && w.notices != [] ==> w.disconnected)
    && (w.now.Some? && !w.disconnected ==> w.notices != [] && w.notices[|w.notices| - 1].ReadyNotice?)
    && Alternates(w.notices)
  }

  lemma ReachedStep(maxSessions: nat, z: Conn, a: Action)
    requires Reached(maxSessions, z)
    ensures Reached(maxSessions, Step(z, a))
  {
    hide Step;
    var actions: seq<Action> :| z == Run(maxSessions, actions);
    assert (actions + [a])[..|actions|] == actions;
    assert Step(z, a) == Run(maxSessions, actions + [a]);
  }

  lemma ReachedStart(maxSessions: nat)
    ensures Reached(maxSessions, Start(maxSessions))
  {
    assert Run(maxSessions, []) == Start(maxSessions);
  }

  lemma ReachedHolds(maxSessions: nat, z: Conn)
    requires Reached(maxSessions, z)
    ensures Inv(z) && Shaped(z)
  {
    hide Run, Inv;
    var actions: seq<Action> :| z == Run(maxSessions, actions);
    RunHolds(maxSessions, actions);
    Parts(z);
  }

  // ----- a closed session is silent -------------------------------------------------------------

  /** What a proxy's step makes of its own closed session; nothing else changes. */
  function Silent(t: Session, a: Action): Session
    requires OfProxy(a)
  {
    match a
    case PumpReads(_, chunk) =>
      if t.ready then t.(uploaded := t.uploaded + chunk, pumpDone := true)
      else t.(uploaded := t.uploaded + chunk, pending := t.pending + [chunk])
    case PumpEnds(_) => if t.ready then t.(pumpDone := true) else t.(pumpDone := true, halfPending := true)
    case PumpStops(_) => t.(pumpDone := true)
    case ProxyExits(_) => t.(proxyClosed := true)
  }

  lemma ClosedIsSilent(c: Client, a: Action)
    requires OfProxy(a) && ClientEnabled(c, a) && c.sess[a.id].closed
    ensures ClientStep(c, a) == c.(sess := c.sess[a.id := Silent(c.sess[a.id], a)])
    ensures Silent(c.sess[a.id], a).closed && Silent(c.sess[a.id], a).calls == c.sess[a.id].calls
  {
    match a
    case PumpReads(i, chunk) =>
    case PumpEnds(i) =>
    case PumpStops(i) =>
    case ProxyExits(i) =>
      assert c.sess[i].proxyClosed ==> c.sess[i := Silent(c.sess[i], a)] == c.sess;
  }

  /** Once every session is closed and the link is shut, a connection's client stays so. */
  lemma StaysClosed(z: Conn, a: Action)
    requires AllClosed(z.c) && z.c.link.Shut? && !a.ClientDown?
    ensures AllClosed(Step(z, a).c) && Step(z, a).c.link.Shut?
  {
    if Enabled(z, a) && ClientEnabled(z.c, a) && OfProxy(a) { ClosedIsSilent(z.c, a); }
    hide HandlerStep, ManagerStep, ReaderStep, HandleUp;
  }

  lemma DownCloses(z: Conn, reason: string)
    requires Inv(z) && Shaped(z)
    ensures AllClosed(Step(z, ClientDown(reason)).c) && Step(z, ClientDown(reason)).c.link.Shut?
  {
    forall i | i in z.c.sess ensures i in z.c.live || z.c.sess[i].closed { CI.LiveIsOpen(z.c, i); }
  }

  // ----- every event keeps the facts ----------------------------------------------------------------

  /** A closed session's step through the tunnel as it is now changes only that session's own record. */
  lemma OldNow(maxSessions: nat, w: World, e: nat, a: Action)
    requires Possible(w, FromOld(e, a)) && w.past[e].c.sess[a.id].closed
    ensures var w' := Next(maxSessions, w, FromOld(e, a));
            var c := w.past[e].c;
            && w'.now == w.now
            && w'.past == w.past[e := w.past[e].(c := c.(sess := c.sess[a.id := Silent(c.sess[a.id], a)]))]
            && Silent(c.sess[a.id], a).closed
  {
    hide ClientStep, Start, Step, Disconnect;
    ClosedIsSilent(Seen(w, e), a);
  }

  lemma OldPast(z: Conn, a: Action)
    requires Shaped(z) && OfProxy(a) && ClientEnabled(z.c, a) && z.c.sess[a.id].closed
    ensures Step(z, a) == z.(c := z.c.(sess := z.c.sess[a.id := Silent(z.c.sess[a.id], a)]))
  {
    hide ClientStep;
    ClosedIsSilent(z.c, a);
  }

  lemma OldStep(maxSessions: nat, w: World, e: nat, a: Action)
    requires Holds(maxSessions, w) && Possible(w, FromOld(e, a))
    ensures var w' := Next(maxSessions, w, FromOld(e, a));
            && w'.now == w.now && w'.past == w.past[e := Step(w.past[e], a)]
            && AllClosed(w'.past[e].c)
  {
    hide ClientStep, Inv, Next, Step, Silent, Reached;
    ReachedHolds(maxSessions, w.past[e]);
    OldNow(maxSessions, w, e, a);
    OldPast(w.past[e], a);
  }

  lemma FailsKeeps(maxSessions: nat, w: World, reason: string)
    requires Holds(maxSessions, w)
    ensures Holds(maxSessions, Disconnect(w, reason)) && Disconnect(w, reason).disconnected
  {
    hide Step, Reached, AllClosed;
    if !w.disconnected && w.now.Some? {
      ReachedHolds(maxSessions, w.now.value);
      DownCloses(w.now.value, reason);
      ReachedStep(maxSessions, w.now.value, ClientDown(reason));
    }
  }

  lemma WithinKeeps(maxSessions: nat, w: World, a: Action)
    requires Holds(maxSessions, w) && Possible(w, Within(a))
    ensures Holds(maxSessions, Next(maxSessions, w, Within(a)))
  {
    hide Step, Reached, AllClosed;
    ReachedStep(maxSessions, w.now.value, a);
    if w.disconnected { StaysClosed(w.now.value, a); }
  }

  lemma NextKeeps(maxSessions: nat, w: World, ev: Event)
    requires Holds(maxSessions, w) && Possible(w, ev)
    ensures Holds(maxSessions, Next(maxSessions, w, ev))
  {
    hide Step, Reached, AllClosed, Start;
    match ev
    case Publish => ReachedStart(maxSessions);
    case Within(a) => WithinKeeps(maxSessions, w, a);
    case FromOld(e, a) =>
      OldStep(maxSessions, w, e, a);
      ReachedStep(maxSessions, w.past[e], a);
    case Fails(reason) => FailsKeeps(maxSessions, w, reason);
    case Retire(reason) => FailsKeeps(maxSessions, w, reason);
  }

  lemma {:induction false} LifeHolds(maxSessions: nat, events: seq<Event>)
    ensures Holds(maxSessions, Life(maxSessions, events))
  {
    if events != [] {
      var w, ev := Life(maxSessions, events[..|events| - 1]), events[|events| - 1];
      LifeHolds(maxSessions, events[..|events| - 1]);
      hide Next, Holds;
      if Possible(w, ev) { NextKeeps(maxSessions, w, ev); }
    }
  }

  // ----- the promises -----------------------------------------------------------------------------------

  /** No session of an earlier connection changes anything on the current one: no frame, no entry of the map. */
  lemma OldSessionsAreSilent(maxSessions: nat, events: seq<Event>, e: nat, a: Action)
    ensures Life(maxSessions, events + [FromOld(e, a)]).now == Life(maxSessions, events).now
  {
    LifeHolds(maxSessions, events);
    assert (events + [FromOld(e, a)])[..|events|] == events;
    hide Next, Holds;
    if Possible(Life(maxSessions, events), FromOld(e, a)) { OldStep(maxSessions, Life(maxSessions, events), e, a); }
  }

  /** Every connection, over or current, is a run of its own: all that is proved of runs holds of it. */
  lemma EveryConnectionIsARun(maxSessions: nat, events: seq<Event>, e: nat)
    ensures var w := Life(maxSessions, events);
            && (w.now.Some? ==> Reached(maxSessions, w.now.value))
            && (e < |w.past| ==> Reached(maxSessions, w.past[e]) && AllClosed(w.past[e].c))
  {
    LifeHolds(maxSessions, events);
  }

  /** `onDown` fires at most once between two calls of `onReady`. */
  lemma OneDownPerReady(maxSessions: nat, events: seq<Event>, j: nat, k: nat)
    ensures var notices := Life(maxSessions, events).notices;
            j < k < |notices| && notices[j].DownNotice? && notices[k].DownNotice? ==>
              exists m :: j < m < k && notices[m].ReadyNotice?
  {
    LifeHolds(maxSessions, events);
    var notices := Life(maxSessions, events).notices;
    if j < k < |notices| && notices[j].DownNotice? && notices[k].DownNotice? {
      assert notices[k].DownNotice? != notices[k - 1].DownNotice?;
      assert j < k - 1 < k && notices[k - 1].ReadyNotice?;
    }
  }
}
