/** The server's count of live connections per address, and its pairing with the life of each connection. */
module IpCount {
  import opened Common
  import opened WsReceive
  import W = WsClose

  type Ip = string

  // ----- the counter ------------------------------------------------------------------------

  function CountOf(counts: map<Ip, int>, ip: Ip): int {
    if ip in counts then counts[ip] else 0
  }

  /** `g_perIpCount` holds positive counts only. */
  class PerIpCount {
    var counts: map<Ip, int>

    predicate Valid()
      reads this
    {
      forall ip | ip in counts :: counts[ip] > 0
    }

    constructor ()
      ensures Valid() && forall ip :: CountOf(counts, ip) == 0
    {
      counts := map[];
    }

    method IncIp(ip: Ip) returns (n: int)
      requires Valid()
      modifies this
      ensures Valid() && counts == Inc(old(counts), ip) && n == CountOf(counts, ip)
    {
      if ip !in counts { counts := counts[ip := 0]; }
      counts := counts[ip := counts[ip] + 1];
      n := counts[ip];
    }

    method DecIp(ip: Ip) returns (n: int)
      requires Valid()
      modifies this
      ensures Valid() && counts == Dec(old(counts), ip) && n == CountOf(counts, ip)
    {
      if ip !in counts { return 0; }
      counts := counts[ip := counts[ip] - 1];
      if counts[ip] <= 0 {
        counts := counts - {ip};
        return 0;
      }
      n := counts[ip];
    }

    method IpCount(ip: Ip) returns (n: int)
      ensures n == CountOf(counts, ip)
    {
      n := if ip in counts then counts[ip] else 0;
    }
  }

  function Inc(counts: map<Ip, int>, ip: Ip): map<Ip, int> {
    counts[ip := CountOf(counts, ip) + 1]
  }

  function Dec(counts: map<Ip, int>, ip: Ip): map<Ip, int> {
    if ip !in counts then counts
    else if counts[ip] <= 1 then counts - {ip}
    else counts[ip := counts[ip] - 1]
  }

  // ----- connections --------------------------------------------------------------------------

  /** `handleConnection`: accepted, counted, serving its WebSocket, or gone without having served. */
  datatype Connection =
    | Accepted(ip: Ip)
    | Counted(ip: Ip)
    | Serving(ip: Ip, ws: W.Ws)
    | Gone(ip: Ip)

  datatype Server = Server(counts: map<Ip, int>, conns: seq<Connection>)

  datatype Step =
    | Accept(ip: Ip)
    | Refuse(c: nat)
    | Count(c: nat)
    | Answer(c: nat, written: bool)
    | Socket(c: nat, step: W.Step)

  /** The server never calls `terminate`. */
  predicate Enabled(s: Server, a: Step) {
    match a
    case Accept(_) => true
    case Refuse(c) => c < |s.conns| && s.conns[c].Accepted?
    case Count(c) => c < |s.conns| && s.conns[c].Accepted?
    case Answer(c, _) => c < |s.conns| && s.conns[c].Counted?
    case Socket(c, step) =>
      c < |s.conns| && s.conns[c].Serving? && W.Enabled(s.conns[c].ws, step) && !step.TerminateCall?
  }

  /** One step; the close handler takes the connection off the count at the moment it fires. */
  function Do(s: Server, a: Step): Server
    requires Enabled(s, a)
  {
    match a
    case Accept(ip) => s.(conns := s.conns + [Accepted(ip)])
    case Refuse(c) => s.(conns := s.conns[c := Gone(s.conns[c].ip)])
    case Count(c) => Server(Inc(s.counts, s.conns[c].ip), s.conns[c := Counted(s.conns[c].ip)])
    case Answer(c, written) =>
      var ip := s.conns[c].ip;
      if written then s.(conns := s.conns[c := Serving(ip, W.Start())])
      else Server(Dec(s.counts, ip), s.conns[c := Gone(ip)])
    case Socket(c, step) =>
      var ip, ws := s.conns[c].ip, s.conns[c].ws;
      var ws' := W.Do(ws, step);
      Server(if ws'.fired > ws.fired then Dec(s.counts, ip) else s.counts, s.conns[c := Serving(ip, ws')])
  }

  function Run(steps: seq<Step>): Server {
    if steps == [] then Server(map[], [])
    else
      var s, a := Run(steps[..|steps| - 1]), steps[|steps| - 1];
      if Enabled(s, a) then Do(s, a) else s
  }

  /** Counted and not yet released. */
  predicate Holds(c: Connection, ip: Ip) {
    c.ip == ip && (c.Counted? || (c.Serving? && c.ws.fired == 0))
  }

  function Holding(conns: seq<Connection>, ip: Ip): nat {
    if conns == [] then 0
    else Holding(conns[..|conns| - 1], ip) + if Holds(conns[|conns| - 1], ip) then 1 else 0
  }

  ghost predicate Inv(s: Server) {
    && (forall ip | ip in s.counts :: s.counts[ip] > 0)
    && (forall ip: Ip :: CountOf(s.counts, ip) == Holding(s.conns, ip))
    && (forall c | 0 <= c < |s.conns| && s.conns[c].Serving? ::
          W.Inv(s.conns[c].ws) && s.conns[c].ws.terminating == 0)
  }

  lemma HoldingSnoc(conns: seq<Connection>, c: Connection, ip: Ip)
    ensures Holding(conns + [c], ip) == Holding(conns, ip) + if Holds(c, ip) then 1 else 0
  {
    assert (conns + [c])[..|conns|] == conns;
  }

  lemma {:induction false} HoldingUpdate(conns: seq<Connection>, c: nat, v: Connection, ip: Ip)
    requires c < |conns|
    ensures Holding(conns[c := v], ip)
         == Holding(conns, ip) - (if Holds(conns[c], ip) then 1 else 0) + (if Holds(v, ip) then 1 else 0)
    decreases |conns|
  {
    var front, last := conns[..|conns| - 1], conns[|conns| - 1];
    if c == |conns| - 1 {
      assert conns[c := v][..|conns| - 1] == front;
    } else {
      HoldingUpdate(front, c, v, ip);
      assert conns[c := v][..|conns| - 1] == front[c := v];
    }
  }

  lemma DecCount(counts: map<Ip, int>, ip: Ip, other: Ip)
    requires CountOf(counts, ip) > 0
    ensures CountOf(Dec(counts, ip), other) == CountOf(counts, other) - if ip == other then 1 else 0
  {
  }

  lemma SocketStep(ws: W.Ws, step: W.Step)
    requires W.Inv(ws) && ws.terminating == 0 && W.Enabled(ws, step) && !step.TerminateCall?
    ensures var ws' := W.Do(ws, step);
            W.Inv(ws') && ws'.terminating == 0 && ws.fired <= ws'.fired <= 1
  {
    W.DoKeeps(ws, step);
  }

  lemma {:induction false} HoldingPositive(conns: seq<Connection>, c: nat)
    requires c < |conns| && Holds(conns[c], conns[c].ip)
    ensures Holding(conns, conns[c].ip) > 0
    decreases |conns|
  {
    if c < |conns| - 1 { HoldingPositive(conns[..|conns| - 1], c); }
  }

  lemma DoKeeps(s: Server, a: Step)
    requires Inv(s) && Enabled(s, a)
    ensures Inv(Do(s, a))
  {
    var s' := Do(s, a);
    if a.Accept? {
      forall ip: Ip ensures CountOf(s'.counts, ip) == Holding(s'.conns, ip) { HoldingSnoc(s.conns, Accepted(a.ip), ip); }
    } else {
      var was := s.conns[a.c];
      if a.Socket? { SocketStep(was.ws, a.step); }
      if Holds(was, was.ip) { HoldingPositive(s.conns, a.c); }
      hide W.Inv, W.Do, W.Enabled;
      forall ip: Ip ensures CountOf(s'.counts, ip) == Holding(s'.conns, ip) {
        HoldingUpdate(s.conns, a.c, s'.conns[a.c], ip);
        if CountOf(s.counts, was.ip) > 0 { DecCount(s.counts, was.ip, ip); }
      }
    }
  }

  lemma {:induction false} RunKeeps(steps: seq<Step>)
    ensures Inv(Run(steps))
  {
    if steps != [] {
      RunKeeps(steps[..|steps| - 1]);
      var s, a := Run(steps[..|steps| - 1]), steps[|steps| - 1];
      if Enabled(s, a) { DoKeeps(s, a); }
    }
  }

  /** The count of an address is the number of its connections that were counted and have not yet closed. */
  lemma CountIsLive(steps: seq<Step>, ip: Ip)
    ensures CountOf(Run(steps).counts, ip) == Holding(Run(steps).conns, ip)
  {
    RunKeeps(steps);
  }

  predicate Over(c: Connection) {
    c.Gone? || (c.Serving? && c.ws.reader == W.Returned)
  }

  /** Once every connection is over, every address is off the books. */
  lemma NothingLeaks(steps: seq<Step>)
    requires forall c | c in Run(steps).conns :: Over(c)
    ensures Run(steps).counts == map[]
  {
    var s := Run(steps);
    RunKeeps(steps);
    forall ip: Ip ensures ip !in s.counts {
      NoneHeld(s.conns, ip);
      assert CountOf(s.counts, ip) == 0;
    }
  }

  lemma {:induction false} NoneHeld(conns: seq<Connection>, ip: Ip)
    requires forall k | 0 <= k < |conns| ::
               Over(conns[k]) && (conns[k].Serving? ==> W.Inv(conns[k].ws) && conns[k].ws.terminating == 0)
    ensures Holding(conns, ip) == 0
    decreases |conns|
  {
    if conns != [] { NoneHeld(conns[..|conns| - 1], ip); }
  }
}
