/** The page's websocket: connecting, and scheduling another attempt on every close and every error. */
module Reconnect {

  const MAX_ATTEMPTS: nat := 10

  /** A socket fires at most one open, at most one error, and at most one close, after which it fires nothing. */
  datatype Socket = Socket(live: bool, errored: bool, closed: bool)

  /** `connects` counts calls of connectWebSocket, `opens` the open events; `forgiven` are the attempts that opens have
      struck off the counter. */
  datatype State = State(attempts: nat, timers: nat, sockets: seq<Socket>, connects: nat, opens: nat, forgiven: nat)

  datatype Event = Timer(throws: bool) | OnOpen(i: nat) | OnError(i: nat) | OnClose(i: nat)

  function Schedule(s: State): State {
    if s.attempts < MAX_ATTEMPTS then s.(attempts := s.attempts + 1, timers := s.timers + 1) else s
  }

  /** `throws`: the WebSocket constructor throws. */
  function Connect(s: State, throws: bool): State {
    var t := s.(connects := s.connects + 1);
    if throws then Schedule(t) else t.(sockets := t.sockets + [Socket(false, false, false)])
  }

  function Init(throws: bool): State { Connect(State(0, 0, [], 0, 0, 0), throws) }

  predicate Possible(s: State, e: Event) {
    match e
    case Timer(_) => s.timers > 0
    case OnOpen(i) => i < |s.sockets| && !s.sockets[i].live && !s.sockets[i].errored && !s.sockets[i].closed
    case OnError(i) => i < |s.sockets| && !s.sockets[i].errored && !s.sockets[i].closed
    case OnClose(i) => i < |s.sockets| && !s.sockets[i].closed
  }

  function Step(s: State, e: Event): State
    requires Possible(s, e)
  {
    match e
    case Timer(throws) => Connect(s.(timers := s.timers - 1), throws)
    case OnOpen(i) =>
      s.(sockets := s.sockets[i := s.sockets[i].(live := true)], opens := s.opens + 1,
         forgiven := s.forgiven + s.attempts, attempts := 0)
    case OnError(i) => Schedule(s.(sockets := s.sockets[i := s.sockets[i].(errored := true)]))
    case OnClose(i) => Schedule(s.(sockets := s.sockets[i := s.sockets[i].(closed := true)]))
  }

  /** A run: every event is possible when it comes. */
  predicate IsRun(s: State, es: seq<Event>)
    decreases |es|
  {
    es == [] || (Possible(s, es[0]) && IsRun(Step(s, es[0]), es[1..]))
  }

  function Run(s: State, es: seq<Event>): State
    requires IsRun(s, es)
    decreases |es|
  {
    if es == [] then s else Run(Step(s, es[0]), es[1..])
  }

  // ---- The object ----

  class App {
    var reconnectAttempts: nat
    var timers: nat
    var sockets: seq<Socket>
    ghost var connects: nat
    ghost var opens: nat
    ghost var forgiven: nat

    ghost function Abstract(): State
      reads this
    {
      State(reconnectAttempts, timers, sockets, connects, opens, forgiven)
    }

    constructor ()
      ensures Abstract() == State(0, 0, [], 0, 0, 0)
    {
      reconnectAttempts, timers, sockets, connects, opens, forgiven := 0, 0, [], 0, 0, 0;
    }

    method ScheduleReconnect()
      modifies `reconnectAttempts, `timers
      ensures Abstract() == Schedule(old(Abstract()))
    {
      if reconnectAttempts < MAX_ATTEMPTS {
        reconnectAttempts := reconnectAttempts + 1;
        timers := timers + 1;
      }
    }

    method ConnectWebSocket(throws: bool)
      modifies this
      ensures Abstract() == Connect(old(Abstract()), throws)
    {
      connects := connects + 1;
      if throws {
        ScheduleReconnect();
      } else {
        sockets := sockets + [Socket(false, false, false)];
      }
    }

    method Handle(e: Event)
      requires Possible(Abstract(), e)
      modifies this
      ensures Abstract() == Step(old(Abstract()), e)
    {
      match e
      case Timer(throws) =>
        timers := timers - 1;
        ConnectWebSocket(throws);
      case OnOpen(i) =>
        sockets := sockets[i := sockets[i].(live := true)];
        opens, forgiven := opens + 1, forgiven + reconnectAttempts;
        reconnectAttempts := 0;
      case OnError(i) =>
        sockets := sockets[i := sockets[i].(errored := true)];
        ScheduleReconnect();
      case OnClose(i) =>
        sockets := sockets[i := sockets[i].(closed := true)];
        ScheduleReconnect();
    }
  }

  // ---- Conservation ----

  /** Every connect call after the first, and every pending timer, was paid for by one counted attempt. */
  predicate Conserved(s: State) {
    s.connects + s.timers == 1 + s.attempts + s.forgiven && s.attempts <= MAX_ATTEMPTS &&
        s.forgiven <= MAX_ATTEMPTS * s.opens
  }

  lemma {:induction false} RunConserves(s: State, es: seq<Event>)
    requires Conserved(s) && IsRun(s, es)
    ensures Conserved(Run(s, es))
    decreases |es|
  {
    if es != [] {
      var t := Step(s, es[0]);
      assert MAX_ATTEMPTS * (s.opens + 1) == MAX_ATTEMPTS * s.opens + MAX_ATTEMPTS;
      RunConserves(t, es[1..]);
    }
  }

  /** In every run: connect calls plus pending timers are 1 plus the attempts counted since the last open plus
      those before, and so there are at most 11 connect calls, and 10 more for each open. */
  lemma ConnectsBounded(throws: bool, es: seq<Event>)
    requires IsRun(Init(throws), es)
    ensures var s := Run(Init(throws), es);
            s.connects + s.timers == 1 + s.attempts + s.forgiven && s.connects <= 11 + 10 * s.opens
  {
    RunConserves(Init(throws), es);
  }

  // ---- Termination without an open ----

  predicate NoOpen(es: seq<Event>) { forall k :: 0 <= k < |es| ==> !es[k].OnOpen? }

  /** Events that the socket can still fire, opens aside. */
  function Left(k: Socket): nat { if k.closed then 0 else if k.errored then 1 else 2 }

  function LeftAll(ks: seq<Socket>): nat {
    if ks == [] then 0 else LeftAll(ks[..|ks|-1]) + Left(ks[|ks|-1])
  }

  lemma {:induction false} LeftUpdate(ks: seq<Socket>, i: nat, k: Socket)
    requires i < |ks|
    ensures LeftAll(ks[i := k]) == LeftAll(ks) - Left(ks[i]) + Left(k)
  {
    var n := |ks| - 1;
    if i == n {
      assert ks[i := k][..n] == ks[..n];
    } else {
      assert ks[i := k][..n] == ks[..n][i := k];
      LeftUpdate(ks[..n], i, k);
    }
  }

  /** What is left to happen: an attempt may cost a scheduling event, a timer and two socket events. */
  function Potential(s: State): int {
    4 * (MAX_ATTEMPTS - s.attempts) + 3 * s.timers + LeftAll(s.sockets)
  }

  lemma StepUses(s: State, e: Event)
    requires Possible(s, e) && !e.OnOpen? && s.attempts <= MAX_ATTEMPTS
    ensures Potential(Step(s, e)) < Potential(s) && Step(s, e).attempts <= MAX_ATTEMPTS && Step(s, e).opens == s.opens
  {
    match e
    case Timer(throws) =>
      var ks := s.sockets + [Socket(false, false, false)];
      assert ks[..|ks|-1] == s.sockets;
    case OnError(i) => LeftUpdate(s.sockets, i, s.sockets[i].(errored := true));
    case OnClose(i) => LeftUpdate(s.sockets, i, s.sockets[i].(closed := true));
  }

  lemma {:induction false} RunUses(s: State, es: seq<Event>)
    requires IsRun(s, es) && NoOpen(es) && s.attempts <= MAX_ATTEMPTS
    ensures |es| <= Potential(s) - Potential(Run(s, es)) && Run(s, es).opens == s.opens &&
            Run(s, es).attempts <= MAX_ATTEMPTS
    decreases |es|
  {
    if es != [] {
      StepUses(s, es[0]);
      RunUses(Step(s, es[0]), es[1..]);
    }
  }

  /** A run without an open ends: it has at most 42 events and 11 connect calls, and what it leaves pending is
      counted. */
  lemma EndsWithoutOpen(throws: bool, es: seq<Event>)
    requires IsRun(Init(throws), es) && NoOpen(es)
    ensures var s := Run(Init(throws), es);
            |es| <= 42 && s.connects <= 11 && s.connects + s.timers == 1 + s.attempts
  {
    var s := Init(throws);
    assert [Socket(false, false, false)][..0] == [];
    assert s.sockets == if throws then [] else [Socket(false, false, false)];
    RunUses(s, es);
    RunConserves(s, es);
  }

  /** A socket that has fired nothing yet. */
  const NEW: Socket := Socket(false, false, false)

  /** From a state with a socket that is not closed, n more connect calls can follow while attempts last; behind
      the last one there is a new socket. */
  lemma {:induction false} MoreConnects(s: State, i: nat, n: nat) returns (es: seq<Event>)
    requires i < |s.sockets| && !s.sockets[i].closed && s.attempts + n <= MAX_ATTEMPTS
    ensures IsRun(s, es) && NoOpen(es) && Run(s, es).connects == s.connects + n && Run(s, es).opens == s.opens
    ensures n == 0 ==> es == []
    ensures n > 0 ==> Run(s, es).sockets != [] && Run(s, es).sockets[|Run(s, es).sockets|-1] == NEW
    decreases n
  {
    if n == 0 {
      es := [];
    } else {
      var a, b := OnClose(i), Timer(false);
      var t := Step(s, a);
      var u := Step(t, b);
      var rest := MoreConnects(u, |u.sockets| - 1, n - 1);
      var tail := [b] + rest;
      es := [a] + tail;
      assert es[1..] == tail && tail[1..] == rest;
      assert IsRun(t, tail) && Run(t, tail) == Run(u, rest);
      assert u.sockets[|u.sockets|-1] == NEW;
    }
  }

  lemma {:induction false} RunConcat(s: State, es: seq<Event>, fs: seq<Event>)
    requires IsRun(s, es) && IsRun(Run(s, es), fs)
    ensures IsRun(s, es + fs) && Run(s, es + fs) == Run(Run(s, es), fs)
    decreases |es|
  {
    if es == [] {
      assert es + fs == fs;
    } else {
      assert (es + fs)[1..] == es[1..] + fs;
      RunConcat(Step(s, es[0]), es[1..], fs);
    }
  }

  /** An open gives all attempts back: behind it ten more connect calls can follow without another open, from any
      state. */
  lemma TenMoreAfterOpen(s: State, i: nat) returns (es: seq<Event>)
    requires Possible(s, OnOpen(i))
    ensures IsRun(Step(s, OnOpen(i)), es) && NoOpen(es)
    ensures Run(Step(s, OnOpen(i)), es).connects == s.connects + 10
    ensures Run(Step(s, OnOpen(i)), es).opens == s.opens + 1
    ensures var ks := Run(Step(s, OnOpen(i)), es).sockets; ks != [] && ks[|ks|-1] == NEW
  {
    es := MoreConnects(Step(s, OnOpen(i)), i, 10);
  }

  /** The bound is attained: some run without an open makes 11 connect calls. */
  lemma ElevenConnects() returns (es: seq<Event>)
    ensures IsRun(Init(false), es) && NoOpen(es) && Run(Init(false), es).connects == 11
    ensures var ks := Run(Init(false), es).sockets; ks != [] && ks[|ks|-1] == NEW
    ensures Run(Init(false), es).opens == 0
  {
    es := MoreConnects(Init(false), 0, 10);
  }

  /** With every number of opens: some run with n opens makes 11 + 10 n connect calls. */
  lemma {:induction false} BoundAttained(n: nat) returns (es: seq<Event>)
    ensures IsRun(Init(false), es) && Run(Init(false), es).opens == n && Run(Init(false), es).connects == 11 + 10 * n
    ensures var ks := Run(Init(false), es).sockets; ks != [] && ks[|ks|-1] == NEW
  {
    if n == 0 {
      es := ElevenConnects();
    } else {
      var before := BoundAttained(n - 1);
      var s := Run(Init(false), before);
      var open := OnOpen(|s.sockets| - 1);
      var after := TenMoreAfterOpen(s, |s.sockets| - 1);
      var fs := [open] + after;
      assert fs[1..] == after;
      RunConcat(Init(false), before, fs);
      es := before + fs;
    }
  }

  // ---- What counts as an attempt ----

  /** The failures of a run since its last open: closes, errors and constructors that threw; n were there before it. */
  function Failures(es: seq<Event>, n: nat): nat {
    if es == [] then n
    else
      match es[0]
      case OnOpen(_) => Failures(es[1..], 0)
      case OnClose(_) => Failures(es[1..], n + 1)
      case OnError(_) => Failures(es[1..], n + 1)
      case Timer(throws) => Failures(es[1..], if throws then n + 1 else n)
  }

  function Capped(n: nat): nat { if n < 10 then n else 10 }

  lemma {:induction false} RunAttempts(s: State, es: seq<Event>, n: nat)
    requires IsRun(s, es) && s.attempts == Capped(n)
    ensures Run(s, es).attempts == Capped(Failures(es, n))
    decreases |es|
  {
    if es != [] {
      var m := match es[0]
               case OnOpen(_) => 0
               case OnClose(_) => n + 1
               case OnError(_) => n + 1
               case Timer(throws) => if throws then n + 1 else n;
      RunAttempts(Step(s, es[0]), es[1..], m);
    }
  }

  /** In every run the counter is the number of failures since the last open, up to ten. */
  lemma AttemptsCountFailures(throws: bool, es: seq<Event>)
    requires IsRun(Init(throws), es)
    ensures Run(Init(throws), es).attempts == Capped(Failures(es, if throws then 1 else 0))
  {
    RunAttempts(Init(throws), es, if throws then 1 else 0);
  }

  // ---- Opens ----

  /** The sockets that have opened. */
  function Opened(ks: seq<Socket>): nat {
    if ks == [] then 0 else Opened(ks[..|ks|-1]) + if ks[|ks|-1].live then 1 else 0
  }

  lemma {:induction false} OpenedUpdate(ks: seq<Socket>, i: nat, k: Socket)
    requires i < |ks|
    ensures Opened(ks[i := k]) == Opened(ks) - (if ks[i].live then 1 else 0) + if k.live then 1 else 0
  {
    var n := |ks| - 1;
    if i == n {
      assert ks[i := k][..n] == ks[..n];
    } else {
      assert ks[i := k][..n] == ks[..n][i := k];
      OpenedUpdate(ks[..n], i, k);
    }
  }

  lemma {:induction false} OpenedAtMost(ks: seq<Socket>)
    ensures Opened(ks) <= |ks|
  {
    if ks != [] { OpenedAtMost(ks[..|ks|-1]); }
  }

  lemma {:induction false} RunOpens(s: State, es: seq<Event>)
    requires IsRun(s, es) && s.opens == Opened(s.sockets) && |s.sockets| <= s.connects
    ensures Run(s, es).opens == Opened(Run(s, es).sockets) && |Run(s, es).sockets| <= Run(s, es).connects
    decreases |es|
  {
    if es != [] {
      match es[0] {
        case Timer(throws) =>
          var ks := s.sockets + [NEW];
          assert ks[..|ks|-1] == s.sockets;
        case OnOpen(i) => OpenedUpdate(s.sockets, i, s.sockets[i].(live := true));
        case OnError(i) => OpenedUpdate(s.sockets, i, s.sockets[i].(errored := true));
        case OnClose(i) => OpenedUpdate(s.sockets, i, s.sockets[i].(closed := true));
      }
      RunOpens(Step(s, es[0]), es[1..]);
    }
  }

  /** Each connect call opens at most once: in every run the opens are the opened sockets, at most one for each call. */
  lemma OpensBounded(throws: bool, es: seq<Event>)
    requires IsRun(Init(throws), es)
    ensures var s := Run(Init(throws), es); s.opens == Opened(s.sockets) && s.opens <= s.connects
  {
    assert [NEW][..0] == [];
    RunOpens(Init(throws), es);
    OpenedAtMost(Run(Init(throws), es).sockets);
  }
}
