/** Building concrete runs: one goroutine scheduled alone while no other holds or awaits a lock. */
module Schedules {
  import opened LlmState
  import opened Goroutines
  import opened Discipline
  import opened Handlers
  import opened Supervision
  import LlamaServer

  /** A goroutine's program, locks, data and children after n moves of its own, the environment always answering
      `choice`. */
  datatype Local = Local(prog: Prog, held: multiset<Hold>, data: Data, children: seq<Thread>)

  function Move(s: Local, choice: bool): Local {
    match s.prog
    case Done => s
    case Acquire(h, q) => s.(prog := q, held := s.held + multiset{h})
    case Release(h, q) => s.(prog := q, held := s.held - multiset{h})
    case Do(a, y, n) =>
      var (d, b) := Perform(a, s.data, choice);
      Local(if b then y else n, s.held, d, s.children + Started(a, s.data))
    case Go(p, q) => s.(prog := q, children := s.children + [NewThread(p)])
    case Await(q) => s.(prog := q)
  }

  /** One move for each answer of the environment. */
  function Solo(s: Local, cs: seq<bool>): Local
    decreases |cs|
  {
    if cs == [] then s else Solo(Move(s, cs[0]), cs[1..])
  }

  /** A goroutine that has finished. */
  const ENDED: Thread := Thread(Done, multiset{}, false)

  predicate Quiet(t: Thread) { t.held == multiset{} && !t.announced }

  predicate QuietBut(c: Config, i: nat) {
    i < |c.threads| && !c.threads[i].announced &&
    forall j :: 0 <= j < |c.threads| && j != i ==> Quiet(c.threads[j])
  }

  predicate AllQuiet(c: Config) {
    forall j :: 0 <= j < |c.threads| ==> Quiet(c.threads[j])
  }

  function LocalOf(c: Config, i: nat): Local
    requires i < |c.threads|
  {
    Local(c.threads[i].prog, c.threads[i].held, c.data, [])
  }

  /** The configuration that shows goroutine i in local state s. */
  function Placed(c: Config, i: nat, s: Local): Config
    requires i < |c.threads|
  {
    Config(c.threads[i := Thread(s.prog, s.held, false)] + s.children, s.data)
  }

  /** Nobody arrives, and every answer of the environment is in env. */
  predicate StepsIn(es: seq<Event>, env: set<bool>) {
    forall k :: 0 <= k < |es| ==> es[k].Step? && es[k].choice in env
  }

  /** A goroutine that follows the lock order and is not disturbed gets its lock. */
  lemma AcquireRuns(c: Config, i: nat, choice: bool) returns (es: seq<Event>)
    requires QuietBut(c, i) && Disciplined(c.threads[i].prog, c.threads[i].held, true) && c.threads[i].prog.Acquire?
    ensures Exec(c, es) == Placed(c, i, Move(LocalOf(c, i), choice)) && StepsIn(es, {choice})
  {
    var t := c.threads[i];
    var l := t.prog.h.l;
    var s := Step(i, choice);
    assert Above(l, t.held);
    assert Rank(R(l).l) == Rank(W(l).l) == Rank(l);
    assert !Holds(t, R(l)) && !Holds(t, W(l));
    assert Unheld(c, l) && Readable(c, l);
    var t2 := Thread(t.prog.next, t.held + multiset{t.prog.h}, false);
    es := [s];
    if t.prog.h.W? {
      var c1 := Next(c, s);
      assert c1 == c.(threads := c.threads[i := t.(announced := true)]);
      assert Unheld(c1, l);
      ExecConcat(c, [s], [s]);
      es := [s] + [s];
      assert c1.threads[i := t2] == c.threads[i := t2];
    }
    assert c.threads[i := t2] == c.threads[i := t2] + [];
  }

  /** One move of an undisturbed goroutine is a piece of schedule. */
  lemma MoveRuns(c: Config, i: nat, choice: bool) returns (es: seq<Event>)
    requires QuietBut(c, i) && Disciplined(c.threads[i].prog, c.threads[i].held, true)
    ensures Exec(c, es) == Placed(c, i, Move(LocalOf(c, i), choice)) && StepsIn(es, {choice})
  {
    var t := c.threads[i];
    if t.prog.Done? {
      es := [];
      assert c.threads[i := t] + [] == c.threads;
    } else if t.prog.Acquire? {
      es := AcquireRuns(c, i, choice);
    } else {
      es := [Step(i, choice)];
      var c1 := Next(c, Step(i, choice));
      assert c1.threads == Placed(c, i, Move(LocalOf(c, i), choice)).threads;
    }
  }

  lemma MoveDisciplined(c: Config, i: nat, choice: bool)
    requires QuietBut(c, i) && Disciplined(c.threads[i].prog, c.threads[i].held, true)
    ensures var c' := Placed(c, i, Move(LocalOf(c, i), choice));
            QuietBut(c', i) && Disciplined(c'.threads[i].prog, c'.threads[i].held, true)
  {
  }

  predicate AnswersIn(cs: seq<bool>, env: set<bool>) { forall k :: 0 <= k < |cs| ==> cs[k] in env }

  /** Moves alone are schedulable: |cs| of them bring the machine to the local state `Solo` computes. */
  lemma {:induction false} SoloRuns(c: Config, i: nat, cs: seq<bool>, env: set<bool>) returns (es: seq<Event>)
    requires QuietBut(c, i) && Disciplined(c.threads[i].prog, c.threads[i].held, true) && AnswersIn(cs, env)
    ensures Exec(c, es) == Placed(c, i, Solo(LocalOf(c, i), cs)) && StepsIn(es, env)
    decreases |cs|
  {
    var s := LocalOf(c, i);
    if cs == [] {
      es := [];
      assert c.threads[i := c.threads[i]] + [] == c.threads;
    } else {
      var first := MoveRuns(c, i, cs[0]);
      MoveDisciplined(c, i, cs[0]);
      var m := Move(s, cs[0]);
      var c1 := Placed(c, i, m);
      var rest := SoloRuns(c1, i, cs[1..], env);
      es := first + rest;
      ExecConcat(c, first, rest);
      ChildrenApart(m, cs[1..]);
      assert LocalOf(c1, i) == Childless(m);
      PlacedTwice(c, i, m, Solo(Childless(m), cs[1..]));
    }
  }

  lemma PlacedTwice(c: Config, i: nat, m: Local, l: Local)
    requires i < |c.threads|
    ensures Placed(Placed(c, i, m), i, l) == Placed(c, i, WithChildren(l, m.children))
  {
    var tm, tl := Thread(m.prog, m.held, false), Thread(l.prog, l.held, false);
    assert (c.threads[i := tm] + m.children)[i := tl] + l.children == c.threads[i := tl] + (m.children + l.children);
  }

  function WithChildren(s: Local, before: seq<Thread>): Local { s.(children := before + s.children) }

  function Childless(s: Local): Local { s.(children := []) }

  lemma MoveApart(s: Local, choice: bool)
    ensures Move(s, choice) == WithChildren(Move(Childless(s), choice), s.children)
  {
    if s.prog.Do? {
      assert s.children + ([] + Started(s.prog.a, s.data)) == s.children + Started(s.prog.a, s.data);
    } else if s.prog.Go? {
      var child := [NewThread(s.prog.child)];
      assert s.children + ([] + child) == s.children + child;
    } else {
      assert s.children + [] == s.children;
    }
  }

  lemma WithChildrenTwice(s: Local, x: seq<Thread>, y: seq<Thread>)
    ensures WithChildren(WithChildren(s, y), x) == WithChildren(s, x + y)
  {
    assert x + (y + s.children) == (x + y) + s.children;
  }

  /** Children only accumulate. */
  lemma {:induction false} ChildrenApart(s: Local, cs: seq<bool>)
    ensures Solo(s, cs) == WithChildren(Solo(Childless(s), cs), s.children)
    decreases |cs|
  {
    if cs == [] {
      assert s.children + [] == s.children;
    } else {
      var m, m' := Move(s, cs[0]), Move(Childless(s), cs[0]);
      MoveApart(s, cs[0]);
      ChildrenApart(m, cs[1..]);
      ChildrenApart(m', cs[1..]);
      WithChildrenTwice(Solo(Childless(m), cs[1..]), s.children, m'.children);
    }
  }

  lemma {:induction false} SoloSplit(s: Local, a: seq<bool>, b: seq<bool>)
    ensures Solo(s, a + b) == Solo(Solo(s, a), b)
    decreases |a|
  {
    if a == [] {
      assert a + b == b;
    } else {
      assert (a + b)[1..] == a[1..] + b;
      SoloSplit(Move(s, a[0]), a[1..], b);
    }
  }

  /** Some number of moves, answered in env, brings the goroutine from s to t. */
  ghost predicate Leads(s: Local, t: Local, env: set<bool>) {
    exists cs: seq<bool> :: AnswersIn(cs, env) && Solo(s, cs) == t
  }

  lemma LeadsToItself(s: Local, env: set<bool>)
    ensures Leads(s, s, env)
  {
    assert AnswersIn([], env) && Solo(s, []) == s;
  }

  lemma ThenMove(s: Local, t: Local, env: set<bool>, choice: bool)
    requires Leads(s, t, env) && choice in env
    ensures Leads(s, Move(t, choice), env)
  {
    var cs: seq<bool> :| AnswersIn(cs, env) && Solo(s, cs) == t;
    SoloSplit(s, cs, [choice]);
    assert [choice][1..] == [];
    assert Solo(t, [choice]) == Solo(Move(t, choice), []);
    assert AnswersIn(cs + [choice], env) && Solo(s, cs + [choice]) == Move(t, choice);
  }

  /** One arrival, and steps answered in env behind it. */
  predicate ArrivesOnce(es: seq<Event>, r: Request, env: set<bool>) {
    es != [] && es[0] == Arrive(r) && StepsIn(es[1..], env)
  }

  /** A request that arrives while all is quiet, run alone to local state t. */
  lemma ArriveAndRun(c: Config, r: Request, t: Local, env: set<bool>) returns (es: seq<Event>)
    requires AllQuiet(c) && !Nests(r) && Leads(Local(Code(r), multiset{}, c.data, []), t, env)
    ensures Exec(c, es) == Config(c.threads + [Thread(t.prog, t.held, false)] + t.children, t.data)
    ensures ArrivesOnce(es, r, env)
  {
    var c1 := Next(c, Arrive(r));
    CodeDisciplined(r, true);
    var k := |c.threads|;
    assert c1.threads[k] == NewThread(Code(r));
    var rest := RunTo(c1, k, t, env);
    es := [Arrive(r)] + rest;
    assert es[1..] == rest;
    assert c1.threads[k := Thread(t.prog, t.held, false)] == c.threads + [Thread(t.prog, t.held, false)];
  }

  /** A goroutine run alone to local state t. */
  lemma RunTo(c: Config, i: nat, t: Local, env: set<bool>) returns (es: seq<Event>)
    requires QuietBut(c, i) && Disciplined(c.threads[i].prog, c.threads[i].held, true) && Leads(LocalOf(c, i), t, env)
    ensures Exec(c, es) == Placed(c, i, t) && StepsIn(es, env)
  {
    var cs: seq<bool> :| AnswersIn(cs, env) && Solo(LocalOf(c, i), cs) == t;
    es := SoloRuns(c, i, cs, env);
  }

  // ---- What the programs do when they run alone ----

  /** An answer, where it does not matter which. */
  function Any(env: set<bool>): (b: bool)
    requires Answerable(env)
    ensures b in env
  {
    true in env
  }

  predicate Answerable(env: set<bool>) { true in env || false in env }

  /** Taking or giving back a lock. */
  lemma LockMove(s0: Local, s: Local, env: set<bool>) returns (t: Local)
    requires Answerable(env) && Leads(s0, s, env) && (s.prog.Acquire? || s.prog.Release?)
    ensures Leads(s0, t, env) && t.prog == s.prog.next && t.data == s.data && t.children == s.children
    ensures t.held == if s.prog.Acquire? then s.held + multiset{s.prog.h} else s.held - multiset{s.prog.h}
  {
    ThenMove(s0, s, env, Any(env));
    t := Move(s, Any(env));
  }

  /** An action that starts no goroutine. */
  lemma ActionMove(s0: Local, s: Local, env: set<bool>, choice: bool) returns (t: Local)
    requires choice in env && Leads(s0, s, env) && s.prog.Do? && !s.prog.a.SpawnProcess?
    ensures var (d, b) := Perform(s.prog.a, s.data, choice);
            t == Local(if b then s.prog.yes else s.prog.no, s.held, d, s.children)
    ensures Leads(s0, t, env)
  {
    ThenMove(s0, s, env, choice);
    t := Move(s, choice);
    assert s.children + [] == s.children;
  }

  lemma SpawnMove(s0: Local, s: Local, env: set<bool>) returns (t: Local)
    requires Answerable(env) && Leads(s0, s, env) && s.prog.Do? && s.prog.a.SpawnProcess?
    ensures t == Local(s.prog.yes, s.held, s.data.(llm := Spawn(s.data.llm)),
                       s.children + [NewThread(ExitWatcher(|s.data.llm.procs|))])
    ensures Leads(s0, t, env)
  {
    ThenMove(s0, s, env, Any(env));
    t := Move(s, Any(env));
  }

  /** One locked section. */
  lemma SectionAlone(h: Hold, a: Action, k: Prog, s0: Local, s: Local, env: set<bool>) returns (t: Local)
    requires Answerable(env) && Leads(s0, s, env)
    requires s.prog == Section(h, a, k) && Perform(a, s.data, Any(env)).1 && !a.SpawnProcess?
    ensures Leads(s0, t, env) && t == Local(k, s.held, Perform(a, s.data, Any(env)).0, s.children)
  {
    assert s.held + multiset{h} - multiset{h} == s.held;
    t := LockMove(s0, s, env);
    t := ActionMove(s0, t, env, Any(env));
    t := LockMove(s0, t, env);
  }

  // ---- Start, with every outcome ----

  /** One of the health answers from the k-th on, n of them, is good. */
  ghost predicate AnswersFrom(healthy: nat -> bool, k: nat, n: nat) { exists i: nat :: k <= i < k + n && healthy(i) }

  lemma {:induction false} PollRuns(n: nat, k: nat, ok: Prog, err: Prog, healthy: nat -> bool, s0: Local, s: Local,
      env: set<bool>)
    returns (t: Local)
    requires Leads(s0, s, env) && s.prog == Poll(n, ok, err) && forall i: nat :: healthy(i) in env
    ensures Leads(s0, t, env) && t == s.(prog := if AnswersFrom(healthy, k, n) then ok else err)
    decreases n
  {
    if n == 0 {
      t := s;
    } else {
      t := ActionMove(s0, s, env, healthy(k));
      if !healthy(k) { t := PollRuns(n - 1, k + 1, ok, err, healthy, s0, t, env); }
      assert AnswersFrom(healthy, k, n) <==> healthy(k) || AnswersFrom(healthy, k + 1, n - 1);
    }
  }

  /** From the lookup on. */
  lemma LaunchRuns(polls: nat, ok: Prog, err: Prog, found: bool, healthy: nat -> bool, s0: Local, s: Local,
      env: set<bool>)
    returns (t: Local)
    requires Leads(s0, s, env) && s.prog == Launch(polls, ok, err)
    requires found in env && forall i: nat :: healthy(i) in env
    ensures Leads(s0, t, env)
    ensures t.prog == if found && LlamaServer.AnswersBy(healthy, polls) then ok else err
    ensures t.held == s.held - multiset{W(LlmMu)}
    ensures t.data == if found then s.data.(llm := Spawn(s.data.llm)) else s.data
    ensures t.children == s.children + if found then [NewThread(ExitWatcher(|s.data.llm.procs|))] else []
  {
    t := ActionMove(s0, s, env, found);
    if found {
      t := SpawnMove(s0, t, env);
      t := PollRuns(polls, 0, Unlock(ok), Unlock(err), healthy, s0, t, env);
      assert AnswersFrom(healthy, 0, polls) <==> LlamaServer.AnswersBy(healthy, polls);
    }
    t := LockMove(s0, t, env);
  }

  /** Start with a path, up to the lookup. */
  lemma StartToLookup(polls: nat, ok: Prog, err: Prog, s0: Local, s: Local, env: set<bool>) returns (t: Local)
    requires Answerable(env) && Leads(s0, s, env) && s.prog == Handlers.Start(polls, ok, err) &&
             s.data.llm.modelPath != ""
    ensures Leads(s0, t, env)
    ensures t == Local(Launch(polls, ok, err), s.held + multiset{W(LlmMu)},
                       s.data.(llm := StopIfRunning(s.data.llm)), s.children)
  {
    t := LockMove(s0, s, env);
    t := ActionMove(s0, t, env, Any(env));
    t := ActionMove(s0, t, env, Any(env));
  }

  lemma StartWithoutPath(polls: nat, ok: Prog, err: Prog, s0: Local, s: Local, env: set<bool>) returns (t: Local)
    requires Answerable(env) && Leads(s0, s, env) && s.prog == Handlers.Start(polls, ok, err) &&
             s.data.llm.modelPath == ""
    ensures Leads(s0, t, env) && t == s.(prog := err)
  {
    assert s.held + multiset{W(LlmMu)} - multiset{W(LlmMu)} == s.held;
    t := LockMove(s0, s, env);
    t := ActionMove(s0, t, env, Any(env));
    t := LockMove(s0, t, env);
  }

  /** The machine's program of Start, run alone, whatever the lookup and the health requests answer: it goes on
      behind a success exactly when the class's Start would be ready, with the same new state, and a new process
      has its watcher. */
  lemma StartRuns(polls: nat, ok: Prog, err: Prog, found: bool, healthy: nat -> bool, s0: Local, s: Local,
      env: set<bool>)
    returns (t: Local)
    requires Leads(s0, s, env) && s.prog == Handlers.Start(polls, ok, err)
    requires found in env && forall i: nat :: healthy(i) in env
    ensures Leads(s0, t, env)
    ensures var path := s.data.llm.modelPath != "";
            t == Local(if path && found && LlamaServer.AnswersBy(healthy, polls) then ok else err, s.held,
                       s.data.(llm := StartOp(s.data.llm, found)),
                       s.children + if path && found then [NewThread(ExitWatcher(|s.data.llm.procs|))] else [])
  {
    if s.data.llm.modelPath == "" {
      t := StartWithoutPath(polls, ok, err, s0, s, env);
      assert s.children + [] == s.children;
    } else {
      assert s.held + multiset{W(LlmMu)} - multiset{W(LlmMu)} == s.held;
      t := StartToLookup(polls, ok, err, s0, s, env);
      t := LaunchRuns(polls, ok, err, found, healthy, s0, t, env);
    }
  }

  /** Restart likewise. */
  lemma RestartRuns(polls: nat, found: bool, healthy: nat -> bool, s0: Local, s: Local, env: set<bool>)
      returns (t: Local)
    requires Leads(s0, s, env) && s.prog == Handlers.Restart(polls)
    requires found in env && forall i: nat :: healthy(i) in env
    ensures Leads(s0, t, env)
    ensures var spawns := s.data.llm.modelPath != "" && found;
            t == Local(Done, s.held, s.data.(llm := StartOp(s.data.llm, found)),
                       s.children + if spawns then [NewThread(ExitWatcher(|s.data.llm.procs|))] else [])
  {
    assert s.held + multiset{W(LlmMu)} - multiset{W(LlmMu)} == s.held;
    t := LockMove(s0, s, env);
    t := ActionMove(s0, t, env, Any(env));
    t := LockMove(s0, t, env);
    if s.data.llm.modelPath == "" {
      assert s.children + [] == s.children;
    } else {
      t := StartRuns(polls, Done, Done, found, healthy, s0, t, env);
    }
  }

  /** And StartNonBlocking. */
  lemma StartNonBlockingRuns(k: Prog, found: bool, s0: Local, s: Local, env: set<bool>) returns (t: Local)
    requires Leads(s0, s, env) && s.prog == Handlers.StartNonBlocking(k) && found in env
    ensures Leads(s0, t, env)
    ensures var spawns := s.data.llm.modelPath != "" && !s.data.llm.isRunning && found;
            t == Local(k, s.held, s.data.(llm := StartNonBlockingOp(s.data.llm, found)),
                       s.children + if spawns then [NewThread(ExitWatcher(|s.data.llm.procs|))] else [])
  {
    assert s.held + multiset{W(LlmMu)} - multiset{W(LlmMu)} == s.held;
    t := NonBlockingToUnlock(k, found, s0, s, env);
    t := LockMove(s0, t, env);
  }

  lemma FindAndSpawn(k: Prog, found: bool, s0: Local, s: Local, env: set<bool>) returns (t: Local)
    requires Leads(s0, s, env) && s.prog == Do(FindBinary, Act(SpawnProcess, k), k) && found in env
    ensures Leads(s0, t, env) && t.prog == k && t.held == s.held
    ensures t.data == if found then s.data.(llm := Spawn(s.data.llm)) else s.data
    ensures t.children == s.children + if found then [NewThread(ExitWatcher(|s.data.llm.procs|))] else []
  {
    assert s.children + [] == s.children;
    t := ActionMove(s0, s, env, found);
    if found { t := SpawnMove(s0, t, env); }
  }

  lemma NonBlockingToUnlock(k: Prog, found: bool, s0: Local, s: Local, env: set<bool>) returns (t: Local)
    requires Leads(s0, s, env) && s.prog == Handlers.StartNonBlocking(k) && found in env
    ensures Leads(s0, t, env) && t.prog == Unlock(k) && t.held == s.held + multiset{W(LlmMu)}
    ensures t.data == s.data.(llm := StartNonBlockingOp(s.data.llm, found))
    ensures var spawns := s.data.llm.modelPath != "" && !s.data.llm.isRunning && found;
            t.children == s.children + if spawns then [NewThread(ExitWatcher(|s.data.llm.procs|))] else []
  {
    assert s.children + [] == s.children;
    t := LockMove(s0, s, env);
    t := ActionMove(s0, t, env, Any(env));
    if s.data.llm.modelPath != "" {
      t := ActionMove(s0, t, env, Any(env));
      if !s.data.llm.isRunning { t := FindAndSpawn(Unlock(k), found, s0, t, env); }
    }
  }

  // ---- The bound on lost processes is attained by the machine ----

  /** Quiet, running, with the latest process's exit goroutine waiting as goroutine w. */
  predicate Watching(c: Config, w: nat) {
    AllQuiet(c) && w < |c.threads| && c.data.llm.isRunning && c.data.llm.modelPath != "" && Inv(c.data.llm) &&
    HasLatest(c.data.llm) && c.threads[w].prog == ExitWatcher(|c.data.llm.procs| - 1)
  }

  /** Start, run alone with the binary found and the first health answer good, has this effect. */
  lemma StartAlone(c: Config) returns (es: seq<Event>)
    requires AllQuiet(c) && c.data.llm.modelPath != ""
    ensures var d := c.data.(llm := StartOp(c.data.llm, true));
            Exec(c, es) == Config(c.threads + [ENDED, NewThread(ExitWatcher(|c.data.llm.procs|))], d)
  {
    var s := Local(Code(LlmStart), multiset{}, c.data, []);
    LeadsToItself(s, {true});
    var healthy := (i: nat) => true;
    var t := StartRuns(HEALTH_POLLS, Done, Done, true, healthy, s, s, {true});
    assert healthy(0) && LlamaServer.AnswersBy(healthy, HEALTH_POLLS);
    es := ArriveAndRun(c, LlmStart, t, {true});
    var w := NewThread(ExitWatcher(|c.data.llm.procs|));
    assert c.threads + [ENDED] + ([] + [w]) == c.threads + [ENDED, w];
  }

  /** The exit goroutine of generation g, run alone to its end. */
  lemma ExitAlone(c: Config, w: nat, g: nat) returns (es: seq<Event>)
    requires AllQuiet(c) && w < |c.threads| && c.threads[w].prog == ExitWatcher(g)
    ensures Exec(c, es) == Config(c.threads[w := ENDED], c.data.(llm := RecordExit(c.data.llm, g)))
  {
    ExitWatcherDisciplined(g, true);
    var s := LocalOf(c, w);
    LeadsToItself(s, {true});
    ThenMove(s, s, {true}, true);
    var t := SectionAlone(W(LlmMu), ClearRunning(g), Done, s, Move(s, true), {true});
    es := RunTo(c, w, t, {true});
    assert c.threads[w := ENDED] + [] == c.threads[w := ENDED];
  }

  lemma SetPathAlone(c: Config, p: string) returns (es: seq<Event>)
    requires AllQuiet(c)
    ensures Exec(c, es) == Config(c.threads + [ENDED], c.data.(llm := c.data.llm.(modelPath := p)))
  {
    var s := Local(Code(LlmSetPath(p)), multiset{}, c.data, []);
    LeadsToItself(s, {true});
    var t := SectionAlone(W(LlmMu), SetLlmPath(p), Done, s, s, {true});
    es := ArriveAndRun(c, LlmSetPath(p), t, {true});
    assert c.threads + [ENDED] + [] == c.threads + [ENDED];
  }

  /** What the machine looks like after one losing round with goroutine v's exit recorded late. */
  lemma StillWatching(c: Config, v: nat, c': Config)
    requires Watching(c, v)
    requires var m := c.data.llm;
             var late := RecordExit(StartOp(m, true), |m.procs| - 1);
             c' == Config(c.threads[v := ENDED] + [ENDED, NewThread(ExitWatcher(|m.procs|))] +
                 [ENDED, NewThread(ExitWatcher(|late.procs|))],
                          c.data.(llm := StartOp(late, true)))
    ensures Watching(c', |c'.threads| - 1)
    ensures c'.data.llm.stale == c.data.llm.stale + 1 && Lost(c'.data.llm) == Lost(c.data.llm) + 1
  {
    LosingRound(c.data.llm);
    var front := c.threads[v := ENDED];
    assert forall j :: 0 <= j < |front| ==> Quiet(front[j]);
    assert |StartOp(c.data.llm, true).procs| == |c.data.llm.procs| + 1;
  }

  /** The machine plays one losing round. */
  lemma LosingRoundAlone(c: Config, v: nat) returns (es: seq<Event>, w: nat)
    requires Watching(c, v)
    ensures var c' := Exec(c, es);
            Watching(c', w) && c'.data.llm.stale == c.data.llm.stale + 1 && Lost(c'.data.llm) == Lost(c.data.llm) + 1
  {
    var g := |c.data.llm.procs| - 1;
    var e1 := StartAlone(c);
    var c1 := Exec(c, e1);
    assert c1.threads[v] == c.threads[v];
    var e2 := ExitAlone(c1, v, g);
    var c2 := Exec(c1, e2);
    assert c2.threads == c.threads[v := ENDED] + [ENDED, NewThread(ExitWatcher(g + 1))];
    var e3 := StartAlone(c2);
    es := e1 + (e2 + e3);
    ExecConcat(c, e1, e2 + e3);
    ExecConcat(c1, e2, e3);
    w := |Exec(c2, e3).threads| - 1;
    StillWatching(c, v, Exec(c2, e3));
  }

  /** What it looks like after the first start. */
  lemma FirstWatching(c: Config)
    requires c == Config([ENDED, ENDED, NewThread(ExitWatcher(0))], INIT.data.(llm := Spawn(FRESH.(modelPath := "m"))))
    ensures Watching(c, 2) && c.data.llm.stale == 0 && Lost(c.data.llm) == 0
  {
    FirstSpawn(FRESH.(modelPath := "m"));
    assert forall j :: 0 <= j < 3 ==> Quiet(c.threads[j]);
  }

  lemma FirstSpawn(m: Llm)
    requires m.procs == [] && !m.isRunning && m.cancel.None? && m.stale == m.late == 0
    ensures Inv(Spawn(m)) && Lost(Spawn(m)) == 0 && |Spawn(m).procs| == 1
  {
    assert Spawn(m).procs[..0] == [];
  }

  lemma FirstStart() returns (es: seq<Event>, w: nat)
    ensures var c := Exec(INIT, es); Watching(c, w) && c.data.llm.stale == 0 && Lost(c.data.llm) == 0
  {
    var e1 := SetPathAlone(INIT, "m");
    var c1 := Exec(INIT, e1);
    var m := FRESH.(modelPath := "m");
    assert c1 == Config([ENDED], INIT.data.(llm := m));
    var e2 := StartAlone(c1);
    es := e1 + e2;
    ExecConcat(INIT, e1, e2);
    w := 2;
    assert Exec(c1, e2).threads == [ENDED, ENDED, NewThread(ExitWatcher(0))];
    FirstWatching(Exec(INIT, es));
  }

  /** The running flag is not exact: some run leaves the latest process live with the flag clear. */
  lemma FlagCanBeClearOverLiveProcess() returns (es: seq<Event>)
    ensures Orphaned(Exec(INIT, es).data.llm)
  {
    var e0, v := FirstStart();
    var c := Exec(INIT, e0);
    var e1 := StartAlone(c);
    var c1 := Exec(c, e1);
    assert c1.threads[v] == c.threads[v];
    var e2 := ExitAlone(c1, v, |c.data.llm.procs| - 1);
    es := e0 + (e1 + e2);
    ExecConcat(INIT, e0, e1 + e2);
    ExecConcat(c, e1, e2);
    LosingRound(c.data.llm);
  }

  /** For every n some run of the machine has n stale exits and n lost processes. */
  lemma {:induction false} LossBoundAttained(n: nat) returns (es: seq<Event>, w: nat)
    ensures var m := Exec(INIT, es).data.llm; m.stale == n && Lost(m) == n
    ensures Watching(Exec(INIT, es), w)
  {
    if n == 0 {
      es, w := FirstStart();
    } else {
      var e0, v := LossBoundAttained(n - 1);
      var c := Exec(INIT, e0);
      var e1;
      e1, w := LosingRoundAlone(c, v);
      es := e0 + e1;
      ExecConcat(INIT, e0, e1);
    }
  }
}
