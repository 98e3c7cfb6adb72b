/** Goroutines over explicit locks.  A program is a tree of lock operations and actions on the
    shared data; a configuration is any number of goroutines plus the data.  A lock is who holds
    it and which writers have announced themselves, so `sync.RWMutex` reads: a writer enters when
    nobody holds the lock, a reader when no writer holds or awaits it. */
module Goroutines {
  import opened LlmState

  datatype Lock = ApiMu | LlmMu | DiscMu
  datatype Hold = R(l: Lock) | W(l: Lock)

  function Rank(l: Lock): nat {
    match l case ApiMu => 0 case LlmMu => 1 case DiscMu => 2
  }

  /** The supervisor's settings beside the model path. */
  datatype Options = Options(mmproj: string, ctx: int, gpu: int, threads: int, predict: int)

  datatype Setting = MMProj(s: string) | CtxSize(n: int) | GPULayers(n: int) | Threads(n: int) | Predict(n: int)

  function Store(o: Options, s: Setting): Options {
    match s
    case MMProj(p) => o.(mmproj := p)
    case CtxSize(n) => o.(ctx := n)
    case GPULayers(n) => o.(gpu := n)
    case Threads(n) => o.(threads := n)
    case Predict(n) => o.(predict := n)
  }

  /** What a broadcast tells the clients about the API server. */
  datatype Update = Update(path: string, loaded: bool, workers: nat)

  /** The shared data: the supervisor with its options and the number of RPC workers handed over to it; the API
      server's path, mmproj, flag, number of RPC workers and number of clients, and what it has told them, the
      latest last; and how often the registry has been written. */
  datatype Data = Data(llm: Llm, opts: Options, handed: nat, apiPath: string, apiMMProj: string, loaded: bool,
                       workers: nat, clients: nat, told: seq<Update>, writes: nat)

  datatype Action =
    // under the API lock
    | ApiRead | Publish | Register | Unregister | SetApiPath(p: string) | SetApiMMProj(m: string) | SetLoaded(b: bool)
    | AppendWorker | InRange(index: int) | RemoveWorker
    // under the supervisor's mutex
    | LlmRead | SetOption(o: Setting) | SetLlmPath(q: string) | CheckPath | TestRunning
    | StopRunning | SpawnProcess | StopProcess
    | ClearRunning(g: nat)
    // under the registry lock
    | DiscRead | DiscWrite
    // under the supervisor's mutex and the API lock
    | HandOver
    // answered by the environment
    | FindBinary | Health

  datatype Prog =
    | Done
    | Acquire(h: Hold, next: Prog)
    | Release(h: Hold, next: Prog)
    | Do(a: Action, yes: Prog, no: Prog)
    | Go(child: Prog, next: Prog)
    | Await(next: Prog)  // a process exit or the end of a connection: may never come

  /** `announced`: the goroutine is inside Lock() and has made itself known to readers. */
  datatype Thread = Thread(prog: Prog, held: multiset<Hold>, announced: bool)

  datatype Config = Config(threads: seq<Thread>, data: Data)

  function Act(a: Action, k: Prog): Prog { Do(a, k, k) }

  /** A section that takes one lock, performs one action and releases it. */
  function Section(h: Hold, a: Action, k: Prog): Prog {
    Acquire(h, Act(a, Release(h, k)))
  }

  /** The goroutine that waits for process g and clears the running flag. */
  function ExitWatcher(g: nat): Prog {
    Await(Section(W(LlmMu), ClearRunning(g), Done))
  }

  /** The data after an action, and which branch the goroutine takes.  `choice` is the environment's answer. */
  function Perform(a: Action, d: Data, choice: bool): (Data, bool) {
    match a
    case SetApiPath(p) => (d.(apiPath := p), true)
    case SetApiMMProj(m) => (d.(apiMMProj := m), true)
    case SetLoaded(b) => (d.(loaded := b), true)
    case Publish => (d.(told := d.told + [Update(d.apiPath, d.loaded, d.workers)]), true)
    case Register => (d.(clients := d.clients + 1), true)
    case Unregister => (if d.clients > 0 then d.(clients := d.clients - 1) else d, true)
    case DiscWrite => (d.(writes := d.writes + 1), true)
    case HandOver => (d.(handed := d.workers), true)
    case SetOption(o) => (d.(opts := Store(d.opts, o)), true)
    case AppendWorker => (d.(workers := d.workers + 1), true)
    case InRange(i) => (d, 0 <= i < d.workers)
    case RemoveWorker => (if d.workers > 0 then d.(workers := d.workers - 1) else d, true)
    case SetLlmPath(p) => (d.(llm := d.llm.(modelPath := p)), true)
    case CheckPath => (d, d.llm.modelPath != "")
    case TestRunning => (d, d.llm.isRunning)
    case StopRunning => (d.(llm := StopIfRunning(d.llm)), true)
    case SpawnProcess => (d.(llm := Spawn(d.llm)), true)
    case StopProcess => (d.(llm := StopLocked(d.llm)), true)
    case ClearRunning(g) => (d.(llm := RecordExit(d.llm, g)), true)
    case FindBinary => (d, choice)
    case Health => (d, choice)
    case _ => (d, true)
  }

  function NewThread(p: Prog): Thread { Thread(p, multiset{}, false) }

  /** The goroutines that an action starts. */
  function Started(a: Action, d: Data): seq<Thread> {
    if a.SpawnProcess? then [NewThread(ExitWatcher(|d.llm.procs|))] else []
  }

  predicate Holds(t: Thread, h: Hold) { h in t.held }

  predicate AwaitsWrite(t: Thread, l: Lock) {
    t.announced && t.prog.Acquire? && t.prog.h == W(l)
  }

  predicate Unheld(c: Config, l: Lock) {
    forall j :: 0 <= j < |c.threads| ==> !Holds(c.threads[j], R(l)) && !Holds(c.threads[j], W(l))
  }

  predicate Readable(c: Config, l: Lock) {
    forall j :: 0 <= j < |c.threads| ==> !Holds(c.threads[j], W(l)) && !AwaitsWrite(c.threads[j], l)
  }

  /** Goroutine i can take a step. */
  predicate Enabled(c: Config, i: nat) {
    i < |c.threads| &&
    var t := c.threads[i];
    match t.prog
    case Done => false
    case Acquire(h, _) => if h.W? then (!t.announced || Unheld(c, h.l)) else Readable(c, h.l)
    case Release(h, _) => Holds(t, h)
    case _ => true
  }

  /** The step of goroutine i. */
  function After(c: Config, i: nat, choice: bool): Config
    requires Enabled(c, i)
  {
    var t := c.threads[i];
    match t.prog
    case Acquire(h, q) =>
      if h.W? && !t.announced then c.(threads := c.threads[i := t.(announced := true)])
      else c.(threads := c.threads[i := Thread(q, t.held + multiset{h}, false)])
    case Release(h, q) => c.(threads := c.threads[i := t.(prog := q, held := t.held - multiset{h})])
    case Do(a, y, n) =>
      var (d, b) := Perform(a, c.data, choice);
      Config(c.threads[i := t.(prog := if b then y else n)] + Started(a, c.data), d)
    case Go(p, q) => c.(threads := c.threads[i := t.(prog := q)] + [NewThread(p)])
    case Await(q) => c.(threads := c.threads[i := t.(prog := q)])
  }

  // ---- Deadlocks ----

  /** The program's first step asks to read l. */
  predicate Reads(p: Prog, l: Lock) { p.Acquire? && p.h == R(l) }

  /** Goroutine i holds l for writing and asks to read it. */
  predicate SelfBlocked(c: Config, i: nat, l: Lock) {
    i < |c.threads| && Holds(c.threads[i], W(l)) && Reads(c.threads[i].prog, l)
  }

  /** Goroutine i holds l for reading and asks for it again while goroutine j waits to write it. */
  predicate MutuallyBlocked(c: Config, i: nat, j: nat, l: Lock) {
    i < |c.threads| && j < |c.threads| && i != j && Holds(c.threads[i], R(l)) && Reads(c.threads[i].prog, l) &&
    AwaitsWrite(c.threads[j], l)
  }

  /** A goroutine waits for itself, or two wait for each other. */
  ghost predicate Deadlocked(c: Config, l: Lock) {
    (exists i: nat :: SelfBlocked(c, i, l)) || (exists i: nat, j: nat :: MutuallyBlocked(c, i, j, l))
  }

  // ---- Mutual exclusion: of any goroutines whatever ----

  predicate SelfExclusive(t: Thread) {
    forall l: Lock :: Holds(t, W(l)) ==> t.held[W(l)] == 1 && !Holds(t, R(l))
  }

  predicate Compatible(t: Thread, u: Thread) {
    forall l: Lock :: Holds(t, W(l)) ==> !Holds(u, W(l)) && !Holds(u, R(l))
  }

  /** A held write lock excludes every other hold of that lock, the holder's own included. */
  predicate Exclusive(c: Config) {
    (forall i :: 0 <= i < |c.threads| ==> SelfExclusive(c.threads[i])) &&
    (forall i, j :: 0 <= i < |c.threads| && 0 <= j < |c.threads| && i != j ==> Compatible(c.threads[i], c.threads[j]))
  }

  /** A step changes no other goroutine, and those it starts hold nothing. */
  lemma OthersStay(c: Config, i: nat, choice: bool, j: nat)
    requires Enabled(c, i) && j != i
    ensures var c' := After(c, i, choice);
            |c.threads| <= |c'.threads| && (j < |c.threads| ==> c'.threads[j] == c.threads[j]) &&
            (|c.threads| <= j < |c'.threads| ==> c'.threads[j].held == multiset{})
  {
  }

  /** What a goroutine may hold after its step, beside what it held: a lock that nobody's hold excludes. */
  lemma NewHold(c: Config, i: nat, choice: bool)
    requires Enabled(c, i)
    ensures var t, t' := c.threads[i], After(c, i, choice).threads[i];
            (forall k: Hold :: t'.held[k] <= t.held[k]) ||
            (t.prog.Acquire? && t'.held == t.held + multiset{t.prog.h} &&
             (if t.prog.h.W? then Unheld(c, t.prog.h.l) else Readable(c, t.prog.h.l)))
  {
  }

  /** Holding no more than before, the stepper stays compatible with everyone. */
  lemma FewerHolds(t: Thread, t': Thread, u: Thread)
    requires forall k: Hold :: t'.held[k] <= t.held[k]
    requires Compatible(t, u) && Compatible(u, t) && SelfExclusive(t)
    ensures Compatible(t', u) && Compatible(u, t') && SelfExclusive(t')
  {
  }

  /** So it does with a new lock that nobody's hold excludes. */
  lemma OneMoreHold(t: Thread, t': Thread, u: Thread, h: Hold)
    requires t'.held == t.held + multiset{h}
    requires Compatible(t, u) && Compatible(u, t) && SelfExclusive(t)
    requires !Holds(u, W(h.l)) && !Holds(t, W(h.l)) && (h.W? ==> !Holds(u, R(h.l)) && !Holds(t, R(h.l)))
    ensures Compatible(t', u) && Compatible(u, t') && SelfExclusive(t')
  {
    assert forall k: Hold :: k != h ==> t'.held[k] == t.held[k];
  }

  lemma PairKept(c: Config, i: nat, choice: bool, u: Thread)
    requires Enabled(c, i) && SelfExclusive(c.threads[i]) && Compatible(c.threads[i], u) && Compatible(u, c.threads[i])
    requires u.held == multiset{} || u in c.threads
    ensures var t' := After(c, i, choice).threads[i]; Compatible(t', u) && Compatible(u, t') && SelfExclusive(t')
  {
    NewHold(c, i, choice);
    var t, t' := c.threads[i], After(c, i, choice).threads[i];
    if forall k: Hold :: t'.held[k] <= t.held[k] {
      FewerHolds(t, t', u);
    } else {
      OneMoreHold(t, t', u, t.prog.h);
    }
  }

  lemma ExclusiveKept(c: Config, i: nat, choice: bool)
    requires Exclusive(c) && Enabled(c, i)
    ensures Exclusive(After(c, i, choice))
  {
    var c' := After(c, i, choice);
    var none := NewThread(Done);
    PairKept(c, i, choice, none);
    forall j: nat | j < |c'.threads| && j != i
      ensures Compatible(c'.threads[i], c'.threads[j]) && Compatible(c'.threads[j], c'.threads[i]) &&
              SelfExclusive(c'.threads[j])
      ensures j < |c.threads| ==> c'.threads[j] == c.threads[j]
      ensures j >= |c.threads| ==> c'.threads[j].held == multiset{}
    {
      OthersStay(c, i, choice, j);
      if j < |c.threads| { PairKept(c, i, choice, c.threads[j]); }
    }
    forall j, k | 0 <= j < |c'.threads| && 0 <= k < |c'.threads| && j != k
      ensures Compatible(c'.threads[j], c'.threads[k])
    {
      if j != i && k != i && j < |c.threads| && k < |c.threads| {
        assert Compatible(c.threads[j], c.threads[k]);
      }
    }
  }
}
