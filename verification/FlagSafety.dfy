/** The API server's modelLoaded flag against the supervisor's processes, in every run: when it can be set over a
    process that has been cancelled. */
module FlagSafety {
  import opened LlmState
  import opened Goroutines
  import opened Discipline
  import opened Handlers
  import opened Supervision

  /** The latest spawned process has been cancelled. */
  predicate Cancelled(m: Llm) { HasLatest(m) && Latest(m).cancelled }

  /** Whatever the environment answers, the program clears the flag. */
  predicate WillClear(p: Prog) {
    match p
    case Done => false
    case Acquire(_, q) => WillClear(q)
    case Release(_, q) => WillClear(q)
    case Do(a, y, n) => a == SetLoaded(false) || (WillClear(y) && WillClear(n))
    case Go(_, q) => WillClear(q)
    case Await(q) => WillClear(q)
  }

  // ---- What a run remembers ----

  /** `stopped`: the start under way has stopped a running process and not yet looked for the binary. The others
      are about the time since the latest spawn.  `missed`: a start that had stopped the process found no binary.
      `overtaken`: the flag was set when the process had already been cancelled.  `dropped`: a stop that does not
      go on to clear the flag cancelled the process. */
  datatype History = History(stopped: bool, missed: bool, overtaken: bool, dropped: bool) {
    predicate Broken() { missed || overtaken || dropped }
  }

  const NO_HISTORY: History := History(false, false, false, false)

  /** An action on supervisor state m that goes on with y. */
  function Remember(a: Action, y: Prog, m: Llm, choice: bool, h: History): History {
    match a
    case StopRunning => h.(stopped := m.isRunning)
    case FindBinary => h.(stopped := false, missed := h.missed || (h.stopped && !choice))
    case SpawnProcess => NO_HISTORY
    case SetLoaded(b) => h.(overtaken := h.overtaken || (b && Cancelled(m)))
    case StopProcess => h.(dropped := h.dropped || (HasLatest(m) && !WillClear(y)))
    case _ => h
  }

  function HistoryAfter(c: Config, e: Event, h: History): History {
    if e.Step? && Enabled(c, e.i) && c.threads[e.i].prog.Do?
    then Remember(c.threads[e.i].prog.a, c.threads[e.i].prog.yes, c.data.llm, e.choice, h)
    else h
  }

  function HistoryOf(c: Config, es: seq<Event>, h: History): History
    decreases |es|
  {
    if es == [] then h else HistoryOf(Next(c, es[0]), es[1..], HistoryAfter(c, es[0], h))
  }

  // ---- The invariant of every run ----

  /** The program is going to clear the flag or to replace the process: it is about to spawn one, or to look for the
      binary behind its stop. */
  predicate Mends(p: Prog, h: History) { WillClear(p) || Spawns(p) || (h.stopped && Looks(p)) }

  predicate Mending(c: Config, h: History) {
    exists i :: 0 <= i < |c.threads| && Mends(c.threads[i].prog, h)
  }

  /** The flag is set over a cancelled process for none of the reasons that the history knows. */
  predicate Unexplained(d: Data, h: History) { d.loaded && Cancelled(d.llm) && !h.Broken() }

  predicate Founded(m: Llm, h: History) { h.stopped || h.Broken() ==> Cancelled(m) }

  predicate HistoryInv(c: Config, h: History) {
    Founded(c.data.llm, h) && (Unexplained(c.data, h) ==> Mending(c, h))
  }

  lemma RecordExitCancelled(m: Llm, g: nat)
    ensures Cancelled(RecordExit(m, g)) == Cancelled(m)
  {
  }

  /** What a reason stands on stays. */
  lemma StaysFounded(a: Action, y: Prog, d: Data, choice: bool, h: History)
    requires Inv(d.llm) && Founded(d.llm, h)
    ensures Founded(Perform(a, d, choice).0.llm, Remember(a, y, d.llm, choice, h))
  {
    if a.StopProcess? || a.StopRunning? { StopKeeps(d.llm); }
    if a.ClearRunning? { RecordExitCancelled(d.llm, a.g); }
  }

  /** A goroutine that acts and leaves the flag unexplained mends it itself, unless it was so before and another
      mends it. */
  lemma ActsOrMends(t: Thread, d: Data, choice: bool, h: History)
    requires t.prog.Do? && ThreadOk(t, d) && Inv(d.llm)
    ensures var (d', b) := Perform(t.prog.a, d, choice);
            var h' := Remember(t.prog.a, t.prog.yes, d.llm, choice, h);
            Unexplained(d', h') && !Mends(if b then t.prog.yes else t.prog.no, h') ==>
            Unexplained(d, h) && !Mends(t.prog, h) && (h'.stopped == h.stopped || Holds(t, W(LlmMu)))
  {
    match t.prog.a
    case StopProcess => StopKeeps(d.llm);
    case StopRunning => StopKeeps(d.llm);
    case SpawnProcess =>
    case SetLoaded(_) =>
    case FindBinary =>
    case _ => OthersSetNothing(t.prog.a, t.prog.yes, d, choice, h);
  }

  lemma OthersSetNothing(a: Action, y: Prog, d: Data, choice: bool, h: History)
    requires !a.StopProcess? && !a.StopRunning? && !a.SpawnProcess? && !a.SetLoaded? && !a.FindBinary?
    ensures var d' := Perform(a, d, choice).0;
            d'.loaded == d.loaded && Cancelled(d'.llm) == Cancelled(d.llm) && Remember(a, y, d.llm, choice, h) == h
  {
    if a.ClearRunning? { RecordExitCancelled(d.llm, a.g); }
  }

  lemma NextHistory(c: Config, e: Event, h: History)
    requires SystemInv(c) && HistoryInv(c, h)
    ensures HistoryInv(Next(c, e), HistoryAfter(c, e, h))
  {
    var c', h' := Next(c, e), HistoryAfter(c, e, h);
    if e.Step? && Enabled(c, e.i) {
      assert ThreadOk(c.threads[e.i], c.data);
      if c.threads[e.i].prog.Do? {
        ActionHistory(c, e.i, e.choice, h);
      } else if j :| 0 <= j < |c.threads| && Mends(c.threads[j].prog, h) {
        if j != e.i { OthersStay(c, e.i, e.choice, j); }
        assert Mends(c'.threads[j].prog, h);
      }
    } else if j :| 0 <= j < |c.threads| && Mends(c.threads[j].prog, h) {
      assert Mends(c'.threads[j].prog, h);
    }
  }

  lemma ActionHistory(c: Config, i: nat, choice: bool, h: History)
    requires SystemInv(c) && HistoryInv(c, h) && Enabled(c, i) && c.threads[i].prog.Do?
    ensures HistoryInv(After(c, i, choice), HistoryAfter(c, Step(i, choice), h))
  {
    var t := c.threads[i];
    var c', h' := After(c, i, choice), HistoryAfter(c, Step(i, choice), h);
    assert ThreadOk(t, c.data);
    StaysFounded(t.prog.a, t.prog.yes, c.data, choice, h);
    ActsOrMends(t, c.data, choice, h);
    if Unexplained(c'.data, h') {
      if Mends(c'.threads[i].prog, h') {
        assert Mending(c', h');
      } else {
        var j :| 0 <= j < |c.threads| && Mends(c.threads[j].prog, h);
        StillMends(c, i, j, h, h');
        OthersStay(c, i, choice, j);
        assert Mends(c'.threads[j].prog, h');
      }
    }
  }

  /** Only one goroutine at a time holds the supervisor's mutex, so nobody else ends the wait for a lookup. */
  lemma StillMends(c: Config, i: nat, j: nat, h: History, h': History)
    requires SystemInv(c) && i < |c.threads| && j < |c.threads| && i != j && Mends(c.threads[j].prog, h)
    requires h'.stopped == h.stopped || Holds(c.threads[i], W(LlmMu))
    ensures Mends(c.threads[j].prog, h')
  {
    assert ThreadOk(c.threads[j], c.data);
    assert Compatible(c.threads[i], c.threads[j]);
  }

  lemma {:induction false} ExecHistory(c: Config, es: seq<Event>, h: History)
    requires SystemInv(c) && HistoryInv(c, h)
    ensures HistoryInv(Exec(c, es), HistoryOf(c, es, h))
    decreases |es|
  {
    if es != [] {
      NextHistory(c, es[0], h);
      NextKeeps(c, es[0]);
      ExecHistory(Next(c, es[0]), es[1..], HistoryAfter(c, es[0], h));
    }
  }

  // ---- Every run ----

  /** In every reachable state: each of the three reasons means that the latest process has been cancelled; and
      while the flag is set over a cancelled process, there is such a reason, or a goroutine is going to clear the
      flag or to replace the process. */
  lemma CancelledExplained(es: seq<Event>)
    ensures var c, h := Exec(INIT, es), HistoryOf(INIT, es, NO_HISTORY);
            (h.Broken() ==> Cancelled(c.data.llm)) &&
            (c.data.loaded && Cancelled(c.data.llm) ==> h.Broken() || Mending(c, h))
  {
    InitInv();
    ExecHistory(INIT, es, NO_HISTORY);
  }

  predicate Sets(a: Action) {
    a.SetLoaded? || a.SpawnProcess? || a.StopProcess? || a.StopRunning? || a.FindBinary?
  }

  /** The program can change the flag, look for the binary, or cancel or spawn a process. */
  predicate Touches(p: Prog) {
    match p
    case Done => false
    case Acquire(_, q) => Touches(q)
    case Release(_, q) => Touches(q)
    case Do(a, y, n) => Sets(a) || Touches(y) || Touches(n)
    case Go(ch, q) => Touches(ch) || Touches(q)
    case Await(q) => Touches(q)
  }

  predicate Busy(c: Config) {
    exists i :: 0 <= i < |c.threads| && Touches(c.threads[i].prog)
  }

  lemma {:induction false} ClearingTouches(p: Prog)
    requires WillClear(p)
    ensures Touches(p)
  {
    match p
    case Acquire(_, q) => ClearingTouches(q);
    case Release(_, q) => ClearingTouches(q);
    case Do(a, y, n) => if a != SetLoaded(false) { ClearingTouches(y); }
    case Go(_, q) => ClearingTouches(q);
    case Await(q) => ClearingTouches(q);
  }

  lemma MendingBusy(c: Config, h: History)
    requires Mending(c, h)
    ensures Busy(c)
  {
    var i :| 0 <= i < |c.threads| && Mends(c.threads[i].prog, h);
    if WillClear(c.threads[i].prog) { ClearingTouches(c.threads[i].prog); }
    assert Touches(c.threads[i].prog);
  }

  /** In every run, whenever no goroutine is about to touch flag or processes and modelLoaded is set: the latest
      process has been cancelled if and only if since its spawn a start that had stopped it found no binary, or the
      flag was set when it had already been cancelled, or a stop cancelled it that does not clear the flag. */
  lemma LoadedCancelledIff(es: seq<Event>)
    requires Exec(INIT, es).data.loaded && !Busy(Exec(INIT, es))
    ensures Cancelled(Exec(INIT, es).data.llm) <==> HistoryOf(INIT, es, NO_HISTORY).Broken()
  {
    CancelledExplained(es);
    var c, h := Exec(INIT, es), HistoryOf(INIT, es, NO_HISTORY);
    if Mending(c, h) { MendingBusy(c, h); }
  }
}
