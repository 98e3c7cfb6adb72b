/** The mutable state of the llama-server supervisor and its critical sections as functions.
    Spawned processes are numbered by generation: a process is its index in `procs`.  Code
    that runs under the supervisor's mutex is one function each; the class in
    LlamaServer.dfy and the goroutine machine in Goroutines.dfy both use these. */
module LlmState {
  import opened Wrappers

  /** Start gives up after this many health requests without a good answer. */
  const HEALTH_POLLS: nat := 30

  /** `cancelled`: its context's cancel function was called.
      `recorded`: its exit goroutine has run its critical section. */
  datatype Proc = Proc(cancelled: bool, recorded: bool) {
    /** Neither cancelled nor known to have exited. */
    predicate Live() { !cancelled && !recorded }
  }

  /** Two history counters of exits recorded by a generation that was not the latest: `stale` counts all of them,
      `late` those since the latest generation was spawned. */
  datatype Llm = Llm(modelPath: string, isRunning: bool, cancel: Option<nat>, procs: seq<Proc>, stale: nat,
                       late: nat)

  const FRESH: Llm := Llm("", false, None, [], 0, 0)

  /** stopLocked: call and drop the cancel function, clear the flag. */
  function StopLocked(m: Llm): Llm {
    var procs := if m.cancel.Some? && m.cancel.value < |m.procs|
                 then m.procs[m.cancel.value := m.procs[m.cancel.value].(cancelled := true)] else m.procs;
    m.(procs := procs, cancel := None, isRunning := false)
  }

  function StopIfRunning(m: Llm): Llm {
    if m.isRunning then StopLocked(m) else m
  }

  /** New context, new cancel function, new process; the old cancel function is overwritten. */
  function Spawn(m: Llm): Llm {
    m.(cancel := Some(|m.procs|), procs := m.procs + [Proc(false, false)], isRunning := true, late := 0)
  }

  /** The exit goroutine of generation g: it clears the flag without asking which process exited. */
  function RecordExit(m: Llm, g: nat): Llm {
    if g < |m.procs| then
      m.(isRunning := false,
         procs := m.procs[g := m.procs[g].(recorded := true)],
         stale := if g == |m.procs| - 1 then m.stale else m.stale + 1,
         late := if g == |m.procs| - 1 then m.late else m.late + 1)
    else m
  }

  /** How many processes of a list are live. */
  function CountLive(procs: seq<Proc>): nat {
    if procs == [] then 0
    else CountLive(procs[..|procs|-1]) + if procs[|procs|-1].Live() then 1 else 0
  }

  /** Live processes older than the latest generation: nothing can cancel them any more. */
  function Lost(m: Llm): nat {
    if m.procs == [] then 0 else CountLive(m.procs[..|m.procs|-1])
  }

  predicate HasLatest(m: Llm) { |m.procs| > 0 }

  function Latest(m: Llm): Proc
    requires HasLatest(m)
  {
    m.procs[|m.procs|-1]
  }

  /** The latest process is live although the flag says that nothing runs. */
  predicate Orphaned(m: Llm) {
    HasLatest(m) && Latest(m).Live() && !m.isRunning
  }

  /** The cancel function is held exactly while the latest generation is uncancelled. */
  predicate CancelExact(m: Llm) {
    m.cancel == if HasLatest(m) && !Latest(m).cancelled then Some(|m.procs| - 1) else None
  }

  /** What the flag says: the latest process is live, and no older one has recorded its exit since that was spawned. */
  predicate FlagExact(m: Llm) {
    m.isRunning <==> HasLatest(m) && Latest(m).Live() && m.late == 0
  }

  /** Every lost process, and an orphaned latest one, is paid for by a stale exit. */
  predicate LossPaid(m: Llm) {
    Lost(m) + (if Orphaned(m) then 1 else 0) <= m.stale
  }

  predicate Inv(m: Llm) {
    CancelExact(m) && FlagExact(m) && LossPaid(m) && m.late <= m.stale
  }

  lemma {:induction false} CountLiveUpdate(procs: seq<Proc>, g: nat, p: Proc)
    requires g < |procs|
    ensures CountLive(procs[g := p]) ==
            CountLive(procs) - (if procs[g].Live() then 1 else 0) + (if p.Live() then 1 else 0)
  {
    var n := |procs| - 1;
    if g == n {
      assert procs[g := p][..n] == procs[..n];
    } else {
      assert procs[g := p][..n] == procs[..n][g := p];
      CountLiveUpdate(procs[..n], g, p);
    }
  }

  /** Stopping kills the latest process whatever the flag said, and loses none. */
  lemma StopKeeps(m: Llm)
    requires Inv(m)
    ensures var s := StopLocked(m);
            Inv(s) && !s.isRunning && s.cancel == None && |s.procs| == |m.procs| && Lost(s) == Lost(m) &&
            (HasLatest(s) ==> Latest(s).cancelled)
    ensures var s := StopLocked(m);
            s.modelPath == m.modelPath && (HasLatest(m) ==> Latest(s).recorded == Latest(m).recorded) &&
            forall g :: 0 <= g < |m.procs| - 1 ==> s.procs[g] == m.procs[g]
  {
    var s := StopLocked(m);
    if HasLatest(m) {
      assert s.procs[..|s.procs|-1] == m.procs[..|m.procs|-1];
    }
  }

  /** Spawning while the flag is clear keeps the accounting: an orphaned process becomes a lost one. */
  lemma SpawnKeeps(m: Llm)
    requires Inv(m) && !m.isRunning
    ensures Inv(Spawn(m)) && Latest(Spawn(m)).Live()
    ensures Lost(Spawn(m)) == Lost(m) + if Orphaned(m) then 1 else 0
  {
    var s := Spawn(m);
    assert s.procs[..|s.procs|-1] == m.procs;
    if HasLatest(m) {
      assert m.procs == m.procs[..|m.procs|-1] + [Latest(m)];
    }
  }

  lemma RecordExitKeeps(m: Llm, g: nat)
    requires Inv(m)
    ensures Inv(RecordExit(m, g))
  {
    var s := RecordExit(m, g);
    var n := |m.procs| - 1;
    if g < n {
      assert s.procs[..n] == m.procs[..n][g := s.procs[g]];
      CountLiveUpdate(m.procs[..n], g, s.procs[g]);
    } else if g == n {
      assert s.procs[..n] == m.procs[..n];
    }
  }

  /** An exit orphans the latest process exactly when it is another one's and the latest is live. */
  lemma ExitOrphansIff(m: Llm, g: nat)
    requires g < |m.procs|
    ensures Orphaned(RecordExit(m, g)) <==> g != |m.procs| - 1 && Latest(m).Live()
  {
  }

  /** An exit changes the number of lost processes exactly when it is that of a lost one. */
  lemma RecordExitLost(m: Llm, g: nat)
    requires g < |m.procs|
    ensures Lost(RecordExit(m, g)) == Lost(m) - if g != |m.procs| - 1 && m.procs[g].Live() then 1 else 0
  {
    var s := RecordExit(m, g);
    var n := |m.procs| - 1;
    if g < n {
      assert s.procs[..n] == m.procs[..n][g := s.procs[g]];
      CountLiveUpdate(m.procs[..n], g, s.procs[g]);
    } else {
      assert s.procs[..n] == m.procs[..n];
    }
  }

  /** Number of live processes in a state that keeps the invariant. */
  lemma LiveBound(m: Llm)
    requires Inv(m)
    ensures CountLive(m.procs) <= m.stale + 1
    ensures m.stale == 0 ==> forall g :: 0 <= g < |m.procs| && m.procs[g].Live() ==> g == |m.procs| - 1 && m.isRunning
  {
    if HasLatest(m) {
      assert m.procs == m.procs[..|m.procs|-1] + [Latest(m)];
      if m.stale == 0 {
        NoneLive(m.procs[..|m.procs|-1]);
      }
    }
  }

  lemma {:induction false} NoneLive(procs: seq<Proc>)
    requires CountLive(procs) == 0
    ensures forall g :: 0 <= g < |procs| ==> !procs[g].Live()
  {
    if procs != [] {
      NoneLive(procs[..|procs|-1]);
    }
  }

  // ---- Whole operations, each one critical section ----

  /** Start once its path check has passed or failed and the binary was `found` or not. */
  function StartOp(m: Llm, found: bool): Llm {
    if m.modelPath == "" then m
    else if found then Spawn(StopIfRunning(m)) else StopIfRunning(m)
  }

  function StartNonBlockingOp(m: Llm, found: bool): Llm {
    if m.modelPath == "" || m.isRunning || !found then m else Spawn(m)
  }

  /** The exit of the predecessor, recorded after its successor was started, orphans the successor; the next start
      loses it. */
  lemma LosingRound(m: Llm)
    requires Inv(m) && m.isRunning && m.modelPath != ""
    ensures var g := |m.procs| - 1;
            var late := RecordExit(StartOp(m, true), g);
            var e := StartOp(late, true);
            Orphaned(late) && Inv(e) && e.isRunning && e.modelPath == m.modelPath && |e.procs| == |m.procs| + 2 &&
            e.stale == m.stale + 1 && Lost(e) == Lost(m) + 1
  {
    var g := |m.procs| - 1;
    var s := StopLocked(m);
    StopKeeps(m);
    SpawnKeeps(s);
    var a := Spawn(s);
    var b := RecordExit(a, g);
    RecordExitKeeps(a, g);
    var n := |a.procs| - 1;
    assert b.procs[..n] == a.procs[..n][g := b.procs[g]];
    CountLiveUpdate(a.procs[..n], g, b.procs[g]);
    assert a.procs[g] == Latest(s);
    assert Orphaned(b);
    SpawnKeeps(b);
  }
}
