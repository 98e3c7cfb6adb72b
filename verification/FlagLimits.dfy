/** Why the conditions on runs in FlagSerial.dfy are there: each of three runs meets all of them but one, and ends with
    modelLoaded set over a cancelled process. */
module FlagLimits {
  import opened LlmState
  import opened Goroutines
  import opened Discipline
  import opened Handlers
  import opened Supervision
  import opened Schedules
  import opened FlagSafety
  import opened FlagSerial
  import opened Effects

  const LOAD: ModelRequest := ModelRequest("m", "", 0, 0, 0, 0, "load")

  /** modelLoaded is set, no handler is under way, and the latest process has been cancelled. */
  predicate Wrong(c: Config) {
    !Busy(c) && c.data.loaded && HasLatest(c.data.llm) && Latest(c.data.llm).cancelled
  }

  // ---- Which conditions such runs meet ----

  /** Answered in {found}, a run has one lookup answer. */
  lemma {:induction false} OneAnswerOneLookup(c: Config, es: seq<Event>, found: bool)
    requires forall k :: 0 <= k < |es| && es[k].Step? ==> es[k].choice == found
    ensures OneLookup(c, es, found)
    decreases |es|
  {
    if es != [] { OneAnswerOneLookup(Next(c, es[0]), es[1..], found); }
  }

  lemma {:induction false} StepsDoNotOverlap(c: Config, es: seq<Event>)
    requires OnlySteps(es)
    ensures NoOverlap(c, es)
    decreases |es|
  {
    if es != [] { StepsDoNotOverlap(Next(c, es[0]), es[1..]); }
  }

  lemma {:induction false} NoOverlapConcat(c: Config, es: seq<Event>, fs: seq<Event>)
    requires NoOverlap(c, es) && NoOverlap(Exec(c, es), fs)
    ensures NoOverlap(c, es + fs)
    decreases |es|
  {
    if es == [] {
      assert es + fs == fs;
    } else {
      assert (es + fs)[1..] == es[1..] + fs;
      NoOverlapConcat(Next(c, es[0]), es[1..], fs);
    }
  }

  /** A request that arrives while nobody is busy does not overlap. */
  lemma ArrivesAlone(c: Config, es: seq<Event>, r: Request, env: set<bool>)
    requires ArrivesOnce(es, r, env) && !Busy(c)
    ensures NoOverlap(c, es)
  {
    assert forall k :: 0 <= k < |es[1..]| ==> es[1..][k].Step?;
    StepsDoNotOverlap(Next(c, es[0]), es[1..]);
  }

  /** Answered alike, they have one lookup answer. */
  lemma TwoAnswered(es: seq<Event>, fs: seq<Event>, q: Request, r: Request, a: bool)
    requires ArrivesOnce(es, q, {a}) && ArrivesOnce(fs, r, {a})
    ensures OneLookup(INIT, es + fs, a)
    ensures forall e :: e in es + fs && e.Arrive? ==> e.r == q || e.r == r
  {
    OneAnswerOneLookup(INIT, es + fs, a);
  }

  // ---- A load, step by step ----

  /** The goroutines, the flag and the supervisor. */
  predicate At(c: Config, threads: seq<Thread>, loaded: bool, m: Llm) {
    c.threads == threads && c.data.loaded == loaded && c.data.llm == m
  }

  /** The supervisor with the one process of a first load. */
  const LOADED_ONCE: Llm := Spawn(FRESH.(modelPath := "m"))

  /** The load goroutine run alone, with the binary found and every health answer good, up to its marking of the
      flag. */
  lemma LoaderToMark(s: Local) returns (t: Local)
    requires s.prog == Loader(HEALTH_POLLS) && s.data.llm.modelPath != ""
    ensures Leads(s, t, {true})
    ensures t == Local(MARK, s.held, s.data.(handed := s.data.workers, llm := StartOp(s.data.llm, true)),
                       s.children + [NewThread(ExitWatcher(|s.data.llm.procs|))])
  {
    var healthy := (i: nat) => true;
    t := LoaderToStart(s, {true});
    t := StartRuns(HEALTH_POLLS, MARK, Done, true, healthy, s, t, {true});
    assert healthy(0) && LlamaServer.AnswersBy(healthy, HEALTH_POLLS);
  }

  /** A load from its request to just after Start has returned without error. */
  lemma LoadedButNotMarked() returns (es: seq<Event>)
    ensures At(Exec(INIT, es), [ENDED, NewThread(MARK), NewThread(ExitWatcher(0))], false, LOADED_ONCE)
    ensures ArrivesOnce(es, ModelPost(LOAD), {true})
  {
    var e1 := PostAlone(INIT, LOAD, {true});
    var c1 := Exec(INIT, e1);
    assert c1.threads == [ENDED, NewThread(Loader(HEALTH_POLLS))];
    var e2 := MarkReached(c1);
    es := e1 + e2;
    ExecConcat(INIT, e1, e2);
  }

  lemma MarkReached(c: Config) returns (es: seq<Event>)
    requires At(c, [ENDED, NewThread(Loader(HEALTH_POLLS))], false, FRESH.(modelPath := "m"))
    ensures At(Exec(c, es), [ENDED, NewThread(MARK), NewThread(ExitWatcher(0))], false, LOADED_ONCE)
    ensures StepsIn(es, {true})
  {
    LoaderFine(HEALTH_POLLS, true);
    var t := LoaderToMark(LocalOf(c, 1));
    es := RunTo(c, 1, t, {true});
    assert c.threads[1 := NewThread(MARK)] + ([] + [NewThread(ExitWatcher(0))])
        == [ENDED, NewThread(MARK), NewThread(ExitWatcher(0))];
  }

  lemma MarkDisciplined()
    ensures Disciplined(MARK, multiset{}, true)
  {
    BroadcastFine(Done, multiset{}, true);
    SetApiFine(SetLoaded(true), Broadcast(Done), true);
  }

  /** The marking, run alone as goroutine 1. */
  lemma MarkAlone(c: Config) returns (es: seq<Event>)
    requires AllQuiet(c) && |c.threads| > 1 && c.threads[1] == NewThread(MARK)
    ensures At(Exec(c, es), c.threads[1 := ENDED], true, c.data.llm) && StepsIn(es, {true})
  {
    MarkDisciplined();
    var s := LocalOf(c, 1);
    LeadsToItself(s, {true});
    var t := MarkMoves(s, s, {true});
    es := RunTo(c, 1, t, {true});
    assert c.threads[1 := ENDED] + [] == c.threads[1 := ENDED];
  }

  /** A successful load, from arrival to end: a run that meets every condition and has the flag set. */
  lemma LoadAlone() returns (es: seq<Event>)
    ensures At(Exec(INIT, es), [ENDED, ENDED, NewThread(ExitWatcher(0))], true, LOADED_ONCE)
    ensures ArrivesOnce(es, ModelPost(LOAD), {true}) && !Busy(Exec(INIT, es))
    ensures NoOverlap(INIT, es) && OneLookup(INIT, es, true) && Keeping(es)
  {
    var e1 := LoadedButNotMarked();
    var c1 := Exec(INIT, e1);
    var e2 := MarkAlone(c1);
    es := e1 + e2;
    ExecConcat(INIT, e1, e2);
    assert c1.threads[1 := ENDED] == [ENDED, ENDED, NewThread(ExitWatcher(0))];
    ExitWatcherNeutral(0);
    ArrivesAlone(INIT, es, ModelPost(LOAD), {true});
    assert forall k :: 0 < k < |es| ==> es[k] == es[1..][k - 1];
    OneAnswerOneLookup(INIT, es, true);
  }

  // ---- The failing runs ----

  /** A DELETE, and behind it the marking by a load that was under way. */
  lemma DeleteThenMark(c: Config) returns (es: seq<Event>)
    requires c.threads == [ENDED, NewThread(MARK), NewThread(ExitWatcher(0))]
    ensures At(Exec(c, es), [ENDED, ENDED, NewThread(ExitWatcher(0)), ENDED], true, StopLocked(c.data.llm))
    ensures ArrivesOnce(es, ModelDelete, {true})
  {
    var e1 := DeleteAlone(c, {true});
    var c1 := Exec(c, e1);
    assert c1.threads == [ENDED, NewThread(MARK), NewThread(ExitWatcher(0)), ENDED];
    var e2 := MarkAlone(c1);
    es := e1 + e2;
    ExecConcat(c, e1, e2);
    assert c1.threads[1 := ENDED] == [ENDED, ENDED, NewThread(ExitWatcher(0)), ENDED];
  }

  /** With one lookup answer but an overlap: a DELETE between a load's success and its setting of the flag leaves
      the flag set over the process it cancelled. */
  lemma OverlapBreaksFlag() returns (es: seq<Event>)
    ensures Wrong(Exec(INIT, es)) && Keeping(es) && OneLookup(INIT, es, true)
  {
    var e1 := LoadedButNotMarked();
    var c1 := Exec(INIT, e1);
    var e2 := DeleteThenMark(c1);
    es := e1 + e2;
    ExecConcat(INIT, e1, e2);
    TwoAnswered(e1, e2, ModelPost(LOAD), ModelDelete, true);
    StoppedIsWrong(Exec(c1, e2));
  }

  lemma StoppedIsWrong(c: Config)
    requires At(c, [ENDED, ENDED, NewThread(ExitWatcher(0)), ENDED], true, StopLocked(LOADED_ONCE))
    ensures Wrong(c)
  {
    ExitWatcherNeutral(0);
  }

  /** A load request that does not find the binary, from arrival to end. */
  lemma FailingLoadAlone(c: Config) returns (es: seq<Event>)
    requires AllQuiet(c)
    ensures At(Exec(c, es), c.threads + [ENDED, ENDED], c.data.loaded, StartOp(c.data.llm.(modelPath := "m"), false))
    ensures ArrivesOnce(es, ModelPost(LOAD), {false})
  {
    var e1 := PostAlone(c, LOAD, {false});
    var c1 := Exec(c, e1);
    LoaderFine(HEALTH_POLLS, true);
    var k := |c.threads| + 1;
    var t := LoaderRuns(LocalOf(c1, k), false, (i: nat) => false, {false});
    var e2 := RunTo(c1, k, t, {false});
    es := e1 + e2;
    ExecConcat(c, e1, e2);
    assert c1.threads[k := ENDED] + [] == c.threads + [ENDED, ENDED];
  }

  /** Start leaves a standing process standing exactly unless it has a path, stops a running process and then finds
      no binary. */
  lemma FailedStartCancels(m: Llm, found: bool)
    requires Inv(m) && Standing(m)
    ensures Standing(StartOp(m, found)) <==> !(m.modelPath != "" && m.isRunning && !found)
  {
    StopKeeps(m);
  }

  /** A failing load behind a successful one. */
  lemma SecondLoadFails(c: Config) returns (es: seq<Event>)
    requires At(c, [ENDED, ENDED, NewThread(ExitWatcher(0))], true, LOADED_ONCE)
    ensures ArrivesOnce(es, ModelPost(LOAD), {false}) && NoOverlap(c, es) && Wrong(Exec(c, es))
  {
    es := FailingLoadAlone(c);
    var c' := Exec(c, es);
    assert c'.threads == [ENDED, ENDED, NewThread(ExitWatcher(0)), ENDED, ENDED];
    ExitWatcherNeutral(0);
    ArrivesAlone(c, es, ModelPost(LOAD), {false});
  }

  /** Without an overlap but with two lookup answers: a second load that finds the binary gone cancels the process
      of the first and leaves the flag set. */
  lemma ChangedLookupBreaksFlag() returns (es: seq<Event>)
    ensures Wrong(Exec(INIT, es)) && Keeping(es) && NoOverlap(INIT, es)
  {
    var e1 := LoadAlone();
    var e2 := SecondLoadFails(Exec(INIT, e1));
    es := e1 + e2;
    ExecConcat(INIT, e1, e2);
    NoOverlapConcat(INIT, e1, e2);
  }

  /** A bare stop behind a successful load. */
  lemma StopBehindLoad(c: Config) returns (es: seq<Event>)
    requires At(c, [ENDED, ENDED, NewThread(ExitWatcher(0))], true, LOADED_ONCE)
    ensures ArrivesOnce(es, LlmStop, {true}) && NoOverlap(c, es) && Wrong(Exec(c, es))
  {
    es := OneSectionAlone(c, LlmStop, W(LlmMu), StopProcess, {true});
    var c' := Exec(c, es);
    assert c'.threads == [ENDED, ENDED, NewThread(ExitWatcher(0)), ENDED];
    StoppedIsWrong(c');
    ExitWatcherNeutral(0);
    ArrivesAlone(c, es, LlmStop, {true});
  }

  /** Without an overlap and with one lookup answer: a stop of the supervisor alone leaves the flag set over the
      process it cancelled. */
  lemma BareStopBreaksFlag() returns (es: seq<Event>)
    ensures Wrong(Exec(INIT, es)) && NoDirectSet(es) && NoOverlap(INIT, es) && OneLookup(INIT, es, true)
  {
    var e1 := LoadAlone();
    var e2 := StopBehindLoad(Exec(INIT, e1));
    es := e1 + e2;
    ExecConcat(INIT, e1, e2);
    TwoAnswered(e1, e2, ModelPost(LOAD), LlmStop, true);
    NoOverlapConcat(INIT, e1, e2);
  }
}
