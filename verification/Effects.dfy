/** What each request does to the server's data when it runs alone, from any quiet state, to its end. */
module Effects {
  import opened Wrappers
  import opened LlmState
  import opened Goroutines
  import opened Handlers
  import opened Schedules

  // ---- Pieces of programs ----

  lemma BroadcastMoves(k: Prog, s0: Local, s: Local, env: set<bool>) returns (t: Local)
    requires Answerable(env) && Leads(s0, s, env) && s.prog == Broadcast(k)
    ensures Leads(s0, t, env)
    ensures var told := s.data.told + [Update(s.data.apiPath, s.data.loaded, s.data.workers)];
            t == s.(prog := k, data := s.data.(told := told))
  {
    assert s.held + multiset{R(ApiMu)} - multiset{R(ApiMu)} == s.held;
    t := LockMove(s0, s, env);
    t := SectionAlone(R(DiscMu), DiscRead, Act(Publish, Release(R(ApiMu), k)), s0, t, env);
    t := ActionMove(s0, t, env, Any(env));
    t := LockMove(s0, t, env);
  }

  lemma OptionalMoves(b: bool, o: Setting, k: Prog, s0: Local, s: Local, env: set<bool>) returns (t: Local)
    requires Answerable(env) && Leads(s0, s, env) && s.prog == Optional(b, o, k)
    ensures Leads(s0, t, env)
    ensures t == s.(prog := k, data := s.data.(opts := if b then Store(s.data.opts, o) else s.data.opts))
  {
    t := s;
    if b { t := SectionAlone(W(LlmMu), SetOption(o), k, s0, s, env); }
  }

  /** The options after a POST: the mmproj as it is given, the others where they are given. */
  function Given(q: ModelRequest, o: Options): Options {
    Options(q.mmproj, if q.ctx > 0 then q.ctx else o.ctx, if q.gpu != 0 then q.gpu else o.gpu,
            if q.threads > 0 then q.threads else o.threads, if q.predict > 0 then q.predict else o.predict)
  }

  /** The settings that are stored only where they are given. */
  function GivenSettings(q: ModelRequest, k: Prog): Prog {
    Optional(q.ctx > 0, CtxSize(q.ctx), Optional(q.gpu != 0, GPULayers(q.gpu),
      Optional(q.threads > 0, Threads(q.threads), Optional(q.predict > 0, Predict(q.predict), k))))
  }

  lemma GivenMoves(q: ModelRequest, k: Prog, s0: Local, s: Local, env: set<bool>) returns (t: Local)
    requires Answerable(env) && Leads(s0, s, env) && s.prog == GivenSettings(q, k)
    ensures Leads(s0, t, env)
    ensures t == s.(prog := k, data := s.data.(opts := Given(q, s.data.opts).(mmproj := s.data.opts.mmproj)))
  {
    var p1 := Optional(q.predict > 0, Predict(q.predict), k);
    var p2 := Optional(q.threads > 0, Threads(q.threads), p1);
    var p3 := Optional(q.gpu != 0, GPULayers(q.gpu), p2);
    t := OptionalMoves(q.ctx > 0, CtxSize(q.ctx), p3, s0, s, env);
    t := OptionalMoves(q.gpu != 0, GPULayers(q.gpu), p2, s0, t, env);
    t := OptionalMoves(q.threads > 0, Threads(q.threads), p1, s0, t, env);
    t := OptionalMoves(q.predict > 0, Predict(q.predict), k, s0, t, env);
  }

  lemma SettingsMoves(q: ModelRequest, k: Prog, s0: Local, s: Local, env: set<bool>) returns (t: Local)
    requires Answerable(env) && Leads(s0, s, env) && s.prog == PostSettings(q, k)
    ensures Leads(s0, t, env)
    ensures var d := s.data;
            t == s.(prog := k, data := d.(llm := d.llm.(modelPath := q.path), opts := Given(q, d.opts)))
  {
    var given := GivenSettings(q, k);
    t := SectionAlone(W(LlmMu), SetLlmPath(q.path), Locked(SetOption(MMProj(q.mmproj)), given), s0, s, env);
    t := SectionAlone(W(LlmMu), SetOption(MMProj(q.mmproj)), given, s0, t, env);
    t := GivenMoves(q, k, s0, t, env);
  }

  // ---- The model POST ----

  predicate Starts(q: ModelRequest) { q.action == "start" || q.action == "load" }

  predicate Stops(q: ModelRequest) { q.action == "stop" || q.action == "unload" }

  lemma UnloadMoves(s0: Local, s: Local, env: set<bool>) returns (t: Local)
    requires Answerable(env) && Leads(s0, s, env)
    requires s.prog == Locked(StopProcess, SetApi(SetLoaded(false), Broadcast(Done)))
    ensures Leads(s0, t, env)
    ensures var d := s.data;
            t == s.(prog := Done, data := d.(llm := StopLocked(d.llm), loaded := false,
                                             told := d.told + [Update(d.apiPath, false, d.workers)]))
  {
    t := SectionAlone(W(LlmMu), StopProcess, SetApi(SetLoaded(false), Broadcast(Done)), s0, s, env);
    t := SectionAlone(W(ApiMu), SetLoaded(false), Broadcast(Done), s0, t, env);
    t := BroadcastMoves(Done, s0, t, env);
  }

  /** The API server's own section of a POST. */
  lemma StoreMoves(q: ModelRequest, s0: Local, s: Local, env: set<bool>) returns (t: Local)
    requires Answerable(env) && Leads(s0, s, env) && s.prog == Post(q, HEALTH_POLLS)
    ensures Leads(s0, t, env)
    ensures var d := s.data;
            t == s.(prog := PostSettings(q, PostAction(q.action, HEALTH_POLLS)),
                    data := d.(apiPath := q.path, apiMMProj := if q.mmproj != "" then q.mmproj else d.apiMMProj))
  {
    assert s.held + multiset{W(ApiMu)} - multiset{W(ApiMu)} == s.held;
    t := LockMove(s0, s, env);
    t := ActionMove(s0, t, env, Any(env));
    if q.mmproj != "" { t := ActionMove(s0, t, env, Any(env)); }
    t := LockMove(s0, t, env);
  }

  /** What a POST does behind the settings. */
  lemma PostActionMoves(q: ModelRequest, s0: Local, s: Local, env: set<bool>) returns (t: Local)
    requires Answerable(env) && Leads(s0, s, env) && s.prog == PostAction(q.action, HEALTH_POLLS)
    ensures Leads(s0, t, env) && t.prog == Done && t.held == s.held
    ensures t.children == s.children + if Starts(q) then [NewThread(Loader(HEALTH_POLLS))] else []
    ensures var d := s.data;
            t.data == if Stops(q) then d.(llm := StopLocked(d.llm), loaded := false,
                                          told := d.told + [Update(d.apiPath, false, d.workers)])
                      else d
  {
    t := s;
    if Starts(q) {
      ThenMove(s0, s, env, Any(env));
      t := Move(s, Any(env));
    } else if Stops(q) {
      t := UnloadMoves(s0, s, env);
    }
  }

  lemma PostMoves(q: ModelRequest, s: Local, env: set<bool>) returns (t: Local)
    requires Answerable(env) && s.prog == Post(q, HEALTH_POLLS)
    ensures Leads(s, t, env) && t.prog == Done && t.held == s.held
    ensures t.children == s.children + if Starts(q) then [NewThread(Loader(HEALTH_POLLS))] else []
    ensures t.data == Posted(q, s.data)
  {
    LeadsToItself(s, env);
    t := StoreMoves(q, s, s, env);
    t := SettingsMoves(q, PostAction(q.action, HEALTH_POLLS), s, t, env);
    t := PostActionMoves(q, s, t, env);
  }

  /** The data after a POST. */
  function Posted(q: ModelRequest, d: Data): Data {
    var m := d.llm.(modelPath := q.path);
    d.(apiPath := q.path, apiMMProj := if q.mmproj != "" then q.mmproj else d.apiMMProj, opts := Given(q, d.opts),
       llm := if Stops(q) then StopLocked(m) else m, loaded := d.loaded && !Stops(q),
       told := if Stops(q) then d.told + [Update(q.path, false, d.workers)] else d.told)
  }

  /** The model POST, whatever it asks for. */
  lemma PostAlone(c: Config, q: ModelRequest, env: set<bool>) returns (es: seq<Event>)
    requires AllQuiet(c) && Answerable(env)
    ensures ArrivesOnce(es, ModelPost(q), env)
    ensures Exec(c, es).data == Posted(q, c.data)
    ensures Exec(c, es).threads == c.threads + [ENDED] + if Starts(q) then [NewThread(Loader(HEALTH_POLLS))] else []
  {
    var t := PostMoves(q, Local(Code(ModelPost(q)), multiset{}, c.data, []), env);
    es := ArriveAndRun(c, ModelPost(q), t, env);
  }

  /** So it stores the path on both sides, and an unload stops the supervisor, clears the flag and tells the
      clients, while a load or any other action leaves process and flag alone. */
  lemma PostedPlainly(q: ModelRequest, d: Data)
    requires Inv(d.llm)
    ensures var d' := Posted(q, d);
            d'.apiPath == d'.llm.modelPath == q.path && d'.opts.mmproj == q.mmproj &&
            (q.mmproj != "" ==> d'.apiMMProj == q.mmproj) && (q.mmproj == "" ==> d'.apiMMProj == d.apiMMProj) &&
            (q.ctx > 0 ==> d'.opts.ctx == q.ctx) && (q.ctx <= 0 ==> d'.opts.ctx == d.opts.ctx) &&
            (q.gpu != 0 ==> d'.opts.gpu == q.gpu) && (q.gpu == 0 ==> d'.opts.gpu == d.opts.gpu) &&
            (q.threads > 0 ==> d'.opts.threads == q.threads) &&
                (q.threads <= 0 ==> d'.opts.threads == d.opts.threads) &&
            (q.predict > 0 ==> d'.opts.predict == q.predict) &&
                (q.predict <= 0 ==> d'.opts.predict == d.opts.predict) &&
            d'.handed == d.handed && d'.workers == d.workers && d'.clients == d.clients && d'.writes == d.writes
    ensures var d' := Posted(q, d);
            q.action == "stop" || q.action == "unload" ==>
              !d'.loaded && !d'.llm.isRunning && d'.llm.cancel == None && |d'.llm.procs| == |d.llm.procs| &&
              (HasLatest(d'.llm) ==> Latest(d'.llm).cancelled) && d'.told == d.told + [Update(q.path, false, d.workers)]
    ensures var d' := Posted(q, d);
            q.action != "stop" && q.action != "unload" ==>
              d'.loaded == d.loaded && d'.llm.isRunning == d.llm.isRunning && d'.llm.cancel == d.llm.cancel &&
              d'.llm.procs == d.llm.procs && d'.told == d.told
  {
    StopKeeps(d.llm.(modelPath := q.path));
  }

  // ---- The load goroutine ----

  /** What the load goroutine does once Start has returned without error. */
  const MARK: Prog := SetApi(SetLoaded(true), Broadcast(Done))

  /** The hand-over of the worker list, up to the call of Start. */
  lemma LoaderToStart(s: Local, env: set<bool>) returns (t: Local)
    requires Answerable(env) && s.prog == Loader(HEALTH_POLLS)
    ensures Leads(s, t, env)
    ensures t == s.(prog := Handlers.Start(HEALTH_POLLS, MARK, Done), data := s.data.(handed := s.data.workers))
  {
    var start := Handlers.Start(HEALTH_POLLS, MARK, Done);
    assert s.held + multiset{W(ApiMu)} - multiset{W(ApiMu)} == s.held;
    LeadsToItself(s, env);
    t := LockMove(s, s, env);
    t := SectionAlone(W(LlmMu), HandOver, Release(W(ApiMu), start), s, t, env);
    t := LockMove(s, t, env);
  }

  /** The end of a successful load. */
  lemma MarkMoves(s0: Local, s: Local, env: set<bool>) returns (t: Local)
    requires Answerable(env) && Leads(s0, s, env) && s.prog == MARK
    ensures Leads(s0, t, env)
    ensures var d := s.data;
            t == s.(prog := Done,
                    data := d.(loaded := true, told := d.told + [Update(d.apiPath, true, d.workers)]))
  {
    t := SectionAlone(W(ApiMu), SetLoaded(true), Broadcast(Done), s0, s, env);
    t := BroadcastMoves(Done, s0, t, env);
  }

  /** A load, whatever lookup and health requests answer: it hands over the list, starts, and on success sets the
      flag and tells the clients; on failure it does neither. */
  lemma LoaderRuns(s: Local, found: bool, healthy: nat -> bool, env: set<bool>) returns (t: Local)
    requires s.prog == Loader(HEALTH_POLLS) && s.children == []
    requires found in env && forall i: nat :: healthy(i) in env
    ensures Leads(s, t, env) && t.prog == Done && t.held == s.held
    ensures var d, path := s.data, s.data.llm.modelPath != "";
            var ready := path && found && LlamaServer.AnswersBy(healthy, HEALTH_POLLS);
            t.data == d.(handed := d.workers, llm := StartOp(d.llm, found), loaded := d.loaded || ready,
                         told := d.told + if ready then [Update(d.apiPath, true, d.workers)] else []) &&
            t.children == if path && found then [NewThread(ExitWatcher(|d.llm.procs|))] else []
  {
    t := LoaderToStart(s, env);
    t := StartRuns(HEALTH_POLLS, MARK, Done, found, healthy, s, t, env);
    assert s.data.told + [] == s.data.told;
    if s.data.llm.modelPath != "" && found && LlamaServer.AnswersBy(healthy, HEALTH_POLLS) {
      t := MarkMoves(s, t, env);
    }
  }

  // ---- The model DELETE ----

  /** The API server's own section of a DELETE. */
  lemma ForgetMoves(k: Prog, s0: Local, s: Local, env: set<bool>) returns (t: Local)
    requires Answerable(env) && Leads(s0, s, env)
    requires s.prog == Acquire(W(ApiMu), Act(SetApiPath(""), Act(SetApiMMProj(""), Act(SetLoaded(false),
                         Release(W(ApiMu), k)))))
    ensures Leads(s0, t, env)
    ensures t == s.(prog := k, data := s.data.(apiPath := "", apiMMProj := "", loaded := false))
  {
    assert s.held + multiset{W(ApiMu)} - multiset{W(ApiMu)} == s.held;
    t := LockMove(s0, s, env);
    t := ActionMove(s0, t, env, Any(env));
    t := ActionMove(s0, t, env, Any(env));
    t := ActionMove(s0, t, env, Any(env));
    t := LockMove(s0, t, env);
  }

  lemma DeleteMoves(s: Local, env: set<bool>) returns (t: Local)
    requires Answerable(env) && s.prog == Delete()
    ensures Leads(s, t, env)
    ensures var d := s.data;
            t == s.(prog := Done, data := d.(llm := StopLocked(d.llm), apiPath := "", apiMMProj := "", loaded := false,
                                             told := d.told + [Update("", false, d.workers)]))
  {
    LeadsToItself(s, env);
    var a := Act(SetApiMMProj(""), Act(SetLoaded(false), Release(W(ApiMu), Broadcast(Done))));
    t := SectionAlone(W(LlmMu), StopProcess, Acquire(W(ApiMu), Act(SetApiPath(""), a)), s, s, env);
    t := ForgetMoves(Broadcast(Done), s, t, env);
    t := BroadcastMoves(Done, s, t, env);
  }

  /** The model DELETE stops the supervisor, forgets path, mmproj and flag of the API server, and tells the clients. */
  lemma DeleteAlone(c: Config, env: set<bool>) returns (es: seq<Event>)
    requires AllQuiet(c) && Answerable(env)
    ensures ArrivesOnce(es, ModelDelete, env) && Exec(c, es).threads == c.threads + [ENDED]
    ensures var d := c.data;
            Exec(c, es).data == d.(llm := StopLocked(d.llm), apiPath := "", apiMMProj := "", loaded := false,
                                   told := d.told + [Update("", false, d.workers)])
  {
    var t := DeleteMoves(Local(Code(ModelDelete), multiset{}, c.data, []), env);
    es := ArriveAndRun(c, ModelDelete, t, env);
  }

  // ---- The setters ----

  /** A setter that forwards under the API lock. */
  lemma ForwardingMoves(a: Action, b: Action, s: Local, env: set<bool>) returns (t: Local)
    requires Answerable(env) && s.prog == Forwarding(a, b) && s.held == multiset{}
    requires (a.SetApiPath? || a.SetApiMMProj?) && (b.SetOption? || b.SetLlmPath?)
    ensures Leads(s, t, env)
    ensures t == s.(prog := Done, data := Perform(b, Perform(a, s.data, true).0, true).0)
  {
    LeadsToItself(s, env);
    assert s.held + multiset{W(ApiMu)} - multiset{W(ApiMu)} == s.held;
    t := LockMove(s, s, env);
    t := ActionMove(s, t, env, Any(env));
    t := SectionAlone(W(LlmMu), b, Release(W(ApiMu), Done), s, t, env);
    t := LockMove(s, t, env);
  }

  /** SetModelPath stores the path on both sides. */
  lemma SetModelPathAlone(c: Config, p: string, env: set<bool>) returns (es: seq<Event>)
    requires AllQuiet(c) && Answerable(env)
    ensures ArrivesOnce(es, ApiSetModelPath(p), env) && Exec(c, es).threads == c.threads + [ENDED]
    ensures Exec(c, es).data == c.data.(apiPath := p, llm := c.data.llm.(modelPath := p))
  {
    var t := ForwardingMoves(SetApiPath(p), SetLlmPath(p), Local(Code(ApiSetModelPath(p)), multiset{}, c.data, []),
        env);
    es := ArriveAndRun(c, ApiSetModelPath(p), t, env);
  }

  /** The setters of the options store theirs and no other; the mmproj path also on the API server's side. */
  lemma SetOptionAlone(c: Config, o: Setting, env: set<bool>) returns (es: seq<Event>)
    requires AllQuiet(c) && Answerable(env)
    ensures ArrivesOnce(es, ApiSetOption(o), env) && Exec(c, es).threads == c.threads + [ENDED]
    ensures Exec(c, es).data == c.data.(apiMMProj := if o.MMProj? then o.s else c.data.apiMMProj,
                                        opts := Options(if o.MMProj? then o.s else c.data.opts.mmproj,
                                                        if o.CtxSize? then o.n else c.data.opts.ctx,
                                                        if o.GPULayers? then o.n else c.data.opts.gpu,
                                                        if o.Threads? then o.n else c.data.opts.threads,
                                                        if o.Predict? then o.n else c.data.opts.predict))
  {
    var s := Local(Code(ApiSetOption(o)), multiset{}, c.data, []);
    var t;
    if o.MMProj? {
      t := ForwardingMoves(SetApiMMProj(o.s), SetOption(o), s, env);
    } else {
      LeadsToItself(s, env);
      assert s.held + multiset{W(ApiMu)} - multiset{W(ApiMu)} == s.held;
      t := LockMove(s, s, env);
      t := SectionAlone(W(LlmMu), SetOption(o), Release(W(ApiMu), Done), s, t, env);
      t := LockMove(s, t, env);
    }
    es := ArriveAndRun(c, ApiSetOption(o), t, env);
  }

  /** Requests that are one locked section. */
  predicate OneSection(r: Request, h: Hold, a: Action) {
    match r
    case ApiSetModelLoaded(b) => h == W(ApiMu) && a == SetLoaded(b)
    case WorkersGet => h == R(DiscMu) && a == DiscRead
    case RegistryRead => h == R(DiscMu) && a == DiscRead
    case RegistryWrite => h == W(DiscMu) && a == DiscWrite
    case LlmSetPath(p) => h == W(LlmMu) && a == SetLlmPath(p)
    case LlmSetOption(o) => h == W(LlmMu) && a == SetOption(o)
    case LlmIsRunning => h == W(LlmMu) && a == LlmRead
    case LlmStop => h == W(LlmMu) && a == StopProcess
    case _ => false
  }

  lemma OneSectionAlone(c: Config, r: Request, h: Hold, a: Action, env: set<bool>) returns (es: seq<Event>)
    requires AllQuiet(c) && Answerable(env) && OneSection(r, h, a)
    ensures ArrivesOnce(es, r, env) && Exec(c, es).threads == c.threads + [ENDED]
    ensures Exec(c, es).data == Perform(a, c.data, true).0
  {
    var s := Local(Code(r), multiset{}, c.data, []);
    LeadsToItself(s, env);
    assert s.prog == Section(h, a, Done);
    var t := SectionAlone(h, a, Done, s, s, env);
    es := ArriveAndRun(c, r, t, env);
  }

  /** What the requests of one section change: the flag alone, the path alone, one option alone, the registry alone, the
      supervisor's processes alone, or nothing. */
  lemma OneSectionPlainly(c: Config, r: Request, h: Hold, a: Action, env: set<bool>) returns (es: seq<Event>)
    requires AllQuiet(c) && Answerable(env) && OneSection(r, h, a)
    ensures ArrivesOnce(es, r, env)
    ensures var d, d' := c.data, Exec(c, es).data;
            d' == d.(loaded := if r.ApiSetModelLoaded? then r.b else d.loaded,
                     opts := if r.LlmSetOption? then d'.opts else d.opts,
                     writes := if r.RegistryWrite? then d.writes + 1 else d.writes,
                     llm := if r.LlmSetPath? then d.llm.(modelPath := r.p)
                            else if r.LlmStop? then d'.llm else d.llm)
    ensures r.LlmStop? && Inv(c.data.llm) ==>
            var m := Exec(c, es).data.llm;
            !m.isRunning && m.cancel == None && m.modelPath == c.data.llm.modelPath &&
                (HasLatest(m) ==> Latest(m).cancelled)
  {
    es := OneSectionAlone(c, r, h, a, env);
    if Inv(c.data.llm) { StopKeeps(c.data.llm); }
  }

  // ---- Readers, broadcasts and connections ----

  /** The model GET changes nothing. */
  lemma ModelGetAlone(c: Config, env: set<bool>) returns (es: seq<Event>)
    requires AllQuiet(c) && Answerable(env)
    ensures ArrivesOnce(es, ModelGet, env) && Exec(c, es) == Config(c.threads + [ENDED], c.data)
  {
    var s := Local(Code(ModelGet), multiset{}, c.data, []);
    LeadsToItself(s, env);
    assert s.held + multiset{R(ApiMu)} - multiset{R(ApiMu)} == s.held;
    var t := LockMove(s, s, env);
    t := SectionAlone(W(LlmMu), LlmRead, Act(ApiRead, Release(R(ApiMu), Done)), s, t, env);
    t := ActionMove(s, t, env, Any(env));
    t := LockMove(s, t, env);
    es := ArriveAndRun(c, ModelGet, t, env);
    assert c.threads + [ENDED] + [] == c.threads + [ENDED];
  }

  /** A broadcast tells the clients the path, the flag and the list as they are. */
  lemma BroadcastAlone(c: Config, env: set<bool>) returns (es: seq<Event>)
    requires AllQuiet(c) && Answerable(env)
    ensures ArrivesOnce(es, BroadcastUpdate, env) && Exec(c, es).threads == c.threads + [ENDED]
    ensures var d := c.data; Exec(c, es).data == d.(told := d.told + [Update(d.apiPath, d.loaded, d.workers)])
  {
    var s := Local(Code(BroadcastUpdate), multiset{}, c.data, []);
    LeadsToItself(s, env);
    var t := BroadcastMoves(Done, s, s, env);
    es := ArriveAndRun(c, BroadcastUpdate, t, env);
  }

  /** A connection registers one client, and leaves a goroutine that waits for its end. */
  lemma ConnectAlone(c: Config, env: set<bool>) returns (es: seq<Event>)
    requires AllQuiet(c) && Answerable(env)
    ensures ArrivesOnce(es, Connect, env) && Exec(c, es).data == c.data.(clients := c.data.clients + 1)
    ensures Exec(c, es).threads == c.threads + [ENDED] + [NewThread(Await(SetApi(Unregister, Done)))]
  {
    var wait := Await(SetApi(Unregister, Done));
    var s := Local(Code(Connect), multiset{}, c.data, []);
    LeadsToItself(s, env);
    var t := SectionAlone(W(ApiMu), Register, Go(wait, Done), s, s, env);
    ThenMove(s, t, env, Any(env));
    t := Move(t, Any(env));
    es := ArriveAndRun(c, Connect, t, env);
    assert t.children == [NewThread(wait)];
  }

  /** Once the connection ends, that goroutine takes the client away again. */
  lemma DisconnectAlone(c: Config, i: nat, env: set<bool>) returns (es: seq<Event>)
    requires AllQuiet(c) && Answerable(env) && i < |c.threads| && c.data.clients > 0
    requires c.threads[i] == NewThread(Await(SetApi(Unregister, Done)))
    ensures StepsIn(es, env)
    ensures Exec(c, es) == Config(c.threads[i := ENDED], c.data.(clients := c.data.clients - 1))
  {
    var s := LocalOf(c, i);
    DoneFine(true);
    SetApiFine(Unregister, Done, true);
    LeadsToItself(s, env);
    ThenMove(s, s, env, Any(env));
    var t := SectionAlone(W(ApiMu), Unregister, Done, s, Move(s, Any(env)), env);
    es := RunTo(c, i, t, env);
    assert c.threads[i := ENDED] + [] == c.threads[i := ENDED];
  }

  // ---- Starts ----

  /** Whatever lookup and health requests answer, Start and Restart change the supervisor's state alone, and a new
      process has its exit goroutine. */
  lemma StartAnswered(c: Config, found: bool, healthy: nat -> bool) returns (es: seq<Event>)
    requires AllQuiet(c)
    ensures ArrivesOnce(es, LlmStart, {true, false})
    ensures var m := c.data.llm;
            var spawns := m.modelPath != "" && found;
            Exec(c, es).data == c.data.(llm := StartOp(m, found)) &&
            Exec(c, es).threads == c.threads + [ENDED] + if spawns then [NewThread(ExitWatcher(|m.procs|))] else []
  {
    var env, s := {true, false}, Local(Code(LlmStart), multiset{}, c.data, []);
    LeadsToItself(s, env);
    assert forall b: bool :: b in env;
    var t := StartRuns(HEALTH_POLLS, Done, Done, found, healthy, s, s, env);
    es := ArriveAndRun(c, LlmStart, t, env);
  }

  lemma RestartAnswered(c: Config, found: bool, healthy: nat -> bool) returns (es: seq<Event>)
    requires AllQuiet(c)
    ensures ArrivesOnce(es, LlmRestart, {true, false})
    ensures var m := c.data.llm;
            var spawns := m.modelPath != "" && found;
            Exec(c, es).data == c.data.(llm := StartOp(m, found)) &&
            Exec(c, es).threads == c.threads + [ENDED] + if spawns then [NewThread(ExitWatcher(|m.procs|))] else []
  {
    var env, s := {true, false}, Local(Code(LlmRestart), multiset{}, c.data, []);
    LeadsToItself(s, env);
    assert forall b: bool :: b in env;
    var t := RestartRuns(HEALTH_POLLS, found, healthy, s, s, env);
    es := ArriveAndRun(c, LlmRestart, t, env);
  }

  /** So does StartNonBlocking, which leaves a running process alone. */
  lemma StartNonBlockingAnswered(c: Config, found: bool) returns (es: seq<Event>)
    requires AllQuiet(c)
    ensures ArrivesOnce(es, LlmStartNonBlocking, {found})
    ensures var m := c.data.llm;
            var spawns := m.modelPath != "" && !m.isRunning && found;
            Exec(c, es).data == c.data.(llm := if spawns then Spawn(m) else m) &&
            Exec(c, es).threads == c.threads + [ENDED] + if spawns then [NewThread(ExitWatcher(|m.procs|))] else []
  {
    var s := Local(Code(LlmStartNonBlocking), multiset{}, c.data, []);
    LeadsToItself(s, {found});
    var t := StartNonBlockingRuns(Done, found, s, s, {found});
    es := ArriveAndRun(c, LlmStartNonBlocking, t, {found});
  }

  /** What a start leaves, plainly. */
  lemma StartedPlainly(m: Llm, found: bool)
    requires Inv(m)
    ensures var s := StartOp(m, found);
            s.modelPath == m.modelPath &&
            (m.modelPath == "" ==> s == m) &&
            (m.modelPath != "" && found ==>
               s.isRunning && s.cancel == Some(|m.procs|) && |s.procs| == |m.procs| + 1 && Latest(s).Live() &&
               (m.isRunning ==> s.procs[|m.procs| - 1].cancelled) &&
                   (!m.isRunning ==> s.procs[..|m.procs|] == m.procs)) &&
            (m.modelPath != "" && !found ==>
               !s.isRunning && |s.procs| == |m.procs| && (m.isRunning ==> Latest(s).cancelled) &&
                   (!m.isRunning ==> s == m))
  {
    StopKeeps(m);
  }
}
