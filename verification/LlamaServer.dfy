/** The llama-server supervisor as the class it is: settings, running flag, cancel function and the
    processes it has spawned.  Each method is one critical section of the supervisor's mutex; the
    goroutine machine interleaves those sections. */
module LlamaServer {
  import opened Wrappers
  import opened LlmState
  import opened Text

  const DEFAULT_CTX: int := 4096

  // ---- The argument vector ----

  datatype Settings = Settings(modelPath: string, mmprojPath: string, port: int, ctxSize: int, nGPU: int,
                               nThreads: int, nPredict: int, rpcWorkers: seq<string>)

  /** The settings as the spawned process sees them: values that mean "absent" are absent. */
  datatype Effective = Effective(modelPath: string, port: int, ctxSize: int, mmproj: Option<string>, nGPU: Option<int>,
                                 nThreads: Option<int>, nPredict: Option<int>, rpcWorkers: seq<string>)

  function EffectiveOf(s: Settings): Effective {
    Effective(s.modelPath, s.port, s.ctxSize,
              if s.mmprojPath != "" then Some(s.mmprojPath) else None,
              if s.nGPU >= 0 then Some(s.nGPU) else None,
              if s.nThreads > 0 then Some(s.nThreads) else None,
              if s.nPredict > 0 then Some(s.nPredict) else None,
              s.rpcWorkers)
  }

  function Required(path: string, port: int, ctx: int): seq<string> {
    ["--model", path, "--host", "127.0.0.1", "--port", Itoa(port), "--ctx-size", Itoa(ctx), "--log-disable",
        "--no-display-prompt"]
  }

  function Flag(flag: string, value: Option<string>): seq<string> {
    match value case None => [] case Some(v) => [flag, v]
  }

  function Number(n: Option<int>): Option<string> {
    match n case None => None case Some(v) => Some(Itoa(v))
  }

  function RpcArgs(workers: seq<string>): seq<string> {
    if workers == [] then [] else RpcArgs(workers[..|workers|-1]) + ["--rpc", workers[|workers|-1]]
  }

  /** The vector that a process with this configuration is started with. */
  function ArgVector(e: Effective): seq<string> {
    Required(e.modelPath, e.port, e.ctxSize) + Flag("--mmproj", e.mmproj) + Flag("--n-gpu-layers", Number(e.nGPU)) +
    Flag("--threads", Number(e.nThreads)) + Flag("--n-predict", Number(e.nPredict)) + RpcArgs(e.rpcWorkers)
  }

  // The vector from each optional flag on.
  function FromPredict(e: Effective): seq<string> { Flag("--n-predict", Number(e.nPredict)) + RpcArgs(e.rpcWorkers) }
  function FromThreads(e: Effective): seq<string> { Flag("--threads", Number(e.nThreads)) + FromPredict(e) }
  function FromGPU(e: Effective): seq<string> { Flag("--n-gpu-layers", Number(e.nGPU)) + FromThreads(e) }
  function FromMMProj(e: Effective): seq<string> { Flag("--mmproj", e.mmproj) + FromGPU(e) }

  lemma ArgVectorParts(e: Effective)
    ensures ArgVector(e) == Required(e.modelPath, e.port, e.ctxSize) + FromMMProj(e)
  {
    var a, b, c := Required(e.modelPath, e.port, e.ctxSize), Flag("--mmproj", e.mmproj),
        Flag("--n-gpu-layers", Number(e.nGPU));
    var d, f, r := Flag("--threads", Number(e.nThreads)), Flag("--n-predict", Number(e.nPredict)),
        RpcArgs(e.rpcWorkers);
    Join(a + b + c + d, f, r);
    Join(a + b + c, d, f + r);
    Join(a + b, c, d + (f + r));
    Join(a, b, c + (d + (f + r)));
  }

  /** A vector does not begin with a flag of this length; the five flags differ in length. */
  predicate Apart(flag: string, args: seq<string>) { args == [] || |args[0]| != |flag| }

  lemma PeelFlag(flag: string, u: Option<string>, v: Option<string>, x: seq<string>, y: seq<string>)
    requires Apart(flag, x) && Apart(flag, y)
    requires Flag(flag, u) + x == Flag(flag, v) + y
    ensures u == v && x == y
  {
    var a, b := Flag(flag, u) + x, Flag(flag, v) + y;
    assert u.None? ==> a == x;
    assert v.None? ==> b == y;
    if u.Some? && v.Some? {
      assert a[1] == u.value && b[1] == v.value && a[2..] == x && b[2..] == y;
    }
  }

  lemma {:induction false} RpcArgsHead(ws: seq<string>)
    ensures |RpcArgs(ws)| == 2 * |ws| && (ws != [] ==> RpcArgs(ws)[0] == "--rpc")
  {
    if ws != [] { RpcArgsHead(ws[..|ws|-1]); }
  }

  lemma {:induction false} RpcArgsInjective(x: seq<string>, y: seq<string>)
    requires RpcArgs(x) == RpcArgs(y)
    ensures x == y
  {
    RpcArgsHead(x);
    RpcArgsHead(y);
    if x != [] {
      var n := |x| - 1;
      var a, b := RpcArgs(x), RpcArgs(y);
      assert a[..2 * n] == RpcArgs(x[..n]) && a[2 * n + 1] == x[n] by { RpcArgsHead(x[..n]); }
      assert b[..2 * n] == RpcArgs(y[..n]) && b[2 * n + 1] == y[n] by { RpcArgsHead(y[..n]); }
      RpcArgsInjective(x[..n], y[..n]);
      assert x == x[..n] + [x[n]] && y == y[..n] + [y[n]];
    }
  }

  lemma NumberInjective(a: Option<int>, b: Option<int>)
    requires Number(a) == Number(b)
    ensures a == b
  {
    if a.Some? && b.Some? { ItoaInjective(a.value, b.value); }
  }

  lemma PartsApart(e: Effective)
    ensures Apart("--n-predict", RpcArgs(e.rpcWorkers)) && Apart("--threads", FromPredict(e))
    ensures Apart("--n-gpu-layers", FromThreads(e)) && Apart("--mmproj", FromGPU(e))
  {
    RpcArgsHead(e.rpcWorkers);
  }

  lemma FromThreadsInjective(d: Effective, e: Effective)
    requires FromThreads(d) == FromThreads(e)
    ensures d.nThreads == e.nThreads && d.nPredict == e.nPredict && d.rpcWorkers == e.rpcWorkers
  {
    PartsApart(d);
    PartsApart(e);
    PeelFlag("--threads", Number(d.nThreads), Number(e.nThreads), FromPredict(d), FromPredict(e));
    PeelFlag("--n-predict", Number(d.nPredict), Number(e.nPredict), RpcArgs(d.rpcWorkers), RpcArgs(e.rpcWorkers));
    NumberInjective(d.nThreads, e.nThreads);
    NumberInjective(d.nPredict, e.nPredict);
    RpcArgsInjective(d.rpcWorkers, e.rpcWorkers);
  }

  lemma FromMMProjInjective(d: Effective, e: Effective)
    requires FromMMProj(d) == FromMMProj(e)
    ensures d.mmproj == e.mmproj && d.nGPU == e.nGPU && d.nThreads == e.nThreads && d.nPredict == e.nPredict
    ensures d.rpcWorkers == e.rpcWorkers
  {
    PartsApart(d);
    PartsApart(e);
    PeelFlag("--mmproj", d.mmproj, e.mmproj, FromGPU(d), FromGPU(e));
    PeelFlag("--n-gpu-layers", Number(d.nGPU), Number(e.nGPU), FromThreads(d), FromThreads(e));
    NumberInjective(d.nGPU, e.nGPU);
    FromThreadsInjective(d, e);
  }

  lemma RequiredInjective(d: Effective, e: Effective)
    requires Required(d.modelPath, d.port, d.ctxSize) == Required(e.modelPath, e.port, e.ctxSize)
    ensures d.modelPath == e.modelPath && d.port == e.port && d.ctxSize == e.ctxSize
  {
    var a, b := Required(d.modelPath, d.port, d.ctxSize), Required(e.modelPath, e.port, e.ctxSize);
    assert a[1] == b[1] && a[5] == b[5] && a[7] == b[7];
    ItoaInjective(d.port, e.port);
    ItoaInjective(d.ctxSize, e.ctxSize);
  }

  lemma SplitFront(a: seq<string>, x: seq<string>, b: seq<string>, y: seq<string>)
    requires |a| == |b| && a + x == b + y
    ensures a == b && x == y
  {
    assert a == (a + x)[..|a|] && b == (b + y)[..|b|];
    assert x == (a + x)[|a|..] && y == (b + y)[|b|..];
  }

  /** Two settings give the same vector exactly when the process sees the same configuration. */
  lemma ArgVectorDetermines(s: Settings, t: Settings)
    ensures ArgVector(EffectiveOf(s)) == ArgVector(EffectiveOf(t)) <==> EffectiveOf(s) == EffectiveOf(t)
  {
    var d, e := EffectiveOf(s), EffectiveOf(t);
    var a, b := ArgVector(d), ArgVector(e);
    if a == b {
      ArgVectorParts(d);
      ArgVectorParts(e);
      SplitFront(Required(d.modelPath, d.port, d.ctxSize), FromMMProj(d), Required(e.modelPath, e.port, e.ctxSize),
          FromMMProj(e));
      RequiredInjective(d, e);
      FromMMProjInjective(d, e);
    }
  }

  // ---- Reading the vector back ----

  /** The options that take no value. */
  predicate Switch(arg: string) { arg == "--log-disable" || arg == "--no-display-prompt" }

  /** What stands behind `option` at the option positions of a vector: a switch is one argument, any other option
      two. */
  function Behind(args: seq<string>, option: string): seq<string> {
    if args == [] then []
    else if Switch(args[0]) then Behind(args[1..], option)
    else if |args| == 1 then []
    else (if args[0] == option then [args[1]] else []) + Behind(args[2..], option)
  }

  /** The switches among the option positions. */
  function Switches(args: seq<string>): seq<string> {
    if args == [] then []
    else if Switch(args[0]) then [args[0]] + Switches(args[1..])
    else if |args| == 1 then []
    else Switches(args[2..])
  }

  lemma BehindPair(flag: string, value: string, rest: seq<string>, option: string)
    requires !Switch(flag)
    ensures Behind([flag, value] + rest, option) == (if flag == option then [value] else []) + Behind(rest, option)
    ensures Switches([flag, value] + rest) == Switches(rest)
  {
    var args := [flag, value] + rest;
    assert args[0] == flag && args[1] == value && args[2..] == rest;
  }

  lemma BehindSwitch(flag: string, rest: seq<string>, option: string)
    requires Switch(flag)
    ensures Behind([flag] + rest, option) == Behind(rest, option)
    ensures Switches([flag] + rest) == [flag] + Switches(rest)
  {
    var args := [flag] + rest;
    assert args[0] == flag && args[1..] == rest;
  }

  /** An optional flag. */
  lemma BehindFlag(flag: string, value: Option<string>, rest: seq<string>, option: string)
    requires !Switch(flag)
    ensures Behind(Flag(flag, value) + rest, option) ==
            (if value.Some? && flag == option then [value.value] else []) + Behind(rest, option)
    ensures Switches(Flag(flag, value) + rest) == Switches(rest)
  {
    match value
    case None =>
      assert [] + rest == rest;
      assert [] + Behind(rest, option) == Behind(rest, option);
    case Some(v) => BehindPair(flag, v, rest, option);
  }

  lemma {:induction false} BehindRpc(workers: seq<string>, option: string)
    ensures Behind(RpcArgs(workers), option) == if option == "--rpc" then workers else []
    ensures Switches(RpcArgs(workers)) == []
  {
    if workers != [] {
      var last := workers[|workers|-1];
      RpcPairs(workers[..|workers|-1]);
      BehindRpcLast(RpcArgs(workers[..|workers|-1]), last, option);
      BehindRpc(workers[..|workers|-1], option);
      assert workers == workers[..|workers|-1] + [last];
    }
  }

  /** Pairs of an option and its value. */
  predicate Pairs(args: seq<string>) {
    args == [] || (|args| > 1 && !Switch(args[0]) && Pairs(args[2..]))
  }

  lemma {:induction false} RpcPairs(workers: seq<string>)
    ensures Pairs(RpcArgs(workers))
  {
    if workers != [] {
      RpcPairs(workers[..|workers|-1]);
      PairsLast(RpcArgs(workers[..|workers|-1]), workers[|workers|-1]);
    }
  }

  lemma {:induction false} PairsLast(args: seq<string>, last: string)
    requires Pairs(args)
    ensures Pairs(args + ["--rpc", last])
  {
    var all := args + ["--rpc", last];
    if args == [] {
      assert all[2..] == [];
    } else {
      assert all[2..] == args[2..] + ["--rpc", last];
      PairsLast(args[2..], last);
    }
  }

  lemma {:induction false} BehindRpcLast(args: seq<string>, last: string, option: string)
    requires Pairs(args)
    ensures Behind(args + ["--rpc", last], option) == Behind(args, option) + if option == "--rpc" then [last] else []
    ensures Switches(args + ["--rpc", last]) == Switches(args)
  {
    var all := args + ["--rpc", last];
    if args == [] {
      assert all == ["--rpc", last] + [];
      BehindPair("--rpc", last, [], option);
    } else {
      assert all[2..] == args[2..] + ["--rpc", last];
      BehindRpcLast(args[2..], last, option);
    }
  }

  lemma BehindRequired(path: string, port: int, ctx: int, rest: seq<string>, option: string)
    ensures Behind(Required(path, port, ctx) + rest, option) ==
            (if option == "--model" then [path] else if option == "--host" then ["127.0.0.1"]
             else if option == "--port" then [Itoa(port)] else if option == "--ctx-size" then [Itoa(ctx)] else []) +
            Behind(rest, option)
    ensures Switches(Required(path, port, ctx) + rest) == ["--log-disable", "--no-display-prompt"] + Switches(rest)
  {
    var f := ["--no-display-prompt"] + rest;
    var e := ["--log-disable"] + f;
    var d := ["--ctx-size", Itoa(ctx)] + e;
    var c := ["--port", Itoa(port)] + d;
    var b := ["--host", "127.0.0.1"] + c;
    assert Required(path, port, ctx) + rest == ["--model", path] + b;
    BehindPair("--model", path, b, option);
    BehindPair("--host", "127.0.0.1", c, option);
    BehindPair("--port", Itoa(port), d, option);
    BehindPair("--ctx-size", Itoa(ctx), e, option);
    BehindSwitch("--log-disable", f, option);
    BehindSwitch("--no-display-prompt", rest, option);
  }

  /** Everything that stands behind an option of the vector. */
  lemma BehindAll(e: Effective, option: string)
    ensures Behind(ArgVector(e), option) ==
            (if option == "--model" then [e.modelPath] else if option == "--host" then ["127.0.0.1"]
             else if option == "--port" then [Itoa(e.port)] else if option == "--ctx-size" then [Itoa(e.ctxSize)]
                 else []) +
            ((if e.mmproj.Some? && "--mmproj" == option then [e.mmproj.value] else []) +
             ((if Number(e.nGPU).Some? && "--n-gpu-layers" == option then [Number(e.nGPU).value] else []) +
              ((if Number(e.nThreads).Some? && "--threads" == option then [Number(e.nThreads).value] else []) +
               ((if Number(e.nPredict).Some? && "--n-predict" == option then [Number(e.nPredict).value] else []) +
                (if option == "--rpc" then e.rpcWorkers else [])))))
    ensures Switches(ArgVector(e)) == ["--log-disable", "--no-display-prompt"]
  {
    ArgVectorParts(e);
    BehindRequired(e.modelPath, e.port, e.ctxSize, FromMMProj(e), option);
    BehindFlag("--mmproj", e.mmproj, FromGPU(e), option);
    BehindFlag("--n-gpu-layers", Number(e.nGPU), FromThreads(e), option);
    BehindFlag("--threads", Number(e.nThreads), FromPredict(e), option);
    BehindFlag("--n-predict", Number(e.nPredict), RpcArgs(e.rpcWorkers), option);
    BehindRpc(e.rpcWorkers, option);
  }

  predicate Int64(n: int) { -(MAX_INT64 as int) - 1 <= n <= MAX_INT64 }

  /** One number stands behind the option, and reads as n. */
  predicate ReadsAs(args: seq<string>, option: string, n: int) {
    |Behind(args, option)| == 1 && Atoi(Behind(args, option)[0]) == n
  }

  /** The process is told the settings: the strings as they are, the numbers as they read, and of the optional ones
      those that are set. */
  lemma VectorTellsSettings(s: Settings)
    requires Int64(s.port) && Int64(s.ctxSize) && Int64(s.nGPU) && Int64(s.nThreads) && Int64(s.nPredict)
    ensures var args := ArgVector(EffectiveOf(s));
            Behind(args, "--model") == [s.modelPath] && Behind(args, "--host") == ["127.0.0.1"] &&
            ReadsAs(args, "--port", s.port) && ReadsAs(args, "--ctx-size", s.ctxSize) &&
            Behind(args, "--mmproj") == (if s.mmprojPath != "" then [s.mmprojPath] else []) &&
            Behind(args, "--rpc") == s.rpcWorkers && Switches(args) == ["--log-disable", "--no-display-prompt"]
    ensures var args := ArgVector(EffectiveOf(s));
            (if s.nGPU >= 0 then ReadsAs(args, "--n-gpu-layers", s.nGPU) else Behind(args, "--n-gpu-layers") == []) &&
            (if s.nThreads > 0 then ReadsAs(args, "--threads", s.nThreads) else Behind(args, "--threads") == []) &&
            (if s.nPredict > 0 then ReadsAs(args, "--n-predict", s.nPredict) else Behind(args, "--n-predict") == [])
  {
    var e := EffectiveOf(s);
    BehindStrings(e);
    BehindNumbers(e);
    AtoiItoa(s.port);
    AtoiItoa(s.ctxSize);
    AtoiItoa(s.nGPU);
    AtoiItoa(s.nThreads);
    AtoiItoa(s.nPredict);
  }

  lemma BehindStrings(e: Effective)
    ensures var args := ArgVector(e);
            Behind(args, "--model") == [e.modelPath] && Behind(args, "--host") == ["127.0.0.1"] &&
            Behind(args, "--mmproj") == (if e.mmproj.Some? then [e.mmproj.value] else []) &&
            Behind(args, "--rpc") == e.rpcWorkers && Switches(args) == ["--log-disable", "--no-display-prompt"]
  {
    BehindAll(e, "--model");
    BehindAll(e, "--host");
    BehindAll(e, "--mmproj");
    BehindAll(e, "--rpc");
  }

  lemma BehindNumbers(e: Effective)
    ensures var args := ArgVector(e);
            Behind(args, "--port") == [Itoa(e.port)] && Behind(args, "--ctx-size") == [Itoa(e.ctxSize)] &&
            Behind(args, "--n-gpu-layers") == (if e.nGPU.Some? then [Itoa(e.nGPU.value)] else []) &&
            Behind(args, "--threads") == (if e.nThreads.Some? then [Itoa(e.nThreads.value)] else []) &&
            Behind(args, "--n-predict") == (if e.nPredict.Some? then [Itoa(e.nPredict.value)] else [])
  {
    BehindAll(e, "--port");
    BehindAll(e, "--ctx-size");
    BehindAll(e, "--n-gpu-layers");
    BehindAll(e, "--threads");
    BehindAll(e, "--n-predict");
  }

  /** The loop over the workers. */
  method AppendWorkers(args: seq<string>, workers: seq<string>) returns (all: seq<string>)
    ensures all == args + RpcArgs(workers)
  {
    all := args;
    for i := 0 to |workers|
      invariant all == args + RpcArgs(workers[..i])
    {
      all := all + ["--rpc", workers[i]];
      assert workers[..i + 1][..i] == workers[..i];
    }
    assert workers[..|workers|] == workers;
  }

  // ---- The health loop ----

  /** One of the first n health requests gets a good answer. */
  ghost predicate AnswersBy(healthy: nat -> bool, n: nat) { exists i: nat :: i < n && healthy(i) }

  method AwaitHealth(healthy: nat -> bool, limit: nat) returns (ok: bool, polls: nat)
    ensures ok <==> AnswersBy(healthy, limit)
    ensures ok ==> 0 < polls <= limit && healthy(polls - 1) && !AnswersBy(healthy, polls - 1)
    ensures !ok ==> polls == limit
  {
    polls := 0;
    while polls < limit
      invariant polls <= limit && !AnswersBy(healthy, polls)
    {
      polls := polls + 1;
      if healthy(polls - 1) { return true, polls; }
    }
    return false, polls;
  }

  // ---- The class ----

  datatype StartResult = Ready | NoModelPath | BinaryNotFound | TimedOut

  class Server {
    const listenPort: int
    var modelPath: string
    var mmprojPath: string
    var ctxSize: int
    var nGPU: int
    var nThreads: int
    var nPredict: int
    var rpcWorkers: seq<string>
    var isRunning: bool
    var cancel: Option<nat>
    /** The processes spawned so far and the argument vector of each. */
    var procs: seq<Proc>
    var argv: seq<seq<string>>
    ghost var stale: nat
    ghost var late: nat

    ghost function State(): Llm
      reads this
    {
      Llm(modelPath, isRunning, cancel, procs, stale, late)
    }

    function Current(): Settings
      reads this
    {
      Settings(modelPath, mmprojPath, listenPort, ctxSize, nGPU, nThreads, nPredict, rpcWorkers)
    }

    /** The flag, the cancel function and the processes agree as in every run of the machine. */
    ghost predicate Valid()
      reads this
    {
      Inv(State()) && |argv| == |procs|
    }

    constructor (port: int)
      ensures Valid() && State() == FRESH && argv == []
      ensures Current() == Settings("", "", port, 4096, -1, 0, -1, [])
    {
      listenPort := port;
      modelPath, mmprojPath, rpcWorkers := "", "", [];
      ctxSize, nGPU, nThreads, nPredict := DEFAULT_CTX, -1, 0, -1;
      isRunning, cancel, procs, argv, stale, late := false, None, [], [], 0, 0;
    }

    method SetModelPath(path: string)
      requires Valid()
      modifies `modelPath
      ensures Valid() && State() == old(State()).(modelPath := path)
      ensures Current() == old(Current()).(modelPath := path)
    {
      modelPath := path;
    }

    method SetRPCWorkers(workers: seq<string>)
      requires Valid()
      modifies `rpcWorkers
      ensures Valid() && Current() == old(Current()).(rpcWorkers := workers)
    {
      rpcWorkers := workers;
    }

    /** The argument vector, appended to piece by piece. */
    method BuildArgs() returns (args: seq<string>)
      ensures args == ArgVector(EffectiveOf(Current()))
    {
      ghost var e := EffectiveOf(Current());
      args := Required(modelPath, listenPort, ctxSize);
      ghost var before := args;
      if mmprojPath != "" { args := args + ["--mmproj", mmprojPath]; }
      assert args == before + Flag("--mmproj", e.mmproj);
      before := args;
      if nGPU >= 0 { args := args + ["--n-gpu-layers", Itoa(nGPU)]; }
      assert args == before + Flag("--n-gpu-layers", Number(e.nGPU));
      before := args;
      if nThreads > 0 { args := args + ["--threads", Itoa(nThreads)]; }
      assert args == before + Flag("--threads", Number(e.nThreads));
      before := args;
      if nPredict > 0 { args := args + ["--n-predict", Itoa(nPredict)]; }
      assert args == before + Flag("--n-predict", Number(e.nPredict));
      args := AppendWorkers(args, rpcWorkers);
    }

    method StopLockedBody()
      requires Valid()
      modifies `isRunning, `cancel, `procs
      ensures Valid() && State() == StopLocked(old(State()))
    {
      StopKeeps(State());
      if cancel.Some? {
        procs := procs[cancel.value := procs[cancel.value].(cancelled := true)];
        cancel := None;
      }
      isRunning := false;
    }

    method Stop()
      requires Valid()
      modifies `isRunning, `cancel, `procs
      ensures Valid() && State() == StopLocked(old(State()))
      ensures HasLatest(State()) ==> Latest(State()).cancelled
    {
      StopKeeps(State());
      StopLockedBody();
    }

    /** A new context and a new process; the old cancel function, if any, is overwritten. */
    method Launch()
      requires Valid() && !isRunning
      modifies `isRunning, `cancel, `procs, `argv, `late
      ensures Valid() && State() == Spawn(old(State()))
      ensures argv == old(argv) + [ArgVector(EffectiveOf(Current()))]
    {
      SpawnKeeps(State());
      cancel := Some(|procs|);
      var args := BuildArgs();
      procs, argv, late := procs + [Proc(false, false)], argv + [args], 0;
      isRunning := true;
    }

    /** Start up to the spawned process, or to the reason why there is none. */
    method Prepare(found: bool) returns (failed: Option<StartResult>)
      requires Valid()
      modifies `isRunning, `cancel, `procs, `argv, `late
      ensures Valid() && State() == StartOp(old(State()), found)
      ensures failed == if modelPath == "" then Some(NoModelPath) else if !found then Some(BinaryNotFound) else None
      ensures argv == old(argv) + if failed.None? then [ArgVector(EffectiveOf(Current()))] else []
    {
      if modelPath == "" { return Some(NoModelPath); }
      if isRunning { StopLockedBody(); }
      if !found { return Some(BinaryNotFound); }
      Launch();
      failed := None;
    }

    /** `found` is the answer of the binary lookup, `healthy(i)` that of the i-th health request. */
    method Start(found: bool, healthy: nat -> bool) returns (r: StartResult, polls: nat)
      requires Valid()
      modifies `isRunning, `cancel, `procs, `argv, `late
      ensures Valid() && State() == StartOp(old(State()), found)
      ensures r.NoModelPath? <==> modelPath == ""
      ensures r.BinaryNotFound? <==> modelPath != "" && !found
      ensures argv == old(argv) + if modelPath != "" && found then [ArgVector(EffectiveOf(Current()))] else []
      ensures r.Ready? <==> modelPath != "" && found && AnswersBy(healthy, HEALTH_POLLS)
      ensures r.Ready? ==> 0 < polls <= HEALTH_POLLS && healthy(polls - 1) && !AnswersBy(healthy, polls - 1)
      ensures r.TimedOut? ==> polls == 30
    {
      var failed := Prepare(found);
      if failed.Some? { return failed.value, 0; }
      var ok;
      ok, polls := AwaitHealth(healthy, HEALTH_POLLS);
      r := if ok then Ready else TimedOut;
    }

    method StartNonBlocking(found: bool)
      requires Valid()
      modifies `isRunning, `cancel, `procs, `argv, `late
      ensures Valid() && State() == StartNonBlockingOp(old(State()), found)
      ensures argv == old(argv) +
              if modelPath != "" && !old(isRunning) && found then [ArgVector(EffectiveOf(Current()))] else []
    {
      if modelPath == "" || isRunning { return; }
      if !found { return; }
      Launch();
    }

    method Restart(found: bool, healthy: nat -> bool) returns (r: StartResult, polls: nat)
      requires Valid()
      modifies `isRunning, `cancel, `procs, `argv, `late
      ensures Valid() && State() == StartOp(old(State()), found)
      ensures r.NoModelPath? <==> modelPath == ""
      ensures r.BinaryNotFound? <==> modelPath != "" && !found
      ensures argv == old(argv) + if modelPath != "" && found then [ArgVector(EffectiveOf(Current()))] else []
      ensures r.Ready? <==> modelPath != "" && found && AnswersBy(healthy, HEALTH_POLLS)
      ensures r.Ready? ==> 0 < polls <= HEALTH_POLLS && healthy(polls - 1) && !AnswersBy(healthy, polls - 1)
      ensures r.TimedOut? ==> polls == HEALTH_POLLS
    {
      var path := modelPath;
      if path == "" { return NoModelPath, 0; }
      r, polls := Start(found, healthy);
    }

    /** The critical section of the exit goroutine of generation g. */
    method ProcessExited(g: nat)
      requires Valid() && g < |procs|
      modifies `isRunning, `procs, `stale, `late
      ensures Valid() && State() == RecordExit(old(State()), g)
    {
      RecordExitKeeps(State(), g);
      isRunning := false;
      if g != |procs| - 1 { stale, late := stale + 1, late + 1; }
      procs := procs[g := procs[g].(recorded := true)];
    }
  }

  // ---- Model ids ----

  function AfterLast(s: string, c: char): string { s[LastIndex(s, c) + 1..] }

  function BeforeLast(s: string, c: char): string {
    if LastIndex(s, c) >= 0 then s[..LastIndex(s, c)] else s
  }

  /** A path without its directories. */
  function FileName(path: string): string { AfterLast(AfterLast(path, '/'), '\\') }

  /** The id of a model file: its name without the last extension. */
  function ModelId(path: string): string {
    if path == "" then "model" else BeforeLast(FileName(path), '.')
  }

  method GetModelId(modelPath: string) returns (name: string)
    ensures name == ModelId(modelPath) && (modelPath == "" ==> name == "model")
  {
    name := "model";
    if modelPath != "" {
      var base := modelPath;
      var idx := LastIndex(base, '/');
      if idx >= 0 { base := base[idx + 1..]; }
      assert base == AfterLast(modelPath, '/');
      idx := LastIndex(base, '\\');
      if idx >= 0 { base := base[idx + 1..]; }
      assert base == FileName(modelPath);
      idx := LastIndex(base, '.');
      if idx >= 0 { base := base[..idx]; }
      name := base;
    }
  }

  lemma AfterLastFree(s: string, c: char)
    ensures c !in AfterLast(s, c)
    ensures c !in s ==> AfterLast(s, c) == s && BeforeLast(s, c) == s
  {
    LastIndexIsLast(s, c);
    var i := LastIndex(s, c);
    if i >= 0 { assert c in s; }
  }

  lemma AfterLastPart(s: string, c: char, x: char)
    requires x !in s
    ensures x !in AfterLast(s, c)
  {
    var i := LastIndex(s, c) + 1;
    assert forall k :: 0 <= k < |s| - i ==> s[i..][k] == s[i + k];
  }

  lemma BeforeLastPart(s: string, c: char, x: char)
    requires x !in s
    ensures x !in BeforeLast(s, c)
  {
    var i := LastIndex(s, c);
    if i >= 0 { assert forall k :: 0 <= k < i ==> s[..i][k] == s[k]; }
  }

  predicate Separator(c: char) { c == '/' || c == '\\' }

  predicate SeparatorFree(s: string) { '/' !in s && '\\' !in s }

  lemma FileNameSeparatorFree(path: string)
    ensures SeparatorFree(FileName(path))
  {
    var file := AfterLast(path, '/');
    AfterLastFree(path, '/');
    AfterLastFree(file, '\\');
    AfterLastPart(file, '\\', '/');
  }

  /** Neither the id of a path nor its last name component holds a separator, whatever the path. */
  lemma ModelIdSeparatorFree(path: string)
    ensures SeparatorFree(ModelId(path))
  {
    if path != "" {
      var name := FileName(path);
      FileNameSeparatorFree(path);
      BeforeLastPart(name, '.', '/');
      BeforeLastPart(name, '.', '\\');
    }
  }

  lemma AfterLastAt(dir: string, sep: char, name: string)
    requires sep !in name
    ensures AfterLast(dir + [sep] + name, sep) == name
  {
    LastIndexAt(dir, sep, name);
  }

  /** A separator of the other kind behind the last slash stays. */
  lemma AfterLastSlash(dir: string, name: string)
    requires '/' !in name
    ensures AfterLast(dir + ['\\'] + name, '/') == AfterLast(dir, '/') + ['\\'] + name
  {
    var tail := ['\\'] + name;
    var p := dir + ['\\'] + name;
    var i := LastIndex(dir, '/');
    LastIndexIsLast(dir, '/');
    assert p == dir + tail;
    LastIndexOfFront(dir, tail, '/');
    assert p[i + 1..] == dir[i + 1..] + ['\\'] + name;
  }

  lemma LastIndexOfFront(a: string, b: string, c: char)
    requires c !in b
    ensures LastIndex(a + b, c) == LastIndex(a, c)
  {
    LastIndexIsLast(a, c);
    LastIndexIs(a + b, c, LastIndex(a, c));
  }

  /** Directories do not matter: dropping them leaves the component after the last separator of either kind. */
  lemma LastComponent(dir: string, sep: char, name: string)
    requires Separator(sep) && SeparatorFree(name)
    ensures FileName(dir + [sep] + name) == name
  {
    if sep == '/' {
      AfterLastAt(dir, sep, name);
      AfterLastFree(name, '\\');
    } else {
      AfterLastSlash(dir, name);
      AfterLastAt(AfterLast(dir, '/'), sep, name);
    }
  }

  /** dir + sep + name + "." + ext has the id name, for either separator and every name, dots and all. */
  lemma ModelIdOfFile(dir: string, sep: char, name: string, ext: string)
    requires Separator(sep) && SeparatorFree(name) && SeparatorFree(ext) && '.' !in ext
    ensures ModelId(dir + [sep] + name + "." + ext) == name
  {
    var file := name + ['.'] + ext;
    assert dir + [sep] + name + "." + ext == dir + [sep] + file;
    LastComponent(dir, sep, file);
    LastIndexAt(name, '.', ext);
  }

  /** A file name without a dot is its own id. */
  lemma ModelIdWithoutExtension(dir: string, sep: char, name: string)
    requires Separator(sep) && SeparatorFree(name) && '.' !in name
    ensures ModelId(dir + [sep] + name) == name
  {
    LastComponent(dir, sep, name);
    AfterLastFree(name, '.');
  }
}
