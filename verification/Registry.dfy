/** The worker registry: a map from printed addresses to worker objects, and the bounded channel of discoveries. */
module Registry {
  import opened Text

  // ---- Addresses as keys ----

  /** The key of an address: `Host:Port`. */
  function Key(host: string, port: int): string { host + ":" + Itoa(port) }

  /** Printing is injective, also for hosts that contain colons. */
  lemma KeyInjective(h1: string, p1: int, h2: string, p2: int)
    requires Key(h1, p1) == Key(h2, p2)
    ensures h1 == h2 && p1 == p2
  {
    NoColon(p1);
    NoColon(p2);
    var k := Key(h1, p1);
    assert [ ':' ] == ":";
    LastIndexAt(h1, ':', Itoa(p1));
    LastIndexAt(h2, ':', Itoa(p2));
    assert k[..|h1|] == h1 && k[..|h2|] == h2;
    assert k[|h1| + 1..] == Itoa(p1) && k[|h2| + 1..] == Itoa(p2);
    ItoaInjective(p1, p2);
  }

  lemma NoColon(n: int)
    ensures ':' !in Itoa(n)
  {
    if ':' in Itoa(n) { ItoaChars(n, ':'); }
  }

  predicate Int64(n: int) { -(MAX_INT64 as int) - 1 <= n <= MAX_INT64 }

  /** What a key says: the host before its last colon, and behind that the port, as it reads. */
  lemma KeyReadsBack(host: string, port: int)
    requires Int64(port)
    ensures var k := Key(host, port);
            var i := LastIndex(k, ':');
            i == |host| && k[..i] == host && Atoi(k[i + 1..]) == port
  {
    NoColon(port);
    assert [ ':' ] == ":";
    LastIndexAt(host, ':', Itoa(port));
    var k := Key(host, port);
    assert k[..|host|] == host && k[|host| + 1..] == Itoa(port);
    AtoiItoa(port);
  }

  // ---- Values ----

  /** What a worker object holds; the load is a number and times are clock readings. */
  datatype Info = Info(name: string, host: string, port: int, ip: string, vramTotal: nat, vramUsed: nat, ramTotal: nat,
                       ramUsed: nat, gpuName: string, cpuLoad: int, status: string, lastSeen: int)

  function NewInfo(name: string, host: string, port: int, ip: string, status: string, now: int): Info {
    Info(name, host, port, ip, 0, 0, 0, 0, "", 0, status, now)
  }

  /** parseEntry: the first IPv4 address, if there is one, is both IP and host. */
  function ParseEntry(name: string, addrs: seq<string>, port: int, now: int): Info {
    var ip := if |addrs| > 0 then addrs[0] else "";
    NewInfo(name, ip, port, ip, "available", now)
  }

  type Entries = map<string, Info>

  /** Every entry stands under the printed address of its own worker. */
  ghost predicate Keyed(r: Entries) {
    forall k :: k in r ==> k == Key(r[k].host, r[k].port)
  }

  function InfoKey(i: Info): string { Key(i.host, i.port) }

  function Scanned(r: Entries, i: Info): Entries { r[InfoKey(i) := i] }

  function Added(r: Entries, host: string, port: int, name: string, now: int): Entries {
    var key := Key(host, port);
    if key in r then r[key := r[key].(lastSeen := now, status := "connected")]
    else r[key := NewInfo(name, host, port, host, "connected", now)]
  }

  function Updated(r: Entries, key: string, metrics: Info -> Info, now: int): Entries {
    if key in r then r[key := metrics(r[key]).(lastSeen := now)] else r
  }

  function Removed(r: Entries, key: string): Entries { r - {key} }

  // ---- The lossy channel ----

  const CAPACITY: nat := 100

  datatype ChanOp<T> = Offer(item: T) | Receive

  /** `buf` is what is buffered, `got` what has been received. */
  datatype Chan<T> = Chan(buf: seq<T>, got: seq<T>)

  function ChanStep<T>(c: Chan<T>, op: ChanOp<T>): Chan<T> {
    match op
    case Offer(x) => if |c.buf| < CAPACITY then c.(buf := c.buf + [x]) else c
    case Receive => if c.buf == [] then c else Chan(c.buf[1..], c.got + [c.buf[0]])
  }

  function ChanRun<T>(ops: seq<ChanOp<T>>): Chan<T> {
    if ops == [] then Chan([], []) else ChanStep(ChanRun(ops[..|ops|-1]), ops[|ops|-1])
  }

  lemma ChanRunStep<T>(ops: seq<ChanOp<T>>, op: ChanOp<T>)
    ensures ChanRun(ops + [op]) == ChanStep(ChanRun(ops), op)
  {
    assert (ops + [op])[..|ops|] == ops;
  }

  /** The items offered, in order. */
  function Offered<T>(ops: seq<ChanOp<T>>): seq<T> {
    if ops == [] then []
    else Offered(ops[..|ops|-1]) + match ops[|ops|-1] case Offer(x) => [x] case Receive => []
  }

  /** How many items are buffered, counted without looking at them. */
  function Occupancy<T>(ops: seq<ChanOp<T>>): nat {
    if ops == [] then 0
    else
      var n := Occupancy(ops[..|ops|-1]);
      match ops[|ops|-1]
      case Offer(_) => if n < CAPACITY then n + 1 else n
      case Receive => if n > 0 then n - 1 else n
  }

  /** The items offered while the buffer was not full, in order. */
  function Accepted<T>(ops: seq<ChanOp<T>>): seq<T> {
    if ops == [] then []
    else
      var before := ops[..|ops|-1];
      Accepted(before) +
      match ops[|ops|-1] case Offer(x) => (if Occupancy(before) < CAPACITY then [x] else []) case Receive => []
  }

  /** How many offers found the buffer full. */
  function Drops<T>(ops: seq<ChanOp<T>>): nat {
    if ops == [] then 0
    else
      var before := ops[..|ops|-1];
      Drops(before) + if ops[|ops|-1].Offer? && Occupancy(before) >= CAPACITY then 1 else 0
  }

  /** Received plus buffered items are, in order, exactly those offered to a buffer that was not full. */
  lemma {:induction false} ChannelKeepsAccepted<T>(ops: seq<ChanOp<T>>)
    ensures var c := ChanRun(ops);
            c.got + c.buf == Accepted(ops) && |c.buf| == Occupancy(ops) <= CAPACITY
    ensures |Offered(ops)| == |Accepted(ops)| + Drops(ops)
  {
    if ops != [] {
      var before := ops[..|ops|-1];
      ChannelKeepsAccepted(before);
      var c := ChanRun(before);
      match ops[|ops|-1] {
        case Offer(x) =>
          assert c.got + (c.buf + [x]) == (c.got + c.buf) + [x];
          assert Accepted(before) + [] == Accepted(before);
        case Receive =>
          assert Accepted(before) + [] == Accepted(before);
          if c.buf != [] { assert (c.got + [c.buf[0]]) + c.buf[1..] == c.got + c.buf; }
      }
    }
  }

  /** `at` picks from b, in rising positions, the items of a. */
  predicate Picks<T(==)>(a: seq<T>, b: seq<T>, at: seq<nat>) {
    |at| == |a| && (forall i :: 0 <= i < |at| ==> at[i] < |b| && b[at[i]] == a[i]) &&
    forall i, j :: 0 <= i < j < |at| ==> at[i] < at[j]
  }

  lemma PicksMore<T>(a: seq<T>, b: seq<T>, c: seq<T>, at: seq<nat>)
    requires Picks(a, b, at)
    ensures Picks(a, b + c, at)
  {
  }

  lemma PicksLast<T>(a: seq<T>, b: seq<T>, x: T, at: seq<nat>)
    requires Picks(a, b, at)
    ensures Picks(a + [x], b + [x], at + [|b|])
  {
    var at' := at + [|b|];
    forall i | 0 <= i < |at'|
      ensures at'[i] < |b + [x]| && (b + [x])[at'[i]] == (a + [x])[i]
    {
      if i < |at| { assert at'[i] == at[i] && at[i] < |b|; }
    }
  }

  lemma {:induction false} AcceptedPicks<T>(ops: seq<ChanOp<T>>) returns (at: seq<nat>)
    ensures Picks(Accepted(ops), Offered(ops), at)
  {
    if ops == [] {
      at := [];
    } else {
      var before := ops[..|ops|-1];
      at := AcceptedPicks(before);
      match ops[|ops|-1]
      case Receive =>
        assert Accepted(ops) == Accepted(before) && Offered(ops) == Offered(before);
      case Offer(x) =>
        if Occupancy(before) < CAPACITY {
          PicksLast(Accepted(before), Offered(before), x, at);
          at := at + [|Offered(before)|];
        } else {
          PicksMore(Accepted(before), Offered(before), [x], at);
          assert Accepted(ops) == Accepted(before);
        }
    }
  }

  /** In every run, received plus buffered items form a subsequence of the discoveries. */
  lemma ReceivedIsSubsequence<T>(ops: seq<ChanOp<T>>)
    ensures var c := ChanRun(ops); exists at: seq<nat> :: Picks(c.got + c.buf, Offered(ops), at)
  {
    ChannelKeepsAccepted(ops);
    var at := AcceptedPicks(ops);
  }

  // ---- The objects ----

  class WorkerInfo {
    var data: Info

    constructor (i: Info)
      ensures data == i
    {
      data := i;
    }
  }

  class Discovery {
    var workers: map<string, WorkerInfo>
    var ch: seq<WorkerInfo>
    /** What has been received, and every send and receive so far. */
    ghost var received: seq<WorkerInfo>
    ghost var traffic: seq<ChanOp<WorkerInfo>>

    ghost function View(): Entries
      reads this, workers.Values
    {
      map k | k in workers :: workers[k].data
    }

    ghost function Channel(): Chan<WorkerInfo>
      reads this
    {
      Chan(ch, received)
    }

    /** Every entry stands under its address, and the channel is what its traffic leaves. */
    ghost predicate Valid()
      reads this, workers.Values
    {
      Keyed(View()) && Channel() == ChanRun(traffic)
    }

    constructor ()
      ensures Valid() && View() == map[] && ch == [] && traffic == []
    {
      workers, ch, received, traffic := map[], [], [], [];
    }

    /** The scanner's step for one entry: insert a new object, and offer it to the channel. */
    method Scan(name: string, addrs: seq<string>, port: int, now: int) returns (info: WorkerInfo)
      requires Valid()
      modifies this
      ensures Valid() && fresh(info) && info.data == ParseEntry(name, addrs, port, now)
      ensures View() == Scanned(old(View()), info.data)
      ensures info.data.name == name && info.data.port == port && info.data.lastSeen == now
      ensures info.data.host == info.data.ip == (if addrs == [] then "" else addrs[0]) &&
              info.data.status == "available"
      ensures ch == if |old(ch)| < CAPACITY then old(ch) + [info] else old(ch)
      ensures traffic == old(traffic) + [ChanOp.Offer(info)]
    {
      info := new WorkerInfo(ParseEntry(name, addrs, port, now));
      Insert(info);
      Offer(info);
    }

    /** A send that gives up when the buffer is full. */
    method Offer(info: WorkerInfo)
      requires Valid()
      modifies `ch, `traffic
      ensures Valid() && View() == old(View())
      ensures ch == if |old(ch)| < CAPACITY then old(ch) + [info] else old(ch)
      ensures Channel() == ChanStep(old(Channel()), ChanOp.Offer(info)) &&
              traffic == old(traffic) + [ChanOp.Offer(info)]
    {
      if |ch| < CAPACITY { ch := ch + [info]; }
      ChanRunStep(traffic, ChanOp.Offer(info));
      traffic := traffic + [ChanOp.Offer(info)];
    }

    method Insert(info: WorkerInfo)
      requires Valid()
      modifies `workers
      ensures Valid() && View() == Scanned(old(View()), info.data)
    {
      ApplyKeyedIff(View(), Op.Scan(info.data));
      workers := workers[InfoKey(info.data) := info];
      assert View() == Scanned(old(View()), info.data);
    }

    /** A receive that finds something buffered. */
    method Receive() returns (info: WorkerInfo)
      requires Valid() && ch != []
      modifies `ch, `received, `traffic
      ensures Valid() && info == old(ch)[0] && ch == old(ch)[1..] && View() == old(View())
      ensures Channel() == ChanStep(old(Channel()), ChanOp.Receive) && traffic == old(traffic) + [ChanOp.Receive]
    {
      info := ch[0];
      ch, received := ch[1..], received + [ch[0]];
      ChanRunStep(traffic, ChanOp.Receive);
      traffic := traffic + [ChanOp.Receive];
    }

    /** What has been received and what is buffered are, in order, the workers offered while the buffer was not full. */
    lemma LosesOnlyWhenFull()
      requires Valid()
      ensures received + ch == Accepted(traffic) && |ch| == Occupancy(traffic) <= 100
      ensures exists at: seq<nat> :: Picks(received + ch, Offered(traffic), at)
    {
      ChannelKeepsAccepted(traffic);
      ReceivedIsSubsequence(traffic);
    }

    /** Adding by hand: an object already there is changed in place. */
    method AddManualWorker(host: string, port: int, name: string, now: int)
      requires Valid()
      modifies `workers, workers.Values
      ensures Valid() && View() == Added(old(View()), host, port, name, now)
      ensures Key(host, port) in old(workers) ==> workers == old(workers)
      ensures Key(host, port) in View()
      ensures var w, was := View()[Key(host, port)], old(View());
              w.lastSeen == now && w.status == "connected" &&
              (Key(host, port) in was ==> w == was[Key(host, port)].(lastSeen := now, status := "connected")) &&
              (Key(host, port) !in was ==>
                 w == Info(name, host, port, host, 0, 0, 0, 0, "", 0, "connected", now))
    {
      var key := Key(host, port);
      if key in workers {
        var existing := workers[key];
        assert forall k :: k in workers && k != key ==> workers[k] != existing by {
          assert forall k :: k in workers ==> k == Key(workers[k].data.host, workers[k].data.port) by {
            assert forall k :: k in workers ==> k in View() && View()[k] == workers[k].data;
          }
        }
        existing.data := existing.data.(lastSeen := now);
        existing.data := existing.data.(status := "connected");
        assert View() == Added(old(View()), host, port, name, now);
        ApplyKeyedIff(old(View()), AddManual(host, port, name, now));
        return;
      }
      var info := new WorkerInfo(NewInfo(name, host, port, host, "connected", now));
      Insert(info);
    }

    /** The callback may change any field of the worker it is given; the entries stay keyed exactly when it keeps
        the address. */
    method UpdateWorkerMetrics(key: string, metrics: Info -> Info, now: int)
      requires Valid()
      modifies workers.Values
      ensures View() == Updated(old(View()), key, metrics, now)
      ensures Valid() <==> AddressKept(old(View()), Update(key, metrics, now))
    {
      ApplyKeyedIff(View(), Update(key, metrics, now));
      if key in workers {
        var w := workers[key];
        assert forall k :: k in workers ==> k in View() && View()[k] == workers[k].data;
        assert forall k :: k in workers && k != key ==> workers[k] != w;
        w.data := metrics(w.data);
        w.data := w.data.(lastSeen := now);
      }
      assert View() == Updated(old(View()), key, metrics, now);
    }

    method RemoveWorker(key: string)
      requires Valid()
      modifies `workers
      ensures Valid() && View() == Removed(old(View()), key)
    {
      workers := workers - {key};
      assert View() == Removed(old(View()), key);
      ApplyKeyedIff(old(View()), Remove(key));
    }

    /** The workers in some order of the map's iteration: each object of the map, and each address, exactly once. */
    method GetWorkers() returns (result: seq<WorkerInfo>)
      requires Valid()
      ensures |result| == |workers|
      ensures forall w :: w in result <==> w in workers.Values
      ensures forall i, j :: 0 <= i < j < |result| ==>
                (result[i].data.host, result[i].data.port) != (result[j].data.host, result[j].data.port)
    {
      result := [];
      var rest := workers.Keys;
      ghost var order: seq<string> := [];
      while rest != {}
        invariant rest <= workers.Keys && |order| == |result| && |result| + |rest| == |workers|
        invariant forall i :: 0 <= i < |order| ==>
                  order[i] in workers && order[i] !in rest && result[i] == workers[order[i]]
        invariant forall i, j :: 0 <= i < j < |order| ==> order[i] != order[j]
        invariant forall k :: k in workers && k !in rest ==> k in order
        decreases |rest|
      {
        var k :| k in rest;
        result := result + [workers[k]];
        order := order + [k];
        rest := rest - {k};
      }
      OrderIsValues(result, order);
    }

    lemma OrderIsValues(result: seq<WorkerInfo>, order: seq<string>)
      requires Valid() && |result| == |order|
      requires forall i :: 0 <= i < |order| ==> order[i] in workers && result[i] == workers[order[i]]
      requires forall i, j :: 0 <= i < j < |order| ==> order[i] != order[j]
      requires forall k :: k in workers ==> k in order
      ensures forall w :: w in result <==> w in workers.Values
      ensures forall i, j :: 0 <= i < j < |result| ==>
                (result[i].data.host, result[i].data.port) != (result[j].data.host, result[j].data.port)
    {
      forall w | w in workers.Values
        ensures w in result
      {
        var k :| k in workers && workers[k] == w;
        var i :| 0 <= i < |order| && order[i] == k;
        assert result[i] == w;
      }
      forall i, j | 0 <= i < j < |result|
        ensures (result[i].data.host, result[i].data.port) != (result[j].data.host, result[j].data.port)
      {
        assert View()[order[i]] == result[i].data && View()[order[j]] == result[j].data;
      }
    }
  }

  // ---- Every run keeps the entries keyed ----

  datatype Op =
    | Scan(info: Info)
    | AddManual(host: string, port: int, name: string, now: int)
    | Update(key: string, metrics: Info -> Info, now: int)
    | Remove(key: string)

  function Apply(r: Entries, op: Op): Entries {
    match op
    case Scan(i) => Scanned(r, i)
    case AddManual(h, p, n, t) => Added(r, h, p, n, t)
    case Update(k, f, t) => Updated(r, k, f, t)
    case Remove(k) => Removed(r, k)
  }

  /** An operation on these entries leaves addresses alone: only a callback could change one. */
  predicate AddressKept(r: Entries, op: Op) {
    op.Update? && op.key in r ==> InfoKey(op.metrics(r[op.key])) == op.key
  }

  /** One operation keeps the entries keyed exactly when its callback, if it has one to run, keeps the address. */
  lemma ApplyKeyedIff(r: Entries, op: Op)
    requires Keyed(r)
    ensures Keyed(Apply(r, op)) <==> AddressKept(r, op)
  {
    if op.Update? && op.key in r {
      var r' := Apply(r, op);
      assert r'[op.key] == op.metrics(r[op.key]).(lastSeen := op.now);
    }
  }

  ghost predicate KeepsAddress(op: Op) {
    op.Update? ==> forall i :: InfoKey(op.metrics(i)) == InfoKey(i)
  }

  function Run(r: Entries, ops: seq<Op>): Entries {
    if ops == [] then r else Apply(Run(r, ops[..|ops|-1]), ops[|ops|-1])
  }

  /** The entries are keyed at every moment of the run. */
  ghost predicate KeyedThroughout(ops: seq<Op>) {
    Keyed(Run(map[], ops)) && (ops == [] || KeyedThroughout(ops[..|ops|-1]))
  }

  /** Each operation leaves addresses alone in the state that it meets. */
  predicate AddressesKept(ops: seq<Op>) {
    ops == [] || (AddressesKept(ops[..|ops|-1]) && AddressKept(Run(map[], ops[..|ops|-1]), ops[|ops|-1]))
  }

  /** For every run: the entries are keyed throughout if and only if each operation keeps the address in the state
      that it meets. */
  lemma {:induction false} RunKeyedIff(ops: seq<Op>)
    ensures KeyedThroughout(ops) <==> AddressesKept(ops)
  {
    if ops != [] {
      var before := ops[..|ops|-1];
      RunKeyedIff(before);
      if KeyedThroughout(before) { ApplyKeyedIff(Run(map[], before), ops[|ops|-1]); }
    }
  }

  /** So are all runs whose callbacks keep every address. */
  lemma {:induction false} RunKeyed(ops: seq<Op>)
    requires forall k :: 0 <= k < |ops| ==> KeepsAddress(ops[k])
    ensures Keyed(Run(map[], ops))
  {
    if ops != [] {
      RunKeyed(ops[..|ops|-1]);
      ApplyKeyedIff(Run(map[], ops[..|ops|-1]), ops[|ops|-1]);
    }
  }

  // ---- Printed keys are as good as addresses ----

  type Address = (string, int)

  ghost function Addresses(r: Entries): set<Address> {
    set k | k in r :: (r[k].host, r[k].port)
  }

  /** The registry as a map from addresses. */
  ghost function ByAddress(r: Entries): map<Address, Info>
    requires Keyed(r)
  {
    map a | a in Addresses(r) :: r[Key(a.0, a.1)]
  }

  /** An address is present exactly when its printed key is. */
  lemma Present(r: Entries, host: string, port: int)
    requires Keyed(r)
    ensures (host, port) in Addresses(r) <==> Key(host, port) in r
    ensures Key(host, port) in r ==> r[Key(host, port)].host == host && r[Key(host, port)].port == port
  {
    var key := Key(host, port);
    if key in r { KeyInjective(host, port, r[key].host, r[key].port); }
  }

  lemma PresentAll(r: Entries)
    requires Keyed(r)
    ensures forall h: string, p: int :: ((h, p) in Addresses(r) <==> Key(h, p) in r)
    ensures forall h: string, p: int :: Key(h, p) in r ==> r[Key(h, p)].host == h && r[Key(h, p)].port == p
  {
    forall h: string, p: int
      ensures ((h, p) in Addresses(r) <==> Key(h, p) in r) &&
              (Key(h, p) in r ==> r[Key(h, p)].host == h && r[Key(h, p)].port == p)
    {
      Present(r, h, p);
    }
  }

  /** Removing the host, a colon and the port's numeral takes away the entry of exactly that address, and no other. */
  lemma RemovesThatAddress(r: Entries, host: string, port: nat)
    requires Keyed(r)
    ensures var r' := Removed(r, host + ":" + Numeral(port));
            (forall k :: k in r' <==> k in r && !(r[k].host == host && r[k].port == port)) && forall k :: k in r' ==>
                r'[k] == r[k]
  {
    var key := host + ":" + Numeral(port);
    assert key == Key(host, port);
    forall k | k in r
      ensures k == key <==> r[k].host == host && r[k].port == port
    {
      if k == key { KeyInjective(host, port, r[k].host, r[k].port); }
    }
  }

  /** What each operation does to the map from addresses. */
  ghost function ApplyByAddress(m: map<Address, Info>, op: Op): map<Address, Info> {
    match op
    case Scan(i) => m[(i.host, i.port) := i]
    case AddManual(h, p, n, t) =>
      if (h, p) in m then m[(h, p) := m[(h, p)].(lastSeen := t, status := "connected")]
      else m[(h, p) := NewInfo(n, h, p, h, "connected", t)]
    case Update(k, f, t) =>
      map a | a in m :: if Key(a.0, a.1) == k then f(m[a]).(lastSeen := t) else m[a]
    case Remove(k) =>
      map a | a in m && Key(a.0, a.1) != k :: m[a]
  }

  /** Writing an entry under its own key writes it under its address. */
  lemma PutByAddress(r: Entries, i: Info)
    requires Keyed(r)
    ensures Keyed(r[InfoKey(i) := i]) && ByAddress(r[InfoKey(i) := i]) == ByAddress(r)[(i.host, i.port) := i]
  {
    var r' := r[InfoKey(i) := i];
    var a, b := ByAddress(r'), ByAddress(r)[(i.host, i.port) := i];
    forall x: Address
      ensures (x in a <==> x in b) && (x in a ==> a[x] == b[x])
    {
      PutAt(r, i, x.0, x.1);
      assert x == (x.0, x.1);
    }
    assert a.Keys == b.Keys;
  }

  lemma PutAt(r: Entries, i: Info, h: string, p: int)
    requires Keyed(r) && Keyed(r[InfoKey(i) := i])
    ensures var a, b := ByAddress(r[InfoKey(i) := i]), ByAddress(r)[(i.host, i.port) := i];
            ((h, p) in a <==> (h, p) in b) && ((h, p) in a ==> a[(h, p)] == b[(h, p)])
  {
    Present(r, h, p);
    Present(r[InfoKey(i) := i], h, p);
    if Key(h, p) == InfoKey(i) { KeyInjective(h, p, i.host, i.port); }
  }

  lemma RemoveByAddress(r: Entries, k: string)
    requires Keyed(r)
    ensures Keyed(Removed(r, k))
    ensures ByAddress(Removed(r, k)) == (map a | a in ByAddress(r) && Key(a.0, a.1) != k :: ByAddress(r)[a])
  {
    var r' := Removed(r, k);
    PresentAll(r);
    PresentAll(r');
    var a, b := ByAddress(r'), map a | a in ByAddress(r) && Key(a.0, a.1) != k :: ByAddress(r)[a];
    assert a.Keys == b.Keys by {
      forall x: Address
        ensures x in a <==> x in b
      {
        assert x == (x.0, x.1);
        assert (x.0, x.1) in Addresses(r') <==> Key(x.0, x.1) in r';
        assert (x.0, x.1) in Addresses(r) <==> Key(x.0, x.1) in r;
      }
    }
  }

  lemma UpdateByAddress(r: Entries, k: string, f: Info -> Info, t: int)
    requires Keyed(r) && k in r && InfoKey(f(r[k])) == k
    ensures ByAddress(r)[(r[k].host, r[k].port) := f(r[k]).(lastSeen := t)] ==
            (map a | a in ByAddress(r) :: if Key(a.0, a.1) == k then f(ByAddress(r)[a]).(lastSeen := t)
                else ByAddress(r)[a])
  {
    PresentAll(r);
    var m := ByAddress(r);
    var x := (r[k].host, r[k].port);
    forall a: Address | a in m && Key(a.0, a.1) == k
      ensures a == x
    {
      KeyInjective(a.0, a.1, x.0, x.1);
    }
  }

  /** Refinement: under printed keys every operation does what it would do under addresses. */
  lemma {:induction false} PrintedKeysRefine(r: Entries, op: Op)
    requires Keyed(r) && AddressKept(r, op)
    ensures Keyed(Apply(r, op)) && ByAddress(Apply(r, op)) == ApplyByAddress(ByAddress(r), op)
  {
    PresentAll(r);
    match op
    case Scan(i) => PutByAddress(r, i);
    case AddManual(h, p, n, t) =>
      var key := Key(h, p);
      if key in r {
        PutByAddress(r, r[key].(lastSeen := t, status := "connected"));
      } else {
        PutByAddress(r, NewInfo(n, h, p, h, "connected", t));
      }
    case Update(k, f, t) =>
      if k in r {
        var i := f(r[k]).(lastSeen := t);
        KeyInjective(i.host, i.port, r[k].host, r[k].port);
        PutByAddress(r, i);
        UpdateByAddress(r, k, f, t);
      } else {
        assert forall a: Address :: a in ByAddress(r) ==> Key(a.0, a.1) in r;
        assert ByAddress(r) == ApplyByAddress(ByAddress(r), op);
      }
    case Remove(k) => RemoveByAddress(r, k);
  }
}
