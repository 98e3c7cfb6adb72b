/** The RPC worker list of the API server and the supervisor's view of it: two slices that may share one backing array.
    This is what the slice operations do by themselves, without the locks around them; with the locks the list is empty
    whenever it is handed over (Nesting.dfy). */
module WorkerSlice {
  import opened Registry

  /** A Go slice of strings: the first n elements of its array, whose length is its capacity. */
  datatype Slice = Slice(a: array<string>, n: nat)

  predicate Fits(s: Slice) { s.n <= s.a.Length }

  function Items(s: Slice): seq<string>
    requires Fits(s)
    reads s.a
  {
    s.a[..s.n]
  }

  /** The list without its element i. */
  function Without(s: seq<string>, i: nat): seq<string>
    requires i < |s|
  {
    s[..i] + s[i + 1..]
  }

  /** What an array's first elements become when element i of its first m is removed in place: one to the left, the
      last twice. */
  function ShiftedAt(s: seq<string>, i: nat, m: nat, j: nat): string
    requires i < m <= |s| && j < |s|
  {
    if i <= j < m - 1 then s[j + 1] else s[j]
  }

  function Shifted(s: seq<string>, i: nat, m: nat): seq<string>
    requires i < m <= |s|
  {
    seq(|s|, j requires 0 <= j < |s| => ShiftedAt(s, i, m, j))
  }

  /** A full view of the list keeps its length: the removed element is gone, and the last one stands there twice. */
  lemma ShiftedFull(s: seq<string>, i: nat)
    requires i < |s|
    ensures Shifted(s, i, |s|) == Without(s, i) + [s[|s|-1]]
    ensures Shifted(s, i, |s|)[..|s|-1] == Without(s, i)
  {
    var t := Without(s, i) + [s[|s|-1]];
    assert forall j :: 0 <= j < |s| ==> Shifted(s, i, |s|)[j] == t[j];
  }

  /** A view of the first k elements stays as it was exactly when the moved elements in it equal their left
      neighbours. */
  lemma {:induction false} ShiftedViewSameIff(s: seq<string>, i: nat, m: nat, k: nat)
    requires i < m <= |s| && k <= |s|
    ensures Shifted(s, i, m)[..k] == s[..k] <==> forall j :: i <= j < k && j < m - 1 ==> s[j + 1] == s[j]
  {
    var t := Shifted(s, i, m);
    assert forall j :: 0 <= j < k ==> t[..k][j] == ShiftedAt(s, i, m, j) && s[..k][j] == s[j];
    if t[..k] == s[..k] {
      forall j | i <= j < k && j < m - 1
        ensures s[j + 1] == s[j]
      {
        assert t[..k][j] == s[..k][j];
      }
    }
  }

  /** append(s, x): in place while there is room, else into a new and larger array. */
  method Append(s: Slice, x: string, room: nat) returns (t: Slice)
    requires Fits(s)
    modifies s.a
    ensures Fits(t) && Items(t) == old(Items(s)) + [x] && t.n == s.n + 1
    ensures t.a == s.a || fresh(t.a)
    ensures forall j :: 0 <= j < s.a.Length && j != s.n ==> s.a[j] == old(s.a[j])
    ensures s.n < s.a.Length ==> t.a == s.a
    ensures s.n == s.a.Length ==> fresh(t.a) && s.a[..] == old(s.a[..])
  {
    if s.n < s.a.Length {
      s.a[s.n] := x;
      t := Slice(s.a, s.n + 1);
    } else {
      var b := new string[s.n + 1 + room];
      forall j | 0 <= j < s.n { b[j] := s.a[j]; }
      b[s.n] := x;
      t := Slice(b, s.n + 1);
    }
  }

  /** append(s[:i], s[i+1:]...): always in place. */
  method RemoveAt(s: Slice, i: nat) returns (t: Slice)
    requires Fits(s) && i < s.n
    modifies s.a
    ensures t == Slice(s.a, s.n - 1) && Fits(t)
    ensures s.a[..] == Shifted(old(s.a[..]), i, s.n)
  {
    ghost var was := s.a[..];
    var j := i;
    while j < s.n - 1
      invariant i <= j <= s.n - 1
      invariant forall k :: i <= k < j ==> s.a[k] == was[k + 1]
      invariant forall k :: 0 <= k < i || j <= k < s.a.Length ==> s.a[k] == was[k]
    {
      assert s.a[j + 1] == was[j + 1];
      s.a[j] := s.a[j + 1];
      j := j + 1;
    }
    assert forall k :: 0 <= k < s.a.Length ==> s.a[..][k] == ShiftedAt(was, i, s.n, k);
    t := Slice(s.a, s.n - 1);
  }

  class Supervisor {
    var rpcWorkers: Slice

    constructor (workers: Slice)
      ensures rpcWorkers == workers
    {
      rpcWorkers := workers;
    }

    method SetRPCWorkers(workers: Slice)
      modifies `rpcWorkers
      ensures rpcWorkers == workers
    {
      rpcWorkers := workers;
    }
  }

  class Api {
    var rpcWorkers: Slice
    const llm: Supervisor

    constructor ()
      ensures Valid() && Mine() == [] && Theirs() == [] && Covers()
      ensures fresh(llm) && fresh(rpcWorkers.a)
    {
      var empty := new string[0];
      rpcWorkers := Slice(empty, 0);
      llm := new Supervisor(Slice(empty, 0));
    }

    predicate Valid()
      reads this, llm
    {
      Fits(rpcWorkers) && Fits(llm.rpcWorkers)
    }

    /** The API server's list. */
    function Mine(): seq<string>
      requires Valid()
      reads this, llm, rpcWorkers.a
    {
      Items(rpcWorkers)
    }

    /** The list that the supervisor would start a process with. */
    function Theirs(): seq<string>
      requires Valid()
      reads this, llm, llm.rpcWorkers.a
    {
      Items(llm.rpcWorkers)
    }

    /** Where the two slices share an array, the API server's is at least as long. */
    predicate Covers()
      reads this, llm
    {
      llm.rpcWorkers.a == rpcWorkers.a ==> llm.rpcWorkers.n <= rpcWorkers.n
    }

    /** The load goroutine's hand-over: the slice itself, not a copy. */
    method Share()
      requires Valid()
      modifies llm
      ensures Valid() && Covers() && llm.rpcWorkers == rpcWorkers
      ensures Theirs() == Mine() == old(Mine())
    {
      llm.SetRPCWorkers(rpcWorkers);
    }

    /** The append of AddRPCWorker. */
    method AddRPCWorker(host: string, port: int, room: nat)
      requires Valid()
      modifies `rpcWorkers, rpcWorkers.a
      ensures Valid() && Mine() == old(Mine()) + [Key(host, port)]
      ensures rpcWorkers.a == old(rpcWorkers.a) || fresh(rpcWorkers.a)
      ensures llm.rpcWorkers == old(llm.rpcWorkers)
      ensures old(Covers()) ==> Covers() && Theirs() == old(Theirs())
    {
      rpcWorkers := Append(rpcWorkers, Key(host, port), room);
    }

    /** The removal of RemoveRPCWorker; an index out of range changes nothing. */
    method RemoveRPCWorker(index: int)
      requires Valid()
      modifies `rpcWorkers, rpcWorkers.a
      ensures Valid() && Mine() == if 0 <= index < |old(Mine())| then Without(old(Mine()), index) else old(Mine())
      ensures old(llm.rpcWorkers.a != rpcWorkers.a) || !(0 <= index < |old(Mine())|) ==> Theirs() == old(Theirs())
      ensures llm.rpcWorkers == old(llm.rpcWorkers)
      ensures old(llm.rpcWorkers.a == rpcWorkers.a) && 0 <= index < |old(Mine())| ==>
                Theirs() == Shifted(old(rpcWorkers.a[..]), index, |old(Mine())|)[..llm.rpcWorkers.n]
      ensures old(llm.rpcWorkers == rpcWorkers) && 0 <= index < |old(Mine())| ==>
                Theirs() == Without(old(Mine()), index) + [old(Mine())[|old(Mine())|-1]]
    {
      if 0 <= index < rpcWorkers.n {
        ghost var was, mine := rpcWorkers.a[..], Mine();
        ghost var n := rpcWorkers.n;
        var t := RemoveAt(rpcWorkers, index);
        assert rpcWorkers.a[..n] == Shifted(mine, index, n) by {
          assert forall j :: 0 <= j < n ==> Shifted(was, index, n)[j] == Shifted(mine, index, n)[j];
        }
        ShiftedFull(mine, index);
        assert rpcWorkers.a[..n][..n - 1] == rpcWorkers.a[..n - 1];
        rpcWorkers := t;
      }
    }

    /** Any number of additions after a hand-over leave the supervisor's list as it was handed over. */
    method AddAll(hosts: seq<(string, int)>, room: nat)
      requires Valid() && Covers()
      modifies this, rpcWorkers.a
      ensures Valid() && Covers() && Theirs() == old(Theirs())
      ensures |Mine()| == |old(Mine())| + |hosts| && old(Mine()) <= Mine()
    {
      for i := 0 to |hosts|
        invariant Valid() && Covers() && llm.rpcWorkers == old(llm.rpcWorkers) && Theirs() == old(Theirs())
        invariant rpcWorkers.a == old(rpcWorkers.a) || fresh(rpcWorkers.a)
        invariant |Mine()| == |old(Mine())| + i && old(Mine()) <= Mine()
      {
        AddRPCWorker(hosts[i].0, hosts[i].1, room);
      }
    }
  }
}
