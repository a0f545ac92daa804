/**
 * Broker selection: a static list of broker addresses and the policy that
 * picks one of them per request. The shared atomic counter of the
 * round-robin policy is modelled as a value that every selection returns
 * updated; one selection is one successful compare-and-swap.
 */
module Connection {

  /** `Constant` always serves the first broker; `RoundRobin` carries the stored counter. */
  datatype SelectionStrategy = Constant | RoundRobin(index: nat)

  /** The index handed out by one counter step and the value written back. */
  datatype Step = Step(picked: nat, stored: nat)

  /**
   * One round of `get_and_increment`: a counter at or past the end of the
   * list wraps to the first index; the stored value is always one past
   * the index handed out.
   */
  function GetAndIncrement(index: nat, maxVal: nat): (s: Step)
    ensures maxVal > 0 ==> s.picked < maxVal
    ensures index < maxVal ==> s.picked == index
    ensures index >= maxVal ==> s.picked == 0
    ensures s.stored == s.picked + 1
  {
    if index >= maxVal then Step(0, 1) else Step(index, index + 1)
  }

  datatype Selection<T> = Selection(item: T, next: SelectionStrategy)

  /**
   * `SelectionStategy::select`. The list must not be empty: the source
   * unwraps the element lookup and panics otherwise.
   */
  function Select<T>(s: SelectionStrategy, list: seq<T>): (r: Selection<T>)
    requires |list| > 0
    ensures s.Constant? ==> r.item == list[0] && r.next == Constant
    ensures s.RoundRobin? && s.index < |list| ==> r.item == list[s.index] && r.next == RoundRobin(s.index + 1)
    ensures s.RoundRobin? && s.index >= |list| ==> r.item == list[0] && r.next == RoundRobin(1)
  {
    match s
    case RoundRobin(index) =>
      var step := GetAndIncrement(index, |list|);
      Selection(list[step.picked], RoundRobin(step.stored))
    case Constant => Selection(list[0], Constant)
  }

  /** `SelectionStategy::round_robin`: a fresh counter at zero. */
  function RoundRobinFresh(): (s: SelectionStrategy)
    ensures s.RoundRobin? && s.index == 0
  {
    RoundRobin(0)
  }

  /** `SelectionStategy::default_for`: one broker gets `Constant`, any other count a fresh round robin. */
  function DefaultFor<T>(list: seq<T>): (s: SelectionStrategy)
    ensures s.Constant? <==> |list| == 1
    ensures s.RoundRobin? ==> s.index == 0
  {
    if |list| == 1 then Constant else RoundRobinFresh()
  }

  /** `k` successive selections from the same list, threading the strategy state. */
  function Selections<T>(s: SelectionStrategy, list: seq<T>, k: nat): (r: (seq<T>, SelectionStrategy))
    requires |list| > 0
    ensures |r.0| == k
    decreases k
  {
    if k == 0 then ([], s)
    else
      var first := Select(s, list);
      var rest := Selections(first.next, list, k - 1);
      ([first.item] + rest.0, rest.1)
  }

  lemma MulAtLeast(a: int, n: int)
    requires a >= 1 && n > 0
    ensures a * n >= n
  {
    assert a * n == n + (a - 1) * n;
  }

  /** Euclidean division has one quotient and remainder. */
  lemma ModUnique(x: int, n: int, q: int, r: int)
    requires n > 0 && 0 <= r < n && x == q * n + r
    ensures x % n == r
  {
    var q' := x / n;
    var r' := x % n;
    assert x == q' * n + r';
    if q' > q {
      assert (q' - q) * n == q' * n - q * n;
      MulAtLeast(q' - q, n);
    } else if q' < q {
      assert (q - q') * n == q * n - q' * n;
      MulAtLeast(q - q', n);
    }
  }

  lemma ShiftMod(x: nat, n: nat)
    requires n > 0
    ensures (x + n) % n == x % n
  {
    assert x == (x / n) * n + x % n;
    ModUnique(x + n, n, x / n + 1, x % n);
  }

  /** One counter step keeps the counter congruent to the number of selections made. */
  lemma StepMod(c: nat, p: nat, n: nat)
    requires 0 < n && c <= n && c % n == p % n
    ensures GetAndIncrement(c, n).picked == p % n
    ensures GetAndIncrement(c, n).stored <= n
    ensures GetAndIncrement(c, n).stored % n == (p + 1) % n
  {
    var q := p / n;
    var r := p % n;
    assert p == q * n + r;
    if c == n {
      ShiftMod(0, n);
      assert r == 0;
      if n == 1 {
        ModUnique(p + 1, n, q + 1, 0);
      } else {
        ModUnique(p + 1, n, q, 1);
      }
    } else {
      ModUnique(c, n, 0, c);
      if c + 1 < n {
        ModUnique(p + 1, n, q, c + 1);
        ModUnique(c + 1, n, 0, c + 1);
      } else {
        ModUnique(p + 1, n, q + 1, 0);
        ModUnique(c + 1, n, 1, 0);
      }
    }
  }

  /**
   * From a stored counter `c <= n` congruent to `p` modulo `n`, the `i`-th
   * of the following selections serves broker `(p + i) mod n`, and the
   * counter stays within `0..n`.
   */
  lemma {:induction false} RoundRobinCycles<T>(c: nat, p: nat, list: seq<T>, k: nat)
    requires 0 < |list| && c <= |list| && c % |list| == p % |list|
    ensures var r := Selections(RoundRobin(c), list, k);
      && (forall i :: 0 <= i < k ==> r.0[i] == list[(p + i) % |list|])
      && r.1.RoundRobin?
      && r.1.index <= |list|
    decreases k
  {
    var n := |list|;
    if k > 0 {
      StepMod(c, p, n);
      var first := Select(RoundRobin(c), list);
      RoundRobinCycles(first.next.index, p + 1, list, k - 1);
      var r := Selections(RoundRobin(c), list, k);
      var rest := Selections(first.next, list, k - 1);
      assert r.0 == [first.item] + rest.0;
      forall i | 1 <= i < k ensures r.0[i] == list[(p + i) % n] {
        assert r.0[i] == rest.0[i - 1];
        assert p + 1 + (i - 1) == p + i;
      }
    }
  }

  /**
   * Round-robin fairness: from a fresh counter, `n` consecutive selections
   * over `n` brokers serve each broker once in list order, and the next
   * selection serves the first broker again.
   */
  lemma RoundRobinFair<T>(list: seq<T>)
    requires |list| > 0
    ensures Selections(RoundRobinFresh(), list, |list|).0 == list
    ensures Selections(RoundRobinFresh(), list, |list| + 1).0[|list|] == list[0]
  {
    var n := |list|;
    ModUnique(0, n, 0, 0);
    RoundRobinCycles(0, 0, list, n);
    var r := Selections(RoundRobin(0), list, n);
    forall i | 0 <= i < n ensures r.0[i] == list[i] {
      assert r.0[i] == list[(0 + i) % n];
      ModUnique(0 + i, n, 0, i);
    }
    RoundRobinCycles(0, 0, list, n + 1);
    var r' := Selections(RoundRobin(0), list, n + 1);
    assert r'.0[n] == list[(0 + n) % n];
    ModUnique(0 + n, n, 1, 0);
  }

  /** `Constant` serves the first broker on every call, however many calls are made. */
  lemma {:induction false} ConstantAlwaysFirst<T>(list: seq<T>, k: nat)
    requires |list| > 0
    ensures forall i :: 0 <= i < k ==> Selections(Constant, list, k).0[i] == list[0]
    ensures Selections(Constant, list, k).1 == Constant
    decreases k
  {
    if k > 0 {
      ConstantAlwaysFirst(list, k - 1);
      var r := Selections(Constant, list, k);
      var rest := Selections(Constant, list, k - 1);
      assert r.0 == [list[0]] + rest.0;
      forall i | 1 <= i < k ensures r.0[i] == list[0] {
        assert r.0[i] == rest.0[i - 1];
      }
    }
  }

  /** `StaticPool`: the broker addresses and the strategy state. */
  datatype StaticPool = StaticPool(brokers: seq<string>, selection: SelectionStrategy)

  datatype Pick = Pick(broker: string, pool: StaticPool)

  /** `StaticPool::broker`: delegates to the strategy over the pool's unchanged broker list. */
  function Broker(pool: StaticPool): (p: Pick)
    requires |pool.brokers| > 0
    ensures p.pool.brokers == pool.brokers
    ensures exists i :: 0 <= i < |pool.brokers| && p.broker == pool.brokers[i]
    ensures pool.selection.Constant? ==> p.broker == pool.brokers[0] && p.pool == pool
  {
    var s := Select(pool.selection, pool.brokers);
    Pick(s.item, pool.(selection := s.next))
  }

  /**
   * Asks a freshly built round-robin pool for `k` brokers in a row, as the
   * source's selection test does; broker `i` of the answer is the one at
   * position `i mod n`.
   */
  method BrokersInTurn(brokers: seq<string>, k: nat) returns (picked: seq<string>)
    requires |brokers| > 0
    ensures |picked| == k
    ensures forall i :: 0 <= i < k ==> picked[i] == brokers[i % |brokers|]
  {
    var pool := StaticPool(brokers, RoundRobinFresh());
    picked := [];
    while |picked| < k
      invariant |picked| <= k
      invariant pool.brokers == brokers && pool.selection.RoundRobin?
      invariant pool.selection.index <= |brokers|
      invariant pool.selection.index % |brokers| == |picked| % |brokers|
      invariant forall i :: 0 <= i < |picked| ==> picked[i] == brokers[i % |brokers|]
      decreases k - |picked|
    {
      var n := |brokers|;
      StepMod(pool.selection.index, |picked|, n);
      var p := Broker(pool);
      picked := picked + [p.broker];
      pool := p.pool;
    }
  }
}
