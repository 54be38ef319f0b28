/**
  The global loading indicator (src/contexts/LoadingContext.jsx): a reference
  count of requests in flight, clamped at 0, and a `loading` flag that is set
  only when the count crosses the 0/1 boundary.

  `State` and `Start`/`Stop` specify the provider; `LoadingProvider` is the
  provider itself, whose methods update its fields in place. `flips` records the
  values passed to `setLoading`, in order: these are the busy/idle
  notifications the rest of the UI re-renders on.
*/
module Loading {

  datatype State = State(count: nat, loading: bool, flips: seq<bool>)

  datatype Op = StartOp | StopOp

  /** The state at mount: no request counted, `loading` is `token !== undefined`. */
  function Initial(tokenDefined: bool): State {
    State(0, tokenDefined, [])
  }

  /** `startLoading`: count one more request; raise the flag only on the 0 to 1 step. */
  function Start(s: State): (t: State)
    ensures t.count == s.count + 1
    ensures s.count == 0 ==> t.loading && t.flips == s.flips + [true]
    ensures s.count > 0 ==> t.loading == s.loading && t.flips == s.flips
  {
    var next := s.count + 1;
    if next == 1 then State(next, true, s.flips + [true]) else State(next, s.loading, s.flips)
  }

  /** `stopLoading`: count one request fewer, never below 0; lower the flag whenever the count is 0. */
  function Stop(s: State): (t: State)
    ensures t.count == if s.count == 0 then 0 else s.count - 1
    ensures t.count == 0 ==> !t.loading && t.flips == s.flips + [false]
    ensures t.count > 0 ==> t.loading == s.loading && t.flips == s.flips
  {
    var next: int := s.count - 1;
    var clamped: nat := if 0 > next then 0 else next;
    if clamped == 0 then State(clamped, false, s.flips + [false]) else State(clamped, s.loading, s.flips)
  }

  function Apply(s: State, op: Op): State {
    match op
    case StartOp => Start(s)
    case StopOp => Stop(s)
  }

  /** The state after the operations `ops`, applied in order. */
  function Run(s: State, ops: seq<Op>): State
    decreases |ops|
  {
    if ops == [] then s else Apply(Run(s, ops[..|ops| - 1]), ops[|ops| - 1])
  }

  /** The flag agrees with the count. */
  predicate Exact(s: State) {
    s.loading == (s.count > 0)
  }

  /** What every reachable state satisfies: a positive count has the flag raised. */
  predicate Reachable(s: State) {
    s.count > 0 ==> s.loading
  }

  /** After any start or stop the flag is exact, and reachability is kept. */
  lemma ApplyMakesExact(s: State, op: Op)
    requires Reachable(s)
    ensures Exact(Apply(s, op)) && Reachable(Apply(s, op))
  {
  }

  /** After a non-empty sequence of starts and stops, `loading == (count > 0)`, from the initial state or any reachable one. */
  lemma {:induction false} RunMakesExact(s: State, ops: seq<Op>)
    requires Reachable(s)
    ensures Reachable(Run(s, ops))
    ensures ops != [] ==> Exact(Run(s, ops))
  {
    if ops != [] {
      RunMakesExact(s, ops[..|ops| - 1]);
      ApplyMakesExact(Run(s, ops[..|ops| - 1]), ops[|ops| - 1]);
    }
  }

  lemma {:induction false} RunAppend(s: State, a: seq<Op>, b: seq<Op>)
    ensures Run(s, a + b) == Run(Run(s, a), b)
    decreases |b|
  {
    if b == [] {
      assert a + b == a;
    } else {
      assert (a + b)[..|a + b| - 1] == a + b[..|b| - 1];
      RunAppend(s, a, b[..|b| - 1]);
    }
  }

  function Repeat(op: Op, k: nat): (ops: seq<Op>)
    ensures |ops| == k && forall i :: 0 <= i < k ==> ops[i] == op
  {
    if k == 0 then [] else Repeat(op, k - 1) + [op]
  }

  /** `k` starts add `k` to the count; only the first of them, from an idle state, notifies. */
  lemma {:induction false} StartsFromIdle(s: State, k: nat)
    requires s.count == 0 && k > 0
    ensures Run(s, Repeat(StartOp, k)) == State(k, true, s.flips + [true])
  {
    if k > 1 {
      StartsFromIdle(s, k - 1);
      assert Repeat(StartOp, k)[..k - 1] == Repeat(StartOp, k - 1);
    } else {
      assert Repeat(StartOp, 1)[..0] == [];
    }
  }

  /** `j` stops on a busy count of `j` bring it to 0; only the last of them notifies. */
  lemma {:induction false} StopsToIdle(s: State, j: nat)
    requires s.count == j && j > 0 && s.loading
    ensures Run(s, Repeat(StopOp, j)) == State(0, false, s.flips + [false])
  {
    // the first j - 1 stops keep the count positive and touch nothing else
    StopsKeepBusy(s, j - 1);
    assert Repeat(StopOp, j)[..j - 1] == Repeat(StopOp, j - 1);
  }

  lemma {:induction false} StopsKeepBusy(s: State, i: nat)
    requires i < s.count && s.loading
    ensures Run(s, Repeat(StopOp, i)) == State(s.count - i, true, s.flips)
  {
    if i > 0 {
      StopsKeepBusy(s, i - 1);
      assert Repeat(StopOp, i)[..i - 1] == Repeat(StopOp, i - 1);
    }
  }

  /**
    Any number k > 0 of requests that start and then all stop leave the count at
    0 and the flag down, with exactly one busy and one idle notification,
    whatever k is.
  */
  lemma BalancedBurstNotifiesOnce(s: State, k: nat)
    requires s.count == 0 && k > 0
    ensures Run(s, Repeat(StartOp, k) + Repeat(StopOp, k)) == State(0, false, s.flips + [true, false])
  {
    RunAppend(s, Repeat(StartOp, k), Repeat(StopOp, k));
    StartsFromIdle(s, k);
    StopsToIdle(State(k, true, s.flips + [true]), k);
  }

  function CountOf(ops: seq<Op>, op: Op): nat {
    multiset(ops)[op]
  }

  /** Every prefix has stopped at most as many requests as it started: each stop pairs with an earlier start. */
  predicate Matched(ops: seq<Op>) {
    forall p :: 0 <= p <= |ops| ==> CountOf(ops[..p], StopOp) <= CountOf(ops[..p], StartOp)
  }

  /**
    Under any interleaving in which each stop pairs with an earlier start, the
    count is the number of requests outstanding, and after at least one
    operation the indicator is on exactly when a request is outstanding.
  */
  lemma {:induction false} MatchedRunCountsOutstanding(tokenDefined: bool, ops: seq<Op>)
    requires Matched(ops)
    ensures Run(Initial(tokenDefined), ops).count == CountOf(ops, StartOp) - CountOf(ops, StopOp)
    ensures ops != [] ==> Run(Initial(tokenDefined), ops).loading == (CountOf(ops, StartOp) > CountOf(ops, StopOp))
  {
    if ops != [] {
      var init, last := ops[..|ops| - 1], ops[|ops| - 1];
      MatchedPrefix(ops);
      MatchedWhole(ops);
      MatchedRunCountsOutstanding(tokenDefined, init);
      assert ops == init + [last];
      CountOfSnoc(init, last);
      assert Run(Initial(tokenDefined), ops) == Apply(Run(Initial(tokenDefined), init), last);
      ApplyCounts(Run(Initial(tokenDefined), init), last, CountOf(init, StartOp), CountOf(init, StopOp));
      RunMakesExact(Initial(tokenDefined), ops);
    }
  }

  /** One step on a count of `starts - stops` outstanding requests, when a stop never outnumbers the starts. */
  lemma ApplyCounts(s: State, op: Op, starts: nat, stops: nat)
    requires stops <= starts && s.count == starts - stops
    requires op == StopOp ==> stops < starts
    ensures Apply(s, op).count == (if op == StartOp then starts + 1 else starts) - (if op == StopOp then stops + 1 else stops)
  {
  }

  /** Dropping the last operation keeps a run matched. */
  lemma MatchedPrefix(ops: seq<Op>)
    requires Matched(ops) && ops != []
    ensures Matched(ops[..|ops| - 1])
  {
    var init := ops[..|ops| - 1];
    forall p | 0 <= p <= |init| ensures CountOf(init[..p], StopOp) <= CountOf(init[..p], StartOp) {
      assert init[..p] == ops[..p];
    }
  }

  /** A matched run has stopped no more requests than it started. */
  lemma MatchedWhole(ops: seq<Op>)
    requires Matched(ops)
    ensures CountOf(ops, StopOp) <= CountOf(ops, StartOp)
  {
    assert ops[..|ops|] == ops;
  }

  lemma CountOfSnoc(ops: seq<Op>, last: Op)
    ensures CountOf(ops + [last], StartOp) == CountOf(ops, StartOp) + (if last == StartOp then 1 else 0)
    ensures CountOf(ops + [last], StopOp) == CountOf(ops, StopOp) + (if last == StopOp then 1 else 0)
  {
    assert multiset(ops + [last]) == multiset(ops) + multiset{last};
  }

  /** The provider. `count` is `loadingCountRef.current`; `flips` logs the `setLoading` calls. */
  class LoadingProvider {
    var loading: bool
    var count: nat
    ghost var flips: seq<bool>

    ghost function Snapshot(): State
      reads this
    {
      State(count, loading, flips)
    }

    ghost predicate Valid()
      reads this
    {
      Reachable(Snapshot())
    }

    constructor (tokenDefined: bool)
      ensures Valid() && Snapshot() == Initial(tokenDefined)
    {
      loading := tokenDefined;
      count := 0;
      flips := [];
    }

    method StartLoading()
      requires Valid()
      modifies this
      ensures Valid() && Snapshot() == Start(old(Snapshot()))
      ensures loading == (count > 0)
    {
      count := count + 1;
      if count == 1 {
        loading := true;
        flips := flips + [true];
      }
    }

    method StopLoading()
      requires Valid()
      modifies this
      ensures Valid() && Snapshot() == Stop(old(Snapshot()))
      ensures loading == (count > 0)
    {
      var next: int := count - 1;
      count := if 0 > next then 0 else next;
      if count == 0 {
        loading := false;
        flips := flips + [false];
      }
    }
  }
}
