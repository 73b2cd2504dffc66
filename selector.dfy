/**
  The strategy selector: keeps the strategies in ascending priority order
  (a stable sort, as Python's `sorted` is) and picks, for a file, the first
  one whose predicate holds.
 */
module Selector {
  import opened Strategies
  import opened ConcreteStrategies

  predicate SortedByPriority(ss: seq<Strategy>) {
    forall i, j :: 0 <= i < j < |ss| ==> ss[i].Priority() <= ss[j].Priority()
  }

  /** Inserts `x` in front of the first element whose priority is not below its own. */
  function InsertByPriority(x: Strategy, ss: seq<Strategy>): seq<Strategy> {
    if ss == [] then [x]
    else if x.Priority() <= ss[0].Priority() then [x] + ss
    else [ss[0]] + InsertByPriority(x, ss[1..])
  }

  /** `sorted(strategies, key=lambda s: s.priority)`, as a stable insertion sort. */
  function SortByPriority(ss: seq<Strategy>): seq<Strategy> {
    if ss == [] then [] else InsertByPriority(ss[0], SortByPriority(ss[1..]))
  }

  /** The strategies of priority `p`, in the order they appear in `ss`. */
  function WithPriority(ss: seq<Strategy>, p: int): seq<Strategy> {
    if ss == [] then []
    else (if ss[0].Priority() == p then [ss[0]] else []) + WithPriority(ss[1..], p)
  }

  lemma {:induction false} InsertByPriorityPermutes(x: Strategy, ss: seq<Strategy>)
    ensures multiset(InsertByPriority(x, ss)) == multiset(ss) + multiset{x}
  {
    if ss != [] && x.Priority() > ss[0].Priority() {
      InsertByPriorityPermutes(x, ss[1..]);
      assert ss == [ss[0]] + ss[1..];
    }
  }

  lemma SortedTail(ss: seq<Strategy>)
    requires ss != [] && SortedByPriority(ss)
    ensures SortedByPriority(ss[1..])
  {
  }

  lemma SortedCons(a: Strategy, rest: seq<Strategy>)
    requires SortedByPriority(rest)
    requires forall k :: 0 <= k < |rest| ==> a.Priority() <= rest[k].Priority()
    ensures SortedByPriority([a] + rest)
  {
  }

  /** Every element of `InsertByPriority(x, ss)` is `x` or an element of `ss`. */
  lemma InsertedElement(x: Strategy, ss: seq<Strategy>, y: Strategy)
    requires y in InsertByPriority(x, ss)
    ensures y == x || y in ss
  {
  }

  lemma {:induction false} InsertByPriorityKeepsOrder(x: Strategy, ss: seq<Strategy>)
    requires SortedByPriority(ss)
    ensures SortedByPriority(InsertByPriority(x, ss))
  {
    if ss == [] {
    } else if x.Priority() <= ss[0].Priority() {
      SortedCons(x, ss);
    } else {
      var rest := InsertByPriority(x, ss[1..]);
      SortedTail(ss);
      InsertByPriorityKeepsOrder(x, ss[1..]);
      forall k | 0 <= k < |rest|
        ensures ss[0].Priority() <= rest[k].Priority()
      {
        InsertedElement(x, ss[1..], rest[k]);
        if rest[k] != x {
          var m :| 0 <= m < |ss[1..]| && ss[1..][m] == rest[k];
          assert ss[m + 1] == rest[k];
        }
      }
      SortedCons(ss[0], rest);
    }
  }

  /** The selector's list is ordered by priority and holds exactly the input strategies. */
  lemma {:induction false} SortByPrioritySortsAndPermutes(ss: seq<Strategy>)
    ensures SortedByPriority(SortByPriority(ss))
    ensures multiset(SortByPriority(ss)) == multiset(ss)
  {
    if ss != [] {
      SortByPrioritySortsAndPermutes(ss[1..]);
      InsertByPriorityKeepsOrder(ss[0], SortByPriority(ss[1..]));
      InsertByPriorityPermutes(ss[0], SortByPriority(ss[1..]));
      assert ss == [ss[0]] + ss[1..];
    }
  }

  lemma WithPriorityCons(a: Strategy, ss: seq<Strategy>, p: int)
    ensures WithPriority([a] + ss, p) == (if a.Priority() == p then [a] else []) + WithPriority(ss, p)
  {
  }

  lemma {:induction false} WithPriorityOfInsert(x: Strategy, ss: seq<Strategy>, p: int)
    requires SortedByPriority(ss)
    ensures WithPriority(InsertByPriority(x, ss), p) ==
      (if x.Priority() == p then [x] else []) + WithPriority(ss, p)
  {
    if ss == [] {
      WithPriorityCons(x, [], p);
    } else if x.Priority() <= ss[0].Priority() {
      WithPriorityCons(x, ss, p);
    } else {
      var rest := InsertByPriority(x, ss[1..]);
      assert InsertByPriority(x, ss) == [ss[0]] + rest;
      WithPriorityCons(ss[0], rest, p);
      SortedTail(ss);
      WithPriorityOfInsert(x, ss[1..], p);
      var tail := WithPriority(ss[1..], p);
      assert WithPriority(ss, p) == (if ss[0].Priority() == p then [ss[0]] else []) + tail;
      if x.Priority() == p {
        assert WithPriority(rest, p) == [x] + tail;
        assert WithPriority(ss, p) == tail;
      } else {
        assert WithPriority(rest, p) == tail;
      }
    }
  }

  /** The sort is stable: strategies of equal priority keep their input order. */
  lemma {:induction false} SortByPriorityIsStable(ss: seq<Strategy>, p: int)
    ensures WithPriority(SortByPriority(ss), p) == WithPriority(ss, p)
  {
    if ss != [] {
      SortByPriorityIsStable(ss[1..], p);
      SortByPrioritySortsAndPermutes(ss[1..]);
      WithPriorityOfInsert(ss[0], SortByPriority(ss[1..]), p);
    }
  }

  /** The first strategy of `ss` that can handle `f`, if any. */
  function FirstHandling(ss: seq<Strategy>, f: FileDescriptor, ctx: GenerationContext): Option<Strategy> {
    if ss == [] then None
    else if ss[0].CanHandle(f, ctx) then Some(ss[0])
    else FirstHandling(ss[1..], f, ctx)
  }

  /** Position `i` holds a matching strategy and no earlier one matches. */
  predicate IsFirstMatch(ss: seq<Strategy>, f: FileDescriptor, ctx: GenerationContext, i: int) {
    0 <= i < |ss| && ss[i].CanHandle(f, ctx) && forall j :: 0 <= j < i ==> !ss[j].CanHandle(f, ctx)
  }

  /**
    FirstHandling returns the earliest matching strategy, every strategy
    before it does not match, and it returns None exactly when none matches.
   */
  lemma {:induction false} FirstHandlingIsEarliestMatch(ss: seq<Strategy>, f: FileDescriptor, ctx: GenerationContext)
    ensures FirstHandling(ss, f, ctx).None? <==> forall i :: 0 <= i < |ss| ==> !ss[i].CanHandle(f, ctx)
    ensures FirstHandling(ss, f, ctx).Some? ==>
      exists i :: IsFirstMatch(ss, f, ctx, i) && ss[i] == FirstHandling(ss, f, ctx).value
  {
    if ss != [] && !ss[0].CanHandle(f, ctx) {
      FirstHandlingIsEarliestMatch(ss[1..], f, ctx);
      if FirstHandling(ss, f, ctx).Some? {
        var i :| IsFirstMatch(ss[1..], f, ctx, i) && ss[1..][i] == FirstHandling(ss, f, ctx).value;
        assert IsFirstMatch(ss, f, ctx, i + 1);
      }
      if FirstHandling(ss, f, ctx).None? {
        forall i | 0 <= i < |ss|
          ensures !ss[i].CanHandle(f, ctx)
        {
          if i > 0 {
            assert ss[i] == ss[1..][i - 1];
          }
        }
      }
    } else if ss != [] {
      assert IsFirstMatch(ss, f, ctx, 0);
    }
  }

  /**
    With the default strategies the selection is the decision table: a remote
    file goes to RemoteService, a non-remote file with services to
    LocalService, a non-remote service-less local file to EmptyLocalWorkload,
    and anything else to no strategy.
   */
  lemma DefaultSelection(f: FileDescriptor, ctx: GenerationContext)
    ensures FirstHandling(SortByPriority(CreateDefaultStrategies()), f, ctx) ==
      if ctx.IsRemote(f) then Some(RemoteService)
      else if f.services != [] then Some(LocalService)
      else if ctx.IsLocal(f) then Some(EmptyLocalWorkload)
      else None
  {
    var ds := CreateDefaultStrategies();
    assert ds[1..] == [RemoteService, LocalService] && ds[2..] == [LocalService] && ds[3..] == [];
    assert SortByPriority(ds[3..]) == [];
    assert SortByPriority(ds[2..]) == [LocalService];
    assert SortByPriority(ds[1..]) == [RemoteService, LocalService];
    assert InsertByPriority(RemoteService, [LocalService]) == [RemoteService, LocalService];
    assert InsertByPriority(EmptyLocalWorkload, ds[1..]) == ds;
    assert SortByPriority(ds) == ds;
    assert FirstHandling(ds[3..], f, ctx) == None;
    assert FirstHandling(ds[2..], f, ctx) == if LocalService.CanHandle(f, ctx) then Some(LocalService) else None;
  }

  /**
    Selecting from the sorted list picks, among all given strategies that can
    handle `f`, one of least priority, and picks none exactly when none of the
    given strategies can handle `f`.
   */
  lemma SelectsLeastPriorityMatch(given: seq<Strategy>, f: FileDescriptor, ctx: GenerationContext)
    ensures FirstHandling(SortByPriority(given), f, ctx).None? <==>
      forall s :: s in given ==> !s.CanHandle(f, ctx)
    ensures FirstHandling(SortByPriority(given), f, ctx).Some? ==>
      var chosen := FirstHandling(SortByPriority(given), f, ctx).value;
      && chosen in given
      && chosen.CanHandle(f, ctx)
      && forall s :: s in given && s.CanHandle(f, ctx) ==> chosen.Priority() <= s.Priority()
  {
    var ss := SortByPriority(given);
    SortByPrioritySortsAndPermutes(given);
    FirstHandlingIsEarliestMatch(ss, f, ctx);
    forall s | s in given
      ensures s in ss
    {
      assert s in multiset(given);
    }
    forall k | 0 <= k < |ss|
      ensures ss[k] in given
    {
      assert ss[k] in multiset(ss);
    }
    if FirstHandling(ss, f, ctx).Some? {
      var i :| IsFirstMatch(ss, f, ctx, i) && ss[i] == FirstHandling(ss, f, ctx).value;
      forall s | s in given && s.CanHandle(f, ctx)
        ensures ss[i].Priority() <= s.Priority()
      {
        var k :| 0 <= k < |ss| && ss[k] == s;
        assert i <= k;
      }
    }
  }

  class StrategySelector {
    const strategies: seq<Strategy>

    /** Keeps the given strategies sorted, stably, by ascending priority. */
    constructor (strategies: seq<Strategy>)
      ensures this.strategies == SortByPriority(strategies)
      ensures SortedByPriority(this.strategies)
      ensures multiset(this.strategies) == multiset(strategies)
    {
      this.strategies := SortByPriority(strategies);
      SortByPrioritySortsAndPermutes(strategies);
    }

    /** select_strategy: scans the sorted list and returns the first strategy that can handle `f`. */
    method SelectStrategy(f: FileDescriptor, ctx: GenerationContext) returns (r: Option<Strategy>)
      ensures r == FirstHandling(strategies, f, ctx)
    {
      for i := 0 to |strategies|
        invariant FirstHandling(strategies, f, ctx) == FirstHandling(strategies[i..], f, ctx)
      {
        assert strategies[i..][1..] == strategies[i + 1..];
        if strategies[i].CanHandle(f, ctx) {
          return Some(strategies[i]);
        }
      }
      return None;
    }
  }
}
