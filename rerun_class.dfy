/**
 * The current revision of the plugin (`src/pytest_rerunclassfailures`):
 * the first item of a test class runs the whole class as one unit, up to
 * `rerun_max` attempts, stopping each attempt at the first sibling with a
 * genuine failure; the reports of every attempt are kept per nodeid, earlier
 * attempts are relabelled once the class is done, and every item of the class
 * then replays its own history to the reporting hooks.
 */
module RerunClass {
  import opened Pytest
  import opened NodeIds
  import opened Snapshot
  import opened Fixtures
  import opened History

  /** `rerun_max`: the initial run plus `n` reruns, or 0 (plugin disabled) when `n` is not positive. */
  function RerunMax(n: int): (m: nat)
    ensures m == 0 <==> n <= 0
    ensures m > 0 ==> m - 1 == n
    ensures m != 1
  {
    if n > 0 then n + 1 else 0
  }

  /** The items of `items` whose Python class is `cls`, in plan order. */
  function SameClass(items: seq<Item>, cls: Option<nat>): (r: seq<Item>)
    ensures |r| <= |items|
    ensures forall k :: 0 <= k < |r| ==> r[k] in items && r[k].cls == cls
    ensures forall k :: 0 <= k < |items| && items[k].cls == cls ==> items[k] in r
  {
    if items == [] then []
    else
      var last := items[|items| - 1];
      SameClass(items[..|items| - 1], cls) + (if last.cls == cls then [last] else [])
  }

  /** Filtering a concatenation filters each part, in order: the items keep their plan order and multiplicity. */
  lemma {:induction false} SameClassAppend(a: seq<Item>, b: seq<Item>, cls: Option<nat>)
    ensures SameClass(a + b, cls) == SameClass(a, cls) + SameClass(b, cls)
    decreases |b|
  {
    if b == [] {
      assert a + b == a;
    } else {
      var n := |b| - 1;
      assert (a + b)[..|a + b| - 1] == a + b[..n];
      SameClassAppend(a, b[..n], cls);
    }
  }

  /** A single item is kept exactly when it has the class. */
  lemma SameClassSingle(x: Item, cls: Option<nat>)
    ensures SameClass([x], cls) == if x.cls == cls then [x] else []
  {
    assert [x][..0] == [];
  }

  /** A sibling list: at least one item, every entry an item except the final `None` sentinel. */
  predicate WellFormed(siblings: seq<Item?>)
  {
    && |siblings| >= 2
    && siblings[|siblings| - 1] == null
    && forall k :: 0 <= k < |siblings| - 1 ==> siblings[k] != null
  }

  /**
   * `_collect_sibling_items` (lines 196-204): the item, then every later item
   * of the plan with the same class, then the `None` sentinel.
   */
  function CollectSiblings(plan: seq<Item>, pos: nat): (r: seq<Item?>)
    requires pos < |plan|
    ensures WellFormed(r)
    ensures r[0] == plan[pos]
    ensures forall k :: 1 <= k < |r| - 1 ==> r[k] != null && r[k] in plan[pos + 1..] && r[k].cls == plan[pos].cls
    ensures forall k :: pos < k < |plan| && plan[k].cls == plan[pos].cls ==> plan[k] in r[1..]
    ensures r[1..|r| - 1] == SameClass(plan[pos + 1..], plan[pos].cls)
  {
    var item: Item? := plan[pos];
    var later := SameClass(plan[pos + 1..], plan[pos].cls);
    var r := [item] + later + [null];
    assert r[1..] == later + [null];
    assert forall k :: 1 <= k < |r| - 1 ==> r[k] == later[k - 1];
    r
  }

  /** Every item of the sibling list comes from the plan. */
  lemma SiblingsInPlan(plan: seq<Item>, pos: nat)
    requires pos < |plan|
    ensures forall x: Item :: x in CollectSiblings(plan, pos) ==> x in plan
  {
    var r := CollectSiblings(plan, pos);
    forall x: Item | x in r
      ensures x in plan
    {
      var k :| 0 <= k < |r| && r[k] == x;
      if k > 0 {
        assert r[k] in plan[pos + 1..];
      }
    }
  }

  /**
   * The `nextitem` handed to sibling `i` (line 130): its successor, except
   * that the last sibling (whose successor is the sentinel) gets the first.
   */
  function NextItem(siblings: seq<Item?>, i: nat): (n: Item)
    requires WellFormed(siblings) && i < |siblings| - 1
    ensures i < |siblings| - 2 ==> n == siblings[i + 1]
    ensures i == |siblings| - 2 ==> n == siblings[0]
  {
    if siblings[i + 1] != null then siblings[i + 1] else siblings[0]
  }

  /** `report.failed and not hasattr(report, "wasxfail")` for some report of the list (line 140). */
  predicate AnyFailure(reports: seq<Report>)
  {
    exists k :: 0 <= k < |reports| && reports[k].CountsAsFailure()
  }

  /**
   * The first sibling at or after `i` whose reports on attempt `attempt`
   * contain a genuine failure, or the number of siblings when there is none:
   * an independent description of where a pass stops.
   */
  function FirstFailure(siblings: seq<Item?>, run: Engine, attempt: nat, i: nat): (r: nat)
    requires WellFormed(siblings) && i <= |siblings| - 1
    ensures i <= r <= |siblings| - 1
    ensures forall j :: i <= j < r ==> !AnyFailure(run(siblings[j].nodeid, attempt))
    ensures r < |siblings| - 1 ==> AnyFailure(run(siblings[r].nodeid, attempt))
    decreases |siblings| - i
  {
    if i == |siblings| - 1 then i
    else if AnyFailure(run(siblings[i].nodeid, attempt)) then i
    else FirstFailure(siblings, run, attempt, i + 1)
  }

  /** The `runtestprotocol` calls for siblings `lo` .. `hi - 1`, in order. */
  function RunTests(siblings: seq<Item?>, lo: nat, hi: nat): (r: seq<Event>)
    requires WellFormed(siblings) && lo <= hi <= |siblings| - 1
    ensures |r| == hi - lo
    decreases hi - lo
  {
    if lo == hi then []
    else [RunTest(siblings[lo].nodeid, NextItem(siblings, lo).nodeid)] + RunTests(siblings, lo + 1, hi)
  }

  datatype PassResult = PassResult(history: History, passed: bool, log: seq<Event>)

  /**
   * One pass over the siblings from index `i` on (the `for` loop of lines
   * 128-145): each sibling is run, its reports are recorded as attempt
   * `attempt`, and the pass stops after the first sibling with a failure.
   */
  function RunPass(siblings: seq<Item?>, run: Engine, attempt: nat, i: nat, h: History, log: seq<Event>): PassResult
    requires WellFormed(siblings) && i <= |siblings| - 1
    decreases |siblings| - i
  {
    if i == |siblings| - 1 then PassResult(h, true, log)
    else
      var item := siblings[i];
      var reports := run(item.nodeid, attempt);
      var h' := Record(h, item.nodeid, attempt, reports);
      var log' := log + [RunTest(item.nodeid, NextItem(siblings, i).nodeid)];
      if AnyFailure(reports) then PassResult(h', false, log')
      else RunPass(siblings, run, attempt, i + 1, h', log')
  }

  datatype LoopResult = LoopResult(history: History, rerunCount: nat, passed: bool, log: seq<Event>)

  /**
   * The attempt loop (lines 126-152) from attempt `count` on: a failed pass
   * is followed by a teardown and another pass while attempts remain.
   */
  function RunLoop(siblings: seq<Item?>, run: Engine, rerunMax: nat, count: nat, h: History, log: seq<Event>): LoopResult
    requires WellFormed(siblings) && count < rerunMax
    decreases rerunMax - count
  {
    var p := RunPass(siblings, run, count, 0, h, log);
    if p.passed then LoopResult(p.history, count, true, p.log)
    else if count + 1 < rerunMax then
      RunLoop(siblings, run, rerunMax, count + 1, p.history, p.log + [ClearSetupStack, TeardownAll])
    else LoopResult(p.history, count + 1, false, p.log)
  }

  /**
   * Fail-fast: a pass runs exactly the siblings up to and including the
   * first one that fails (all of them when none fails), in order, and
   * passes exactly when none fails.
   */
  lemma {:induction false} PassStopsAtFirstFailure(siblings: seq<Item?>, run: Engine, attempt: nat, i: nat, h: History, log: seq<Event>)
    requires WellFormed(siblings) && i <= |siblings| - 1
    ensures RunPass(siblings, run, attempt, i, h, log).passed <==> FirstFailure(siblings, run, attempt, i) == |siblings| - 1
    decreases |siblings| - i
  {
    if i < |siblings| - 1 {
      var item := siblings[i];
      var reports := run(item.nodeid, attempt);
      PassStep(siblings, run, attempt, i, h, log);
      if !AnyFailure(reports) {
        var h' := Record(h, item.nodeid, attempt, reports);
        var log' := log + [RunTest(item.nodeid, NextItem(siblings, i).nodeid)];
        PassStopsAtFirstFailure(siblings, run, attempt, i + 1, h', log');
      }
    }
  }

  /** The pass calls `runtestprotocol` for every sibling up to and including the first failing one, in order. */
  lemma {:induction false} PassRunsUpToFirstFailure(siblings: seq<Item?>, run: Engine, attempt: nat, i: nat, h: History, log: seq<Event>)
    requires WellFormed(siblings) && i <= |siblings| - 1
    ensures var f := FirstFailure(siblings, run, attempt, i);
            var n := |siblings| - 1;
            RunPass(siblings, run, attempt, i, h, log).log == log + RunTests(siblings, i, if f < n then f + 1 else n)
    decreases |siblings| - i
  {
    var n := |siblings| - 1;
    if i < n {
      var item := siblings[i];
      var reports := run(item.nodeid, attempt);
      var event := RunTest(item.nodeid, NextItem(siblings, i).nodeid);
      PassStep(siblings, run, attempt, i, h, log);
      if AnyFailure(reports) {
        assert RunTests(siblings, i, i + 1) == [event];
      } else {
        var h' := Record(h, item.nodeid, attempt, reports);
        var f := FirstFailure(siblings, run, attempt, i + 1);
        PassRunsUpToFirstFailure(siblings, run, attempt, i + 1, h', log + [event]);
        var m := if f < n then f + 1 else n;
        assert RunTests(siblings, i, m) == [event] + RunTests(siblings, i + 1, m);
        assert log + [event] + RunTests(siblings, i + 1, m) == log + RunTests(siblings, i, m);
      }
    }
  }

  /** One step of a pass, and where the first failure lies relative to it. */
  lemma PassStep(siblings: seq<Item?>, run: Engine, attempt: nat, i: nat, h: History, log: seq<Event>)
    requires WellFormed(siblings) && i < |siblings| - 1
    ensures var item := siblings[i];
            var reports := run(item.nodeid, attempt);
            var h' := Record(h, item.nodeid, attempt, reports);
            var log' := log + [RunTest(item.nodeid, NextItem(siblings, i).nodeid)];
            && (AnyFailure(reports) ==> RunPass(siblings, run, attempt, i, h, log) == PassResult(h', false, log')
                                        && FirstFailure(siblings, run, attempt, i) == i)
            && (!AnyFailure(reports) ==> RunPass(siblings, run, attempt, i, h, log) == RunPass(siblings, run, attempt, i + 1, h', log')
                                         && FirstFailure(siblings, run, attempt, i) == FirstFailure(siblings, run, attempt, i + 1))
  {
  }

  /** A pass never forgets a test and records every sibling it runs; the first always runs. */
  lemma {:induction false} PassRecords(siblings: seq<Item?>, run: Engine, attempt: nat, i: nat, h: History, log: seq<Event>)
    requires WellFormed(siblings) && i <= |siblings| - 1
    ensures var p := RunPass(siblings, run, attempt, i, h, log);
            && h.Keys <= p.history.Keys
            && (i < |siblings| - 1 ==> siblings[i].nodeid in p.history)
    decreases |siblings| - i
  {
    if i < |siblings| - 1 {
      var item := siblings[i];
      var reports := run(item.nodeid, attempt);
      var h' := Record(h, item.nodeid, attempt, reports);
      var log' := log + [RunTest(item.nodeid, NextItem(siblings, i).nodeid)];
      RecordShape(h, item.nodeid, attempt, reports);
      if !AnyFailure(reports) {
        assert RunPass(siblings, run, attempt, i, h, log) == RunPass(siblings, run, attempt, i + 1, h', log');
        PassRecords(siblings, run, attempt, i + 1, h', log');
      }
    }
  }

  /** After the pass with index `attempt`, no test has more than `attempt + 1` attempt lists. */
  lemma {:induction false} PassAttemptsBounded(siblings: seq<Item?>, run: Engine, attempt: nat, i: nat, h: History, log: seq<Event>)
    requires WellFormed(siblings) && i <= |siblings| - 1
    requires forall id :: id in h ==> |h[id]| <= attempt + 1
    ensures forall id :: id in RunPass(siblings, run, attempt, i, h, log).history ==>
                         |RunPass(siblings, run, attempt, i, h, log).history[id]| <= attempt + 1
    decreases |siblings| - i
  {
    if i < |siblings| - 1 {
      var item := siblings[i];
      var reports := run(item.nodeid, attempt);
      var h' := Record(h, item.nodeid, attempt, reports);
      var log' := log + [RunTest(item.nodeid, NextItem(siblings, i).nodeid)];
      RecordShape(h, item.nodeid, attempt, reports);
      forall id | id in h'
        ensures |h'[id]| <= attempt + 1
      {
        if id != item.nodeid {
          assert id in h;
        }
      }
      if AnyFailure(reports) {
        assert RunPass(siblings, run, attempt, i, h, log) == PassResult(h', false, log');
      } else {
        assert RunPass(siblings, run, attempt, i, h, log) == RunPass(siblings, run, attempt, i + 1, h', log');
        PassAttemptsBounded(siblings, run, attempt, i + 1, h', log');
      }
    }
  }

  /**
   * The loop ends passed after fewer than `rerunMax` attempts, or failed
   * with `rerun_count == rerunMax`; it never makes more than `rerunMax` passes.
   */
  lemma {:induction false} LoopBounds(siblings: seq<Item?>, run: Engine, rerunMax: nat, count: nat, h: History, log: seq<Event>)
    requires WellFormed(siblings) && count < rerunMax
    ensures var r := RunLoop(siblings, run, rerunMax, count, h, log);
            && count <= r.rerunCount <= rerunMax
            && (r.passed ==> r.rerunCount < rerunMax)
            && (!r.passed ==> r.rerunCount == rerunMax)
    decreases rerunMax - count
  {
    var p := RunPass(siblings, run, count, 0, h, log);
    if !p.passed && count + 1 < rerunMax {
      LoopBounds(siblings, run, rerunMax, count + 1, p.history, p.log + [ClearSetupStack, TeardownAll]);
    }
  }

  /**
   * Why the loop stopped: every attempt it counted had a failing sibling,
   * and when it ends passed, its last attempt had none.
   */
  lemma {:induction false} LoopOutcome(siblings: seq<Item?>, run: Engine, rerunMax: nat, count: nat, h: History, log: seq<Event>)
    requires WellFormed(siblings) && count < rerunMax
    ensures forall a :: count <= a < RunLoop(siblings, run, rerunMax, count, h, log).rerunCount ==>
                          FirstFailure(siblings, run, a, 0) < |siblings| - 1
    ensures RunLoop(siblings, run, rerunMax, count, h, log).passed ==>
              FirstFailure(siblings, run, RunLoop(siblings, run, rerunMax, count, h, log).rerunCount, 0) == |siblings| - 1
    decreases rerunMax - count
  {
    var p := RunPass(siblings, run, count, 0, h, log);
    PassStopsAtFirstFailure(siblings, run, count, 0, h, log);
    if !p.passed && count + 1 < rerunMax {
      LoopOutcome(siblings, run, rerunMax, count + 1, p.history, p.log + [ClearSetupStack, TeardownAll]);
    }
  }

  /** No attempt list exceeds `rerunMax` entries. */
  lemma {:induction false} LoopAttemptsBounded(siblings: seq<Item?>, run: Engine, rerunMax: nat, count: nat, h: History, log: seq<Event>)
    requires WellFormed(siblings) && count < rerunMax
    requires forall id :: id in h ==> |h[id]| <= count
    ensures forall id :: id in RunLoop(siblings, run, rerunMax, count, h, log).history ==>
                         |RunLoop(siblings, run, rerunMax, count, h, log).history[id]| <= rerunMax
    decreases rerunMax - count
  {
    var p := RunPass(siblings, run, count, 0, h, log);
    PassAttemptsBounded(siblings, run, count, 0, h, log);
    if !p.passed && count + 1 < rerunMax {
      LoopAttemptsBounded(siblings, run, rerunMax, count + 1, p.history, p.log + [ClearSetupStack, TeardownAll]);
    }
  }

  /** The first item always has a history, so it is never reported as a synthesized skip. */
  lemma {:induction false} LoopRecordsFirst(siblings: seq<Item?>, run: Engine, rerunMax: nat, count: nat, h: History, log: seq<Event>)
    requires WellFormed(siblings) && count < rerunMax
    ensures siblings[0].nodeid in RunLoop(siblings, run, rerunMax, count, h, log).history
    decreases rerunMax - count
  {
    var p := RunPass(siblings, run, count, 0, h, log);
    PassRecords(siblings, run, count, 0, h, log);
    if !p.passed && count + 1 < rerunMax {
      LoopRecordsFirst(siblings, run, rerunMax, count + 1, p.history, p.log + [ClearSetupStack, TeardownAll]);
    }
  }

  /**
   * The loop tore the class down at least once, that is, it made more than
   * one pass: a teardown follows every pass but the last.
   */
  predicate TornDown(r: LoopResult)
  {
    if r.passed then r.rerunCount > 0 else r.rerunCount > 1
  }

  /**
   * What a rerun touches: the class node, the item's fixture caches, the
   * item's parent and the parent of every sibling.
   */
  datatype ClassState = ClassState(attrs: map<string, PyObject>, previousFailed: bool,
                                   caches: map<FixtureDef, Option<CachedResult>>, parent: TestClass?,
                                   parents: map<Item, TestClass?>)

  /** The parent of every sibling. */
  ghost function Parents(siblings: seq<Item?>): (r: map<Item, TestClass?>)
    reads set x: Item | x in siblings
    ensures r.Keys == set x: Item | x in siblings
    ensures forall x :: x in r ==> r[x] == x.parent
  {
    map x: Item | x in siblings :: x.parent
  }

  ghost function StateOf(item: Item, parentClass: TestClass, siblings: seq<Item?>): ClassState
    reads item, parentClass, FixtureDefsOf(item), set x: Item | x in siblings
  {
    ClassState(parentClass.attrs, parentClass.previousFailed, Caches(FixtureDefsOf(item)), item.parent, Parents(siblings))
  }

  /**
   * `s` is what `_teardown_rerun` leaves of `s0`, once or several times over:
   * errored fixture results forgotten, the class node `cls` marked not
   * failed, its attributes those it had plus the snapshot's names (the
   * values under those are described by `HoldsCopies`), and the item and
   * every sibling pointing at it.
   */
  predicate RecreatedFrom(s: ClassState, s0: ClassState, cls: TestClass, initialState: map<string, PyObject>)
  {
    && !s.previousFailed
    && s.attrs.Keys == s0.attrs.Keys + initialState.Keys
    && s.attrs - initialState.Keys == s0.attrs - initialState.Keys
    && s.caches == ForgetAll(s0.caches)
    && s.parent == cls
    && s.parents.Keys == s0.parents.Keys
    && (forall x :: x in s.parents ==> s.parents[x] == cls)
  }

  /** Every snapshot entry is held by the class node as a copy. */
  predicate HoldsCopies(cls: TestClass, initialState: map<string, PyObject>)
    reads cls
  {
    forall k :: k in initialState ==> k in cls.attrs && CopyOf(initialState[k], cls.attrs[k])
  }

  /**
   * The state between two rounds of the attempt loop, against the state
   * `s0` before the first: as it was while no teardown has happened, as the
   * teardowns leave it once one has.
   */
  ghost predicate RoundState(item: Item, parentClass: TestClass, siblings: seq<Item?>, initialState: map<string, PyObject>,
                             s0: ClassState, restarted: bool)
    reads item, parentClass, FixtureDefsOf(item), set x: Item | x in siblings
  {
    if restarted then RecreatedFrom(StateOf(item, parentClass, siblings), s0, parentClass, initialState) && HoldsCopies(parentClass, initialState)
    else StateOf(item, parentClass, siblings) == s0
  }

  /** Tearing down a second time leaves what the first teardown left. */
  lemma RecreatedTwice(s2: ClassState, s1: ClassState, s0: ClassState, cls: TestClass, initialState: map<string, PyObject>)
    requires RecreatedFrom(s1, s0, cls, initialState) && RecreatedFrom(s2, s1, cls, initialState)
    ensures RecreatedFrom(s2, s0, cls, initialState)
  {
    ForgetAllIdempotent(s0.caches);
  }

  /**
   * What running a class leaves of the state `s0`: everything as it was
   * when no teardown happened; otherwise the class node not marked as
   * failed, with the same attribute names, the errored fixture results
   * forgotten, and the item and every sibling pointing at the class node.
   */
  predicate LeftByClass(s: ClassState, s0: ClassState, cls: TestClass, torn: bool)
  {
    if torn then
      && !s.previousFailed
      && s.attrs.Keys == s0.attrs.Keys
      && s.caches == ForgetAll(s0.caches)
      && s.parent == cls
      && s.parents.Keys == s0.parents.Keys
      && (forall x :: x in s.parents ==> s.parents[x] == cls)
    else
      s == s0
  }

  /** One or more teardowns, restoring a snapshot of some of the attributes, leave the state as `LeftByClass` says. */
  lemma RecreatedLeft(s: ClassState, s0: ClassState, cls: TestClass, initialState: map<string, PyObject>)
    requires RecreatedFrom(s, s0, cls, initialState) && initialState.Keys <= s0.attrs.Keys
    ensures LeftByClass(s, s0, cls, true)
  {
  }

  /** A class without genuine failures on the first attempt runs once, every sibling in order. */
  lemma CleanClassRunsOnce(siblings: seq<Item?>, run: Engine, rerunMax: nat, h: History, log: seq<Event>)
    requires WellFormed(siblings) && 0 < rerunMax
    requires forall k :: 0 <= k < |siblings| - 1 ==> !AnyFailure(run(siblings[k].nodeid, 0))
    ensures var r := RunLoop(siblings, run, rerunMax, 0, h, log);
            r.passed && r.rerunCount == 0 && r.log == log + RunTests(siblings, 0, |siblings| - 1)
  {
    PassStopsAtFirstFailure(siblings, run, 0, 0, h, log);
    PassRunsUpToFirstFailure(siblings, run, 0, 0, h, log);
  }

  /** Every attempt list in the registry has at most `max` entries. */
  predicate Bounded(rc: Registry, max: nat)
  {
    forall m, c, id :: m in rc && c in rc[m] && id in rc[m][c] ==> |rc[m][c][id]| <= max
  }

  lemma StoreTwice(rc: Registry, m: string, c: string, h: History, h': History)
    ensures Store(Store(rc, m, c, h), m, c, h') == Store(rc, m, c, h')
  {
    var inner := if m in rc then rc[m] else map[];
    assert inner[c := h][c := h'] == inner[c := h'];
    assert rc[m := inner[c := h]][m := inner[c := h'] ] == rc[m := inner[c := h']];
  }

  lemma StoreExisting(rc: Registry, m: string, c: string)
    requires m in rc && c in rc[m]
    ensures Store(rc, m, c, rc[m][c]) == rc
  {
    assert Store(rc, m, c, rc[m][c])[m] == rc[m];
  }

  /** Storing a bounded history keeps the registry bounded; used by `ClassRunBounded`, `FinishClass` and `CreateEntry`. */
  lemma StoreBounded(rc: Registry, m: string, c: string, h: History, max: nat)
    requires Bounded(rc, max)
    requires forall id :: id in h ==> |h[id]| <= max
    ensures Bounded(Store(rc, m, c, h), max)
  {
  }

  /** Storing the history the attempts of a fresh class build keeps every attempt list within `rerunMax`. */
  lemma ClassRunBounded(rc: Registry, m: string, c: string, siblings: seq<Item?>, run: Engine, rerunMax: nat, log: seq<Event>)
    requires WellFormed(siblings) && 0 < rerunMax && Bounded(rc, rerunMax)
    ensures Bounded(Store(rc, m, c, RunLoop(siblings, run, rerunMax, 0, map[], log).history), rerunMax)
  {
    LoopAttemptsBounded(siblings, run, rerunMax, 0, map[], log);
    StoreBounded(rc, m, c, RunLoop(siblings, run, rerunMax, 0, map[], log).history, rerunMax);
  }

  /**
   * Histories are keyed by module first: storing a class's history under one
   * module neither creates nor changes the entry of a same-named class in
   * another module.
   */
  lemma StoreKeepsOtherModules(rc: Registry, m: string, c: string, h: History, other: string)
    requires other != m
    ensures (other in Store(rc, m, c, h) && c in Store(rc, m, c, h)[other]) <==> (other in rc && c in rc[other])
    ensures other in rc && c in rc[other] ==> Store(rc, m, c, h)[other][c] == rc[other][c]
  {
  }

  /** Line 109: the item is not a class test, the plugin is disabled, or there is no class node. */
  predicate Ineligible(item: Item, parent: TestClass?, rerunMax: nat)
  {
    item.cls.None? || rerunMax == 0 || parent == null
  }

  /** Lines 113-115: a history entry exists already for the item's (module, class name). */
  predicate Seen(rc: Registry, item: Item, parent: TestClass?)
  {
    parent != null && ModuleOf(item.nodeid) in rc && parent.name in rc[ModuleOf(item.nodeid)]
  }

  /**
   * `RerunClassPlugin`: `rerunClasses` is the history of every class already
   * run, keyed by module and class name; `log` records the calls the plugin
   * makes into pytest, in order.
   */
  class RerunClassPlugin {
    var rerunClasses: Registry
    var log: seq<Event>
    const rerunMax: nat
    const delay: real
    const onlyLast: bool

    /** No test of any class has more attempt lists than the plugin makes attempts. */
    predicate Valid()
      reads this
    {
      Bounded(rerunClasses, rerunMax)
    }

    /** `__init__` (lines 53-57), given the values of the three command-line options. */
    constructor (rerunClassMax: int, rerunDelay: real, showOnlyLast: bool)
      ensures rerunMax == RerunMax(rerunClassMax) && delay == rerunDelay && onlyLast == showOnlyLast
      ensures rerunClasses == map[] && log == []
      ensures Valid()
    {
      rerunClasses := map[];
      log := [];
      rerunMax := if rerunClassMax > 0 then rerunClassMax + 1 else 0;
      delay := rerunDelay;
      onlyLast := showOnlyLast;
    }

    /** The inner loop of lines 72-73: one `pytest_runtest_logreport` call per report. */
    method LogReports(reports: seq<Report>)
      modifies this
      ensures log == old(log) + Logged(reports)
      ensures rerunClasses == old(rerunClasses)
    {
      for k := 0 to |reports|
        invariant log == old(log) + Logged(reports[..k])
        invariant rerunClasses == old(rerunClasses)
      {
        assert reports[..k + 1] == reports[..k] + [reports[k]];
        LoggedSnoc(reports[..k], reports[k]);
        log := log + [LogReport(reports[k])];
      }
      assert reports[..|reports|] == reports;
    }

    /** The loops of lines 71-73: every report of every attempt, in order. */
    method LogAttempts(reruns: seq<seq<Report>>)
      modifies this
      ensures log == old(log) + Logged(Flatten(reruns))
      ensures rerunClasses == old(rerunClasses)
    {
      for j := 0 to |reruns|
        invariant log == old(log) + Logged(Flatten(reruns[..j]))
        invariant rerunClasses == old(rerunClasses)
      {
        LogReports(reruns[j]);
        assert reruns[..j + 1][..j] == reruns[..j];
        LoggedAppend(Flatten(reruns[..j]), reruns[j]);
      }
      assert reruns[..|reruns|] == reruns;
    }

    /** `_report_run` (lines 69-94): replay the test's history, or report it skipped. */
    method ReportRun(item: Item, testClass: History)
      modifies this
      ensures log == old(log) + ReportRunEvents(item.nodeid, item.location, testClass)
      ensures rerunClasses == old(rerunClasses)
    {
      var start, finish := LogStart(item.nodeid, item.location), LogFinish(item.nodeid, item.location);
      ghost var before := log;
      if item.nodeid in testClass {
        log := log + [start];
        LogAttempts(testClass[item.nodeid]);
        log := log + [finish];
        assert log == before + ([start] + Logged(Flatten(testClass[item.nodeid])) + [finish]);
      } else {
        var fakeReport := SkipReport(item.nodeid);
        log := log + [start];
        log := log + [LogReport(fakeReport)];
        log := log + [finish];
        assert log == before + [start, LogReport(fakeReport), finish];
      }
    }

    /** `_collect_sibling_items` (lines 196-204). */
    static method CollectSiblingItems(plan: seq<Item>, pos: nat) returns (siblings: seq<Item?>)
      requires pos < |plan|
      ensures siblings == CollectSiblings(plan, pos)
    {
      var item := plan[pos];
      siblings := [item];
      var items := plan[pos + 1..];
      for k := 0 to |items|
        invariant siblings == [item as Item?] + SameClass(items[..k], item.cls)
      {
        assert items[..k + 1][..k] == items[..k];
        if item.cls == items[k].cls {
          siblings := siblings + [items[k]];
        }
      }
      assert items[..|items|] == items;
      siblings := siblings + [null];
    }

    /** `_save_parent_initial_state` (lines 215-231): a copy, or else the value itself, of every capturable attribute. */
    method SaveParentInitialState(parent: TestClass) returns (attrs: map<string, PyObject>)
      ensures attrs.Keys == CapturableNames(parent.attrs)
      ensures forall k :: k in attrs ==> CopyOf(parent.attrs[k], attrs[k])
      ensures forall k :: k in attrs && parent.attrs[k].cloneable ==> fresh(attrs[k])
      ensures SnapshotOf(parent.attrs, attrs)
    {
      var obj := parent.attrs;
      attrs := map[];
      var names := obj.Keys;
      while names != {}
        invariant names <= obj.Keys
        invariant attrs.Keys == set k | k in obj && k !in names && Capturable(k, obj[k])
        invariant forall k :: k in attrs ==> CopyOf(obj[k], attrs[k])
        invariant forall k :: k in attrs && obj[k].cloneable ==> fresh(attrs[k])
        decreases names
      {
        var name :| name in names;
        var value := obj[name];
        if !value.callable && !StartsWith(name, "__") && !StartsWith(name, "___") && name != "pytestmark" {
          var copy := DeepCopy(value);
          if copy.Some? {
            attrs := attrs[name := copy.value];
          } else {
            attrs := attrs[name := value];
          }
        }
        names := names - {name};
      }
    }

    /**
     * `_set_parent_initial_state` (lines 242-249): every captured attribute is
     * written back, as a copy where it can be copied and as the stored value
     * otherwise; attributes not in the snapshot are left alone.
     */
    method SetParentInitialState(parent: TestClass, state: map<string, PyObject>) returns (restored: TestClass)
      modifies parent
      ensures restored == parent
      ensures parent.attrs.Keys == old(parent.attrs).Keys + state.Keys
      ensures forall k :: k in old(parent.attrs) && k !in state ==> parent.attrs[k] == old(parent.attrs)[k]
      ensures forall k :: k in state ==> CopyOf(state[k], parent.attrs[k])
      ensures forall k :: k in state && state[k].cloneable ==> fresh(parent.attrs[k])
      ensures parent.previousFailed == old(parent.previousFailed)
    {
      var names := state.Keys;
      while names != {}
        invariant names <= state.Keys
        invariant parent.attrs.Keys == old(parent.attrs).Keys + (state.Keys - names)
        invariant forall k :: k in old(parent.attrs) && k !in state ==> parent.attrs[k] == old(parent.attrs)[k]
        invariant forall k :: k in state && k !in names ==> CopyOf(state[k], parent.attrs[k])
        invariant forall k :: k in state && k !in names && state[k].cloneable ==> fresh(parent.attrs[k])
        invariant parent.previousFailed == old(parent.previousFailed)
        decreases names
      {
        var name :| name in names;
        var value := state[name];
        var copy := DeepCopy(value);
        if copy.Some? {
          parent.attrs := parent.attrs[name := copy.value];
        } else {
          parent.attrs := parent.attrs[name := value];
        }
        names := names - {name};
      }
      restored := parent;
    }

    /**
     * `_remove_non_initial_attributes` (lines 260-269): delete every
     * capturable attribute that the snapshot does not hold. The plugin does
     * not call it (line 289 has the call commented out).
     */
    method RemoveNonInitialAttributes(parent: TestClass, initialState: map<string, PyObject>)
      modifies parent
      ensures parent.attrs.Keys <= old(parent.attrs).Keys
      ensures forall k :: k in parent.attrs ==> parent.attrs[k] == old(parent.attrs)[k]
      ensures forall k :: k in old(parent.attrs) ==>
                (k !in parent.attrs <==> Capturable(k, old(parent.attrs)[k]) && k !in initialState)
      ensures forall k :: k in parent.attrs && Capturable(k, parent.attrs[k]) ==> k in initialState
      ensures parent.previousFailed == old(parent.previousFailed)
    {
      var names := parent.attrs.Keys;
      while names != {}
        invariant names <= old(parent.attrs).Keys
        invariant parent.attrs.Keys <= old(parent.attrs).Keys
        invariant forall k :: k in parent.attrs ==> parent.attrs[k] == old(parent.attrs)[k]
        invariant forall k :: k in names ==> k in parent.attrs
        invariant forall k :: k in old(parent.attrs) && k !in names ==>
                    (k !in parent.attrs <==> Capturable(k, old(parent.attrs)[k]) && k !in initialState)
        invariant parent.previousFailed == old(parent.previousFailed)
        decreases names
      {
        var name :| name in names;
        var value := parent.attrs[name];
        if !value.callable && !StartsWith(name, "__") && !StartsWith(name, "___") && name != "pytestmark"
           && name !in initialState
        {
          parent.attrs := parent.attrs - {name};
        }
        names := names - {name};
      }
    }

    /**
     * `_recreate_test_class` (lines 285-295): drop `_previousfailed`, restore
     * the snapshot and point every sibling back at the class node; the same
     * class node and sibling list are handed back.
     */
    method RecreateTestClass(testClass: TestClass, siblings: seq<Item?>, initialState: map<string, PyObject>)
      returns (recreated: TestClass, siblings': seq<Item?>)
      requires WellFormed(siblings)
      modifies testClass, set x: Item | x in siblings
      ensures recreated == testClass && siblings' == siblings
      ensures !testClass.previousFailed
      ensures testClass.attrs.Keys == old(testClass.attrs).Keys + initialState.Keys
      ensures testClass.attrs - initialState.Keys == old(testClass.attrs) - initialState.Keys
      ensures HoldsCopies(testClass, initialState)
      ensures forall k :: k in initialState && initialState[k].cloneable ==> fresh(testClass.attrs[k])
      ensures forall x: Item :: x in siblings ==> x.parent == testClass
    {
      if testClass.previousFailed {
        testClass.previousFailed := false;
      }
      ghost var before := testClass.attrs;
      var restored := SetParentInitialState(testClass, initialState);
      ghost var attrs := testClass.attrs;
      assert attrs - initialState.Keys == before - initialState.Keys;
      for i := 0 to |siblings| - 1
        invariant testClass.attrs == attrs && !testClass.previousFailed
        invariant forall k :: k in initialState ==> CopyOf(initialState[k], testClass.attrs[k])
        invariant forall k :: 0 <= k < i ==> siblings[k].parent == testClass
      {
        siblings[i].parent := testClass;
      }
      recreated, siblings' := testClass, siblings;
    }

    /**
     * Lines 176-180 of `_teardown_rerun`: forget errored fixture results,
     * clear the setup stack and tear everything down; the class node and
     * the items are not touched.
     */
    method ClearFailedSetup(item: Item, ghost cls: TestClass, ghost siblings: seq<Item?>)
      modifies this, FixtureDefsOf(item)
      ensures log == old(log) + [ClearSetupStack, TeardownAll] && rerunClasses == old(rerunClasses)
      ensures forall d :: d in FixtureDefsOf(item) ==> d.cachedResult == Forget(old(d.cachedResult))
      ensures Caches(FixtureDefsOf(item)) == ForgetAll(old(Caches(FixtureDefsOf(item))))
      ensures unchanged(item, cls, set x: Item | x in siblings)
    {
      RemoveCachedResultsFromFailedFixtures(item);
      log := log + [ClearSetupStack];
      log := log + [TeardownAll];
    }

    /**
     * `_teardown_rerun` (lines 176-184): forget errored fixture results,
     * clear the setup stack, tear everything down and recreate the class.
     */
    method TeardownRerun(item: Item, parentClass: TestClass, siblings: seq<Item?>, initialState: map<string, PyObject>)
      returns (item': Item, parentClass': TestClass, siblings': seq<Item?>)
      requires WellFormed(siblings)
      modifies this, FixtureDefsOf(item), item, parentClass, set x: Item | x in siblings
      ensures item' == item && parentClass' == parentClass && siblings' == siblings
      ensures log == old(log) + [ClearSetupStack, TeardownAll] && rerunClasses == old(rerunClasses)
      ensures forall d :: d in FixtureDefsOf(item) ==> d.cachedResult == Forget(old(d.cachedResult))
      ensures !parentClass.previousFailed
      ensures parentClass.attrs.Keys == old(parentClass.attrs).Keys + initialState.Keys
      ensures parentClass.attrs - initialState.Keys == old(parentClass.attrs) - initialState.Keys
      ensures HoldsCopies(parentClass, initialState)
      ensures item.parent == parentClass
      ensures forall x: Item :: x in siblings ==> x.parent == parentClass
      ensures RecreatedFrom(StateOf(item, parentClass, siblings), old(StateOf(item, parentClass, siblings)), parentClass, initialState)
    {
      ClearFailedSetup(item, parentClass, siblings);
      parentClass', siblings' := RecreateTestClass(parentClass, siblings, initialState);
      item.parent := parentClass';
      item' := item;
    }

    /** Lines 133-136: give `nodeid` an attempt list with at least `rerunCount + 1` entries. */
    static method PadAttempts(h: History, nodeid: string, rerunCount: nat) returns (h': History)
      ensures h' == h[nodeid := Padded(AttemptsOf(h, nodeid), rerunCount + 1)]
    {
      ghost var before := AttemptsOf(h, nodeid);
      h' := h;
      if nodeid !in h' {
        h' := h'[nodeid := []];
      }
      while |h'[nodeid]| <= rerunCount
        invariant nodeid in h' && h' == h[nodeid := h'[nodeid]]
        invariant |before| <= |h'[nodeid]|
        invariant |h'[nodeid]| == |before| || |h'[nodeid]| <= rerunCount + 1
        invariant h'[nodeid][..|before|] == before
        invariant forall k :: |before| <= k < |h'[nodeid]| ==> h'[nodeid][k] == []
        decreases rerunCount + 1 - |h'[nodeid]|
      {
        h' := h'[nodeid := h'[nodeid] + [[]]];
      }
      var padded := h'[nodeid];
      assert padded == Padded(before, rerunCount + 1) by {
        var p := Padded(before, rerunCount + 1);
        forall k | 0 <= k < |padded|
          ensures padded[k] == p[k]
        {
          if k < |before| {
            assert padded[k] == padded[..|before|][k];
            assert p[k] == p[..|before|][k];
          }
        }
      }
    }

    /**
     * Lines 133-141: record `reports` as attempt `rerunCount` of `nodeid`,
     * padding its attempt list first, and say whether any of them is a
     * genuine failure.
     */
    method RecordReports(moduleKey: string, name: string, nodeid: string, rerunCount: nat, reports: seq<Report>)
      returns (failed: bool)
      requires moduleKey in rerunClasses && name in rerunClasses[moduleKey]
      modifies this
      ensures rerunClasses == Store(old(rerunClasses), moduleKey, name, Record(old(rerunClasses)[moduleKey][name], nodeid, rerunCount, reports))
      ensures failed <==> AnyFailure(reports)
      ensures log == old(log)
    {
      var h := rerunClasses[moduleKey][name];
      ghost var h0 := h;
      h := PadAttempts(h, nodeid, rerunCount);
      var padded := h[nodeid];
      ghost var slot := padded[rerunCount];
      assert h == h0[nodeid := padded[rerunCount := slot + reports[..0]]] by {
        assert slot + reports[..0] == slot;
        assert padded[rerunCount := slot] == padded;
      }
      failed := false;
      for k := 0 to |reports|
        invariant h == h0[nodeid := padded[rerunCount := slot + reports[..k]]]
        invariant failed <==> exists j :: 0 <= j < k && reports[j].CountsAsFailure()
      {
        var report := reports[k];
        ghost var current := slot + reports[..k];
        assert slot + reports[..k + 1] == current + [report];
        assert h[nodeid][rerunCount] == current;
        h := h[nodeid := h[nodeid][rerunCount := h[nodeid][rerunCount] + [report]]];
        assert h[nodeid] == padded[rerunCount := current][rerunCount := current + [report]];
        assert h[nodeid] == padded[rerunCount := current + [report]];
        if report.IsFailed() && !report.wasxfail {
          failed := true;
        }
      }
      assert reports[..|reports|] == reports;
      rerunClasses := rerunClasses[moduleKey := rerunClasses[moduleKey][name := h]];
    }

    /** One pass over the siblings (lines 127-145), proved against `RunPass`. */
    method RunSiblingsPass(siblings: seq<Item?>, run: Engine, rerunCount: nat, moduleKey: string, name: string)
      returns (passed: bool)
      requires WellFormed(siblings)
      requires moduleKey in rerunClasses && name in rerunClasses[moduleKey]
      modifies this
      ensures var p := RunPass(siblings, run, rerunCount, 0, old(rerunClasses)[moduleKey][name], old(log));
              rerunClasses == Store(old(rerunClasses), moduleKey, name, p.history) && log == p.log && passed == p.passed
    {
      ghost var rc0 := rerunClasses;
      ghost var target := RunPass(siblings, run, rerunCount, 0, rerunClasses[moduleKey][name], log);
      StoreExisting(rc0, moduleKey, name);
      passed := true;
      var i := 0;
      while i < |siblings| - 1
        invariant 0 <= i <= |siblings| - 1
        invariant moduleKey in rerunClasses && name in rerunClasses[moduleKey]
        invariant rerunClasses == Store(rc0, moduleKey, name, rerunClasses[moduleKey][name])
        invariant RunPass(siblings, run, rerunCount, i, rerunClasses[moduleKey][name], log) == target
        invariant passed
        decreases |siblings| - 1 - i
      {
        var nextitem := NextItem(siblings, i);
        var reports := run(siblings[i].nodeid, rerunCount);
        log := log + [RunTest(siblings[i].nodeid, nextitem.nodeid)];
        ghost var h := rerunClasses[moduleKey][name];
        var failed := RecordReports(moduleKey, name, siblings[i].nodeid, rerunCount, reports);
        StoreTwice(rc0, moduleKey, name, h, Record(h, siblings[i].nodeid, rerunCount, reports));
        if failed {
          passed := false;
          break;
        }
        i := i + 1;
      }
    }

    /** `_process_reports` (lines 306-313), proved against `ProcessReports`. */
    method ProcessClassReports(moduleKey: string, name: string)
      requires moduleKey in rerunClasses && name in rerunClasses[moduleKey]
      modifies this
      ensures rerunClasses == Store(old(rerunClasses), moduleKey, name, ProcessReports(old(rerunClasses)[moduleKey][name], onlyLast))
      ensures log == old(log)
    {
      var testClass := rerunClasses[moduleKey][name];
      ghost var h0 := testClass;
      var todo := testClass.Keys;
      while todo != {}
        invariant todo <= h0.Keys && testClass.Keys == h0.Keys
        invariant forall id :: id in h0 && id !in todo ==> testClass[id] == ProcessAttempts(h0[id], onlyLast)
        invariant forall id :: id in todo ==> testClass[id] == h0[id]
        decreases todo
      {
        var sibling :| sibling in todo;
        var reruns := testClass[sibling];
        if |reruns| > 1 {
          if onlyLast {
            testClass := testClass[sibling := [reruns[|reruns| - 1]]];
          } else {
            var relabelled := reruns;
            for j := 0 to |reruns| - 1
              invariant |relabelled| == |reruns|
              invariant forall k :: 0 <= k < j ==> relabelled[k] == RelabelAll(reruns[k])
              invariant forall k :: j <= k < |reruns| ==> relabelled[k] == reruns[k]
            {
              var rerun := relabelled[j];
              for t := 0 to |rerun|
                invariant |rerun| == |reruns[j]|
                invariant forall u :: 0 <= u < t ==> rerun[u] == reruns[j][u].(outcome := Rerun)
                invariant forall u :: t <= u < |rerun| ==> rerun[u] == reruns[j][u]
              {
                rerun := rerun[t := rerun[t].(outcome := Rerun)];
              }
              assert rerun == RelabelAll(reruns[j]);
              relabelled := relabelled[j := rerun];
            }
            assert relabelled == ProcessAttempts(reruns, onlyLast);
            testClass := testClass[sibling := relabelled];
          }
        }
        todo := todo - {sibling};
      }
      assert testClass == ProcessReports(h0, onlyLast);
      rerunClasses := rerunClasses[moduleKey := rerunClasses[moduleKey][name := testClass]];
    }

    /**
     * One round of the attempt loop of lines 123-152: a pass over the
     * siblings and, when the pass failed and another may follow, the
     * teardown. `s0` is the state before the first round and `restarted`
     * says whether an earlier round tore the class down.
     */
    method RunRound(item: Item, parentClass: TestClass, siblings: seq<Item?>, initialState: map<string, PyObject>,
                    run: Engine, moduleKey: string, name: string, rerunCount: nat,
                    ghost s0: ClassState, ghost restarted: bool)
      returns (passed: bool, rerunCount': nat, ghost restarted': bool)
      requires WellFormed(siblings) && rerunCount < rerunMax
      requires moduleKey in rerunClasses && name in rerunClasses[moduleKey]
      requires RoundState(item, parentClass, siblings, initialState, s0, restarted)
      modifies this, FixtureDefsOf(item), item, parentClass, set x: Item | x in siblings
      ensures moduleKey in rerunClasses && name in rerunClasses[moduleKey]
      ensures rerunClasses == Store(old(rerunClasses), moduleKey, name, rerunClasses[moduleKey][name])
      ensures rerunCount' == if passed then rerunCount else rerunCount + 1
      ensures var before := RunLoop(siblings, run, rerunMax, rerunCount, old(rerunClasses)[moduleKey][name], old(log));
              if !passed && rerunCount' < rerunMax
              then rerunCount' == rerunCount + 1 && before == RunLoop(siblings, run, rerunMax, rerunCount', rerunClasses[moduleKey][name], log)
              else before == LoopResult(rerunClasses[moduleKey][name], rerunCount', passed, log)
      ensures restarted' == (restarted || (!passed && rerunCount' < rerunMax))
      ensures RoundState(item, parentClass, siblings, initialState, s0, restarted')
    {
      ghost var sBefore := StateOf(item, parentClass, siblings);
      passed := RunSiblingsPass(siblings, run, rerunCount, moduleKey, name);
      assert StateOf(item, parentClass, siblings) == sBefore;
      rerunCount' := if passed then rerunCount else rerunCount + 1;
      restarted' := restarted;
      if !passed && rerunCount' < rerunMax {
        ghost var s1 := StateOf(item, parentClass, siblings);
        var item', parentClass', siblings' := TeardownRerun(item, parentClass, siblings, initialState);
        if restarted {
          RecreatedTwice(StateOf(item, parentClass, siblings), s1, s0, parentClass, initialState);
        }
        restarted' := true;
        // the `sleep(self.delay)` of line 152 has no effect on the model
      }
    }

    /**
     * The attempt loop of lines 123-152, proved against `RunLoop`: passes
     * over the siblings until one passes or `rerunMax` attempts are used up,
     * tearing the class down and restoring its snapshot between passes.
     * The class node, the fixtures and the siblings are left as they were
     * when no teardown happened, and as the teardowns leave them otherwise.
     */
    method RunAttempts(item: Item, parentClass: TestClass, siblings: seq<Item?>, initialState: map<string, PyObject>,
                       run: Engine, moduleKey: string, name: string)
      returns (rerunCount: nat, passed: bool, ghost restarted: bool)
      requires WellFormed(siblings) && 0 < rerunMax
      requires moduleKey in rerunClasses && name in rerunClasses[moduleKey]
      modifies this, FixtureDefsOf(item), item, parentClass, set x: Item | x in siblings
      ensures var r := RunLoop(siblings, run, rerunMax, 0, old(rerunClasses)[moduleKey][name], old(log));
              && rerunClasses == Store(old(rerunClasses), moduleKey, name, r.history)
              && log == r.log && rerunCount == r.rerunCount && passed == r.passed
              && restarted == TornDown(r)
      ensures !restarted ==> StateOf(item, parentClass, siblings) == old(StateOf(item, parentClass, siblings))
      ensures restarted ==> RecreatedFrom(StateOf(item, parentClass, siblings), old(StateOf(item, parentClass, siblings)), parentClass, initialState)
      ensures restarted ==> HoldsCopies(parentClass, initialState)
    {
      ghost var target := RunLoop(siblings, run, rerunMax, 0, rerunClasses[moduleKey][name], log);
      ghost var s0 := StateOf(item, parentClass, siblings);
      StoreExisting(rerunClasses, moduleKey, name);
      rerunCount := 0;
      passed := false;
      restarted := false;
      while !passed && rerunCount < rerunMax
        invariant !passed && rerunCount < rerunMax ==> (restarted <==> rerunCount > 0)
        invariant passed || rerunCount >= rerunMax ==> restarted == TornDown(LoopResult(map[], rerunCount, passed, []))
        invariant RoundState(item, parentClass, siblings, initialState, s0, restarted)
        invariant moduleKey in rerunClasses && name in rerunClasses[moduleKey]
        invariant rerunClasses == Store(old(rerunClasses), moduleKey, name, rerunClasses[moduleKey][name])
        invariant !passed && rerunCount < rerunMax ==>
                    RunLoop(siblings, run, rerunMax, rerunCount, rerunClasses[moduleKey][name], log) == target
        invariant passed || rerunCount >= rerunMax ==>
                    target == LoopResult(rerunClasses[moduleKey][name], rerunCount, passed, log)
        decreases rerunMax - rerunCount, if passed then 0 else 1
      {
        ghost var h := rerunClasses[moduleKey][name];
        passed, rerunCount, restarted := RunRound(item, parentClass, siblings, initialState, run, moduleKey, name,
                                                  rerunCount, s0, restarted);
        StoreTwice(old(rerunClasses), moduleKey, name, h, rerunClasses[moduleKey][name]);
      }
    }

    /**
     * Lines 154-157: rewrite the class's history as `_process_reports` does,
     * replay the item's own part of it and tear everything down.
     */
    method FinishClass(item: Item, moduleKey: string, name: string, ghost cls: TestClass, ghost items: seq<Item?>)
      requires moduleKey in rerunClasses && name in rerunClasses[moduleKey]
      requires Valid()
      modifies this
      ensures Valid()
      ensures unchanged(item, cls, FixtureDefsOf(item), set x: Item | x in items)
      ensures var h := ProcessReports(old(rerunClasses)[moduleKey][name], onlyLast);
              && rerunClasses == Store(old(rerunClasses), moduleKey, name, h)
              && log == old(log) + ReportRunEvents(item.nodeid, item.location, h) + [TeardownAll]
    {
      ghost var h := rerunClasses[moduleKey][name];
      ProcessClassReports(moduleKey, name);
      StoreTwice(old(rerunClasses), moduleKey, name, h, rerunClasses[moduleKey][name]);
      StoreBounded(old(rerunClasses), moduleKey, name, rerunClasses[moduleKey][name], rerunMax);
      ReportRun(item, rerunClasses[moduleKey][name]);
      log := log + [TeardownAll];
    }

    /** Lines 113-116: the (empty) history entry of a class seen for the first time. */
    method CreateEntry(moduleKey: string, name: string, ghost item: Item, ghost cls: TestClass, ghost items: seq<Item?>)
      requires Valid() && !(moduleKey in rerunClasses && name in rerunClasses[moduleKey])
      modifies this
      ensures Valid() && log == old(log)
      ensures unchanged(item, cls, FixtureDefsOf(item), set x: Item | x in items)
      ensures rerunClasses == Store(old(rerunClasses), moduleKey, name, map[])
    {
      if moduleKey !in rerunClasses {
        rerunClasses := rerunClasses[moduleKey := map[]];
      }
      rerunClasses := rerunClasses[moduleKey := rerunClasses[moduleKey][name := map[]]];
      StoreBounded(old(rerunClasses), moduleKey, name, map[], rerunMax);
    }

    /**
     * Lines 121-152, for the first item of a class whose (empty) history
     * entry has just been created: collect the siblings, snapshot the class
     * and run the attempts, which leave the class node, the fixtures and the
     * parents as `LeftByClass` describes.
     */
    method AttemptClass(plan: seq<Item>, pos: nat, parentClass: TestClass, run: Engine, moduleKey: string)
      returns (siblings: seq<Item?>, ghost r: LoopResult)
      requires pos < |plan| && 0 < rerunMax && parentClass == plan[pos].parent
      requires moduleKey in rerunClasses && parentClass.name in rerunClasses[moduleKey]
      requires rerunClasses[moduleKey][parentClass.name] == map[]
      requires Valid()
      modifies this, parentClass, FixtureDefsOf(plan[pos]), set x: Item | x in plan
      ensures siblings == CollectSiblings(plan, pos)
      ensures Valid() && moduleKey in rerunClasses && parentClass.name in rerunClasses[moduleKey]
      ensures r == RunLoop(siblings, run, rerunMax, 0, map[], old(log))
      ensures rerunClasses == Store(old(rerunClasses), moduleKey, parentClass.name, r.history) && log == r.log
      ensures LeftByClass(StateOf(plan[pos], parentClass, siblings), old(StateOf(plan[pos], parentClass, siblings)), parentClass, TornDown(r))
      ensures TornDown(r) ==> RestoredFrom(old(parentClass.attrs), parentClass.attrs)
      ensures forall x: Item :: x in plan && x !in siblings ==> x.parent == old(x.parent)
    {
      ghost var attrs0 := parentClass.attrs;
      var item := plan[pos];
      var name := parentClass.name;
      siblings := CollectSiblingItems(plan, pos);
      SiblingsInPlan(plan, pos);
      ghost var s0 := StateOf(item, parentClass, siblings);
      var initialState := SaveParentInitialState(parentClass);
      assert StateOf(item, parentClass, siblings) == s0;
      var rerunCount, passed, restarted := RunAttempts(item, parentClass, siblings, initialState, run, moduleKey, name);
      r := RunLoop(siblings, run, rerunMax, 0, map[], old(log));
      assert rerunClasses == Store(old(rerunClasses), moduleKey, name, r.history);
      ClassRunBounded(old(rerunClasses), moduleKey, name, siblings, run, rerunMax, old(log));
      if restarted {
        RecreatedLeft(StateOf(item, parentClass, siblings), s0, parentClass, initialState);
        SnapshotRestores(attrs0, initialState, parentClass.attrs);
      }
    }

    /**
     * Lines 113-116 and 121-157, for the first item of a class without a
     * history entry: create the entry, run the attempts, rewrite the history,
     * replay the item's own part of it and tear everything down. The class
     * node, the fixtures and the parents are left as `LeftByClass` describes,
     * with every attribute restored from the snapshot after a teardown.
     */
    method RunClass(plan: seq<Item>, pos: nat, parentClass: TestClass, run: Engine, moduleKey: string)
      requires pos < |plan| && 0 < rerunMax && parentClass == plan[pos].parent
      requires !(moduleKey in rerunClasses && parentClass.name in rerunClasses[moduleKey])
      requires Valid()
      modifies this, parentClass, FixtureDefsOf(plan[pos]), set x: Item | x in plan
      ensures Valid()
      ensures var r := RunLoop(CollectSiblings(plan, pos), run, rerunMax, 0, map[], old(log));
              var h := ProcessReports(r.history, onlyLast);
              && rerunClasses == Store(old(rerunClasses), moduleKey, parentClass.name, h)
              && log == r.log + ReportRunEvents(plan[pos].nodeid, plan[pos].location, h) + [TeardownAll]
      ensures var r := RunLoop(CollectSiblings(plan, pos), run, rerunMax, 0, map[], old(log));
              && LeftByClass(StateOf(plan[pos], parentClass, CollectSiblings(plan, pos)),
                             old(StateOf(plan[pos], parentClass, CollectSiblings(plan, pos))), parentClass, TornDown(r))
              && (TornDown(r) ==> RestoredFrom(old(parentClass.attrs), parentClass.attrs))
      ensures forall x: Item :: x in plan && x !in CollectSiblings(plan, pos) ==> x.parent == old(x.parent)
    {
      var name := parentClass.name;
      CreateEntry(moduleKey, name, plan[pos], parentClass, CollectSiblings(plan, pos));
      var siblings, r := AttemptClass(plan, pos, parentClass, run, moduleKey);
      StoreTwice(old(rerunClasses), moduleKey, name, map[], r.history);
      ghost var h := rerunClasses[moduleKey][name];
      FinishClass(plan[pos], moduleKey, name, parentClass, siblings);
      StoreTwice(old(rerunClasses), moduleKey, name, h, rerunClasses[moduleKey][name]);
    }

    /**
     * `pytest_runtest_protocol` (lines 106-157), with the plan
     * (`session.items`), the position of the item in it and the runner.
     * A non-class item, or any item while the plugin is disabled, goes to
     * pytest's own protocol; a later item of a class already run only replays
     * its history; the first item of a class runs the attempt loop, rewrites
     * the class's history and replays its own part.
     */
    method PytestRuntestProtocol(plan: seq<Item>, pos: nat, nextitem: Item?, run: Engine) returns (handled: bool)
      requires pos < |plan|
      requires Valid()
      modifies this, plan[pos].parent, FixtureDefsOf(plan[pos]), set x: Item | x in plan
      ensures Valid()
      ensures Ineligible(plan[pos], old(plan[pos].parent), rerunMax) ==>
                && !handled
                && rerunClasses == old(rerunClasses)
                && log == old(log) + [DefaultProtocol(plan[pos].nodeid, NodeIdOf(nextitem))]
      ensures !Ineligible(plan[pos], old(plan[pos].parent), rerunMax) && Seen(old(rerunClasses), plan[pos], old(plan[pos].parent)) ==>
                && handled
                && rerunClasses == old(rerunClasses)
                && log == old(log) + ReportRunEvents(plan[pos].nodeid, plan[pos].location,
                                                     old(rerunClasses)[ModuleOf(plan[pos].nodeid)][old(plan[pos].parent).name])
      ensures !Ineligible(plan[pos], old(plan[pos].parent), rerunMax) && !Seen(old(rerunClasses), plan[pos], old(plan[pos].parent)) ==>
                var r := RunLoop(CollectSiblings(plan, pos), run, rerunMax, 0, map[], old(log));
                var h := ProcessReports(r.history, onlyLast);
                && handled
                && rerunClasses == Store(old(rerunClasses), ModuleOf(plan[pos].nodeid), old(plan[pos].parent).name, h)
                && log == r.log + ReportRunEvents(plan[pos].nodeid, plan[pos].location, h) + [TeardownAll]
      ensures Ineligible(plan[pos], old(plan[pos].parent), rerunMax) || Seen(old(rerunClasses), plan[pos], old(plan[pos].parent)) ==>
                && unchanged(FixtureDefsOf(plan[pos]), set x: Item | x in plan)
                && (old(plan[pos].parent) != null ==> unchanged(old(plan[pos].parent)))
      ensures !Ineligible(plan[pos], old(plan[pos].parent), rerunMax) && !Seen(old(rerunClasses), plan[pos], old(plan[pos].parent)) ==>
                var r := RunLoop(CollectSiblings(plan, pos), run, rerunMax, 0, map[], old(log));
                var cls := old(plan[pos].parent);
                && LeftByClass(StateOf(plan[pos], cls, CollectSiblings(plan, pos)),
                               old(StateOf(plan[pos], plan[pos].parent, CollectSiblings(plan, pos))), cls, TornDown(r))
                && (TornDown(r) ==> RestoredFrom(old(cls.attrs), cls.attrs))
                && (forall x: Item :: x in plan && x !in CollectSiblings(plan, pos) ==> x.parent == old(x.parent))
    {
      var item := plan[pos];
      var parentClass := item.parent;
      var moduleKey := ModuleOf(item.nodeid);
      if item.cls.None? || rerunMax == 0 || parentClass == null {
        log := log + [DefaultProtocol(item.nodeid, NodeIdOf(nextitem))];
        return false;
      }
      // when the class has an entry, the module has one too, so lines 113-114 change nothing
      if moduleKey in rerunClasses && parentClass.name in rerunClasses[moduleKey] {
        ReportRun(item, rerunClasses[moduleKey][parentClass.name]);
        return true;
      }
      RunClass(plan, pos, parentClass, run, moduleKey);
      return true;
    }
  }
}
