/**
 * The older revision of the plugin (`src/pytest-rerunclassfailures`). It
 * differs from the current one in every piece of bookkeeping: classes already
 * run are remembered by bare class name in a flat list; the siblings are the
 * contiguous run of same-class items; a pass records one flat list of
 * reports, relabelling the failing call report on the spot; a failed set-up
 * aborts the whole protocol; the snapshot uses plain `deepcopy`; the result
 * is attached to the first item, while every other sibling that ran keeps
 * its runner reports as a marker that suppresses it later.
 */
module LegacyRerunClass {
  import opened Pytest
  import opened Snapshot
  import opened Fixtures
  import History
  import RerunClass

  /** What the hook hands back to pluggy: a value, or an exception it raised. */
  datatype HookResult = Returned(value: bool) | Raised(error: string)

  /** The first index at or after `j` whose item is not of class `cls`, or the end of the plan. */
  function RunEnd(plan: seq<Item>, cls: Option<nat>, j: nat): (e: nat)
    requires j <= |plan|
    ensures j <= e <= |plan|
    ensures forall k :: j <= k < e ==> plan[k].cls == cls
    ensures e < |plan| ==> plan[e].cls != cls
    decreases |plan| - j
  {
    if j == |plan| || plan[j].cls != cls then j else RunEnd(plan, cls, j + 1)
  }

  /** The end of a same-class run is determined by the run itself. */
  lemma {:induction false} RunEndIs(plan: seq<Item>, cls: Option<nat>, j: nat, e: nat)
    requires j <= e <= |plan|
    requires forall k :: j <= k < e ==> plan[k].cls == cls
    requires e < |plan| ==> plan[e].cls != cls
    ensures RunEnd(plan, cls, j) == e
    decreases e - j
  {
    if j < e {
      RunEndIs(plan, cls, j + 1, e);
    }
  }

  /** Every entry but the last is an item. */
  predicate WellFormed(siblings: seq<Item?>)
  {
    |siblings| >= 2 && forall k :: 0 <= k < |siblings| - 1 ==> siblings[k] != null
  }

  /**
   * Lines 93-102: the item and the items after it up to and including the
   * first one of another class; `None` is appended only when the plan ended
   * inside the run. The entries that are run (all but the last) are exactly
   * the contiguous run of the item's class.
   */
  function Siblings(plan: seq<Item>, pos: nat): (r: seq<Item?>)
    requires pos < |plan|
    ensures WellFormed(r) && r[0] == plan[pos]
    ensures |r| - 1 == RunEnd(plan, plan[pos].cls, pos + 1) - pos
    ensures forall k :: 0 <= k < |r| - 1 ==> r[k] == plan[pos + k] && plan[pos + k].cls == plan[pos].cls
    ensures r[|r| - 1] == null <==> pos + |r| - 1 == |plan|
    ensures r[|r| - 1] != null ==> r[|r| - 1] == plan[pos + |r| - 1] && plan[pos + |r| - 1].cls != plan[pos].cls
  {
    var e := RunEnd(plan, plan[pos].cls, pos + 1);
    if e < |plan| then plan[pos..e + 1] else plan[pos..] + [null]
  }

  /**
   * Line 112: the successor of sibling `i`, or the first sibling when the
   * successor is the `None` sentinel; the item of another class that closes
   * the run is handed over as it is.
   */
  function NextItem(siblings: seq<Item?>, i: nat): (n: Item)
    requires WellFormed(siblings) && i < |siblings| - 1
    ensures siblings[i + 1] != null ==> n == siblings[i + 1]
    ensures siblings[i + 1] == null ==> n == siblings[0]
  {
    if siblings[i + 1] != null then siblings[i + 1] else siblings[0]
  }

  /**
   * The `nextitem` of each sibling in terms of the plan: the following plan
   * item, which for the last sibling is the item of the next class when the
   * plan goes on, and the first sibling only when the plan ends there.
   */
  lemma NextItemInPlan(plan: seq<Item>, pos: nat, i: nat)
    requires pos < |plan| && i < |Siblings(plan, pos)| - 1
    ensures var s := Siblings(plan, pos);
            && (i < |s| - 2 ==> NextItem(s, i) == plan[pos + i + 1])
            && (i == |s| - 2 ==> NextItem(s, i) == if pos + |s| - 1 < |plan| then plan[pos + |s| - 1] else plan[pos])
  {
  }

  /** Line 116: a genuine failure of the test call itself. */
  predicate IsCallFailure(r: Report)
  {
    r.IsFailed() && !r.wasxfail && r.when == Call
  }

  /** Line 123: a failed set-up report (one that is not a call failure). */
  predicate IsSetupFailure(r: Report)
  {
    r.IsFailed() && r.when == Setup
  }

  datatype Scanned = Scanned(recorded: seq<Report>, failed: bool, aborted: bool)

  /**
   * The report loop of lines 115-128 over one sibling's reports: reports are
   * recorded until a call failure (recorded too, relabelled "rerun" while
   * attempts remain and "failed" on the last one) or a set-up failure (which
   * aborts).
   */
  function Scan(rs: seq<Report>, rerunCount: nat, rerunMax: nat): Scanned
    decreases |rs|
  {
    if rs == [] then Scanned([], false, false)
    else if IsCallFailure(rs[0]) then
      Scanned([rs[0].(outcome := if rerunCount < rerunMax - 1 then Rerun else Failed)], true, false)
    else if IsSetupFailure(rs[0]) then Scanned([], false, true)
    else
      var rest := Scan(rs[1..], rerunCount, rerunMax);
      Scanned([rs[0]] + rest.recorded, rest.failed, rest.aborted)
  }

  /** The index of the first report that stops the scan, or the number of reports. */
  function StopIndex(rs: seq<Report>): (m: nat)
    ensures m <= |rs|
    ensures forall k :: 0 <= k < m ==> !IsCallFailure(rs[k]) && !IsSetupFailure(rs[k])
    ensures m < |rs| ==> IsCallFailure(rs[m]) || IsSetupFailure(rs[m])
  {
    if rs == [] then 0
    else if IsCallFailure(rs[0]) || IsSetupFailure(rs[0]) then 0
    else 1 + StopIndex(rs[1..])
  }

  /** The relabelling the scan applies to the failing call report. */
  function FailureLabel(rerunCount: nat, rerunMax: nat): Outcome
  {
    if rerunCount < rerunMax - 1 then Rerun else Failed
  }

  /**
   * The scan in terms of the first stopping report: everything before it is
   * recorded unchanged; a call failure is recorded relabelled and stops the
   * pass; a set-up failure aborts and is not recorded; with neither, every
   * report is recorded.
   */
  lemma {:induction false} ScanShape(rs: seq<Report>, rerunCount: nat, rerunMax: nat)
    ensures var m := StopIndex(rs);
            Scan(rs, rerunCount, rerunMax) ==
              if m == |rs| then Scanned(rs, false, false)
              else if IsCallFailure(rs[m]) then
                Scanned(rs[..m] + [rs[m].(outcome := FailureLabel(rerunCount, rerunMax))], true, false)
              else Scanned(rs[..m], false, true)
    decreases |rs|
  {
    if rs != [] && !IsCallFailure(rs[0]) && !IsSetupFailure(rs[0]) {
      var tail := rs[1..];
      var rest := Scan(tail, rerunCount, rerunMax);
      assert Scan(rs, rerunCount, rerunMax) == Scanned([rs[0]] + rest.recorded, rest.failed, rest.aborted);
      ScanShape(tail, rerunCount, rerunMax);
      var m := StopIndex(rs);
      assert StopIndex(tail) == m - 1;
      if m == |rs| {
        assert rs == [rs[0]] + tail;
      } else {
        assert tail[m - 1] == rs[m];
        assert rs[..m] == [rs[0]] + tail[..m - 1];
        if IsCallFailure(rs[m]) {
          var failure := rs[m].(outcome := FailureLabel(rerunCount, rerunMax));
          assert [rs[0]] + (tail[..m - 1] + [failure]) == rs[..m] + [failure];
        }
      }
    }
  }

  datatype PassResult = PassResult(attempt: seq<Report>, passed: bool, aborted: bool, reached: nat, log: seq<Event>)

  /**
   * One pass (lines 109-132) from sibling `i` on, with the reports recorded
   * so far in `attempt`: `reached` counts the siblings that were run.
   */
  function RunPass(siblings: seq<Item?>, run: Engine, rerunCount: nat, rerunMax: nat, i: nat,
                   attempt: seq<Report>, log: seq<Event>): PassResult
    requires WellFormed(siblings) && i <= |siblings| - 1
    decreases |siblings| - i
  {
    if i == |siblings| - 1 then PassResult(attempt, true, false, i, log)
    else
      var item := siblings[i];
      var s := Scan(run(item.nodeid, rerunCount), rerunCount, rerunMax);
      var log' := log + [RunTest(item.nodeid, NextItem(siblings, i).nodeid)];
      if s.aborted || s.failed then PassResult(attempt + s.recorded, false, s.aborted, i + 1, log')
      else RunPass(siblings, run, rerunCount, rerunMax, i + 1, attempt + s.recorded, log')
  }

  /**
   * The first sibling at or after `i` with a report that stops the pass (a
   * call failure or a failed set-up), or the index of the last entry when no
   * sibling has one: an independent description of where a pass ends.
   */
  function FirstStop(siblings: seq<Item?>, run: Engine, rerunCount: nat, i: nat): (r: nat)
    requires WellFormed(siblings) && i <= |siblings| - 1
    ensures i <= r <= |siblings| - 1
    ensures forall j :: i <= j < r ==>
              StopIndex(run(siblings[j].nodeid, rerunCount)) == |run(siblings[j].nodeid, rerunCount)|
    ensures r < |siblings| - 1 ==>
              StopIndex(run(siblings[r].nodeid, rerunCount)) < |run(siblings[r].nodeid, rerunCount)|
    decreases |siblings| - i
  {
    if i == |siblings| - 1 then i
    else if StopIndex(run(siblings[i].nodeid, rerunCount)) < |run(siblings[i].nodeid, rerunCount)| then i
    else FirstStop(siblings, run, rerunCount, i + 1)
  }

  /** The report that stops sibling `f`'s reports is a failed set-up rather than a call failure. */
  predicate StopsOnSetup(siblings: seq<Item?>, run: Engine, rerunCount: nat, f: nat)
    requires WellFormed(siblings) && f < |siblings| - 1
  {
    var rs := run(siblings[f].nodeid, rerunCount);
    StopIndex(rs) < |rs| && !IsCallFailure(rs[StopIndex(rs)])
  }

  /** One step of a pass, and where the first stop lies relative to it. */
  lemma PassStep(siblings: seq<Item?>, run: Engine, rerunCount: nat, rerunMax: nat, i: nat,
                 attempt: seq<Report>, log: seq<Event>)
    requires WellFormed(siblings) && i < |siblings| - 1
    ensures var rs := run(siblings[i].nodeid, rerunCount);
            var s := Scan(rs, rerunCount, rerunMax);
            var log' := log + [RunTest(siblings[i].nodeid, NextItem(siblings, i).nodeid)];
            && (s.aborted || s.failed ==>
                  RunPass(siblings, run, rerunCount, rerunMax, i, attempt, log)
                    == PassResult(attempt + s.recorded, false, s.aborted, i + 1, log'))
            && (!s.aborted && !s.failed ==>
                  RunPass(siblings, run, rerunCount, rerunMax, i, attempt, log)
                    == RunPass(siblings, run, rerunCount, rerunMax, i + 1, attempt + s.recorded, log'))
            && (s.aborted || s.failed <==> StopIndex(rs) < |rs|)
            && (s.aborted <==> StopIndex(rs) < |rs| && !IsCallFailure(rs[StopIndex(rs)]))
  {
    ScanShape(run(siblings[i].nodeid, rerunCount), rerunCount, rerunMax);
  }

  /**
   * Fail-fast: a pass runs exactly the siblings up to and including the
   * first one whose reports stop it (all of them when none does), passes
   * exactly when none does, and aborts exactly when that stop is a failed
   * set-up.
   */
  lemma {:induction false} PassStopsAtFirstStop(siblings: seq<Item?>, run: Engine, rerunCount: nat, rerunMax: nat, i: nat,
                                                attempt: seq<Report>, log: seq<Event>)
    requires WellFormed(siblings) && i <= |siblings| - 1
    ensures var p := RunPass(siblings, run, rerunCount, rerunMax, i, attempt, log);
            var f := FirstStop(siblings, run, rerunCount, i);
            && (p.passed <==> f == |siblings| - 1)
            && p.reached == (if f < |siblings| - 1 then f + 1 else f)
            && (p.aborted <==> f < |siblings| - 1 && StopsOnSetup(siblings, run, rerunCount, f))
    decreases |siblings| - i
  {
    if i < |siblings| - 1 {
      var rs := run(siblings[i].nodeid, rerunCount);
      var s := Scan(rs, rerunCount, rerunMax);
      PassStep(siblings, run, rerunCount, rerunMax, i, attempt, log);
      if !s.aborted && !s.failed {
        PassStopsAtFirstStop(siblings, run, rerunCount, rerunMax, i + 1, attempt + s.recorded,
                             log + [RunTest(siblings[i].nodeid, NextItem(siblings, i).nodeid)]);
      }
    }
  }

  datatype LoopResult = LoopResult(reports: seq<seq<Report>>, rerunCount: nat, allPassed: bool, aborted: bool,
                                   reached: nat, log: seq<Event>)

  /**
   * The attempt loop (lines 104-145) from attempt `count` on; a failed pass
   * is followed by a teardown, the set-up of the class and another pass while
   * attempts remain; a set-up failure ends everything.
   */
  function RunLoop(siblings: seq<Item?>, run: Engine, rerunMax: nat, name: string, count: nat,
                   reports: seq<seq<Report>>, reached: nat, log: seq<Event>): LoopResult
    requires WellFormed(siblings) && count < rerunMax
    decreases rerunMax - count
  {
    var p := RunPass(siblings, run, count, rerunMax, 0, [], log);
    var reports' := reports + [p.attempt];
    var reached' := if p.reached > reached then p.reached else reached;
    if p.aborted then LoopResult(reports', count, false, true, reached', p.log)
    else if p.passed then LoopResult(reports', count, true, false, reached', p.log)
    else if count + 1 < rerunMax then
      RunLoop(siblings, run, rerunMax, name, count + 1, reports', reached',
              p.log + [ClearSetupStack, TeardownAll, SetupClass(name)])
    else LoopResult(reports', count + 1, false, false, reached', p.log)
  }

  /** A pass that neither passed nor aborted ended on a relabelled call failure; it ran at least one sibling. */
  lemma {:induction false} PassFailureLabel(siblings: seq<Item?>, run: Engine, rerunCount: nat, rerunMax: nat, i: nat,
                                            attempt: seq<Report>, log: seq<Event>)
    requires WellFormed(siblings) && i <= |siblings| - 1
    ensures var p := RunPass(siblings, run, rerunCount, rerunMax, i, attempt, log);
            && i <= p.reached <= |siblings| - 1
            && (i < |siblings| - 1 ==> i < p.reached)
            && (!p.passed && !p.aborted ==>
                  p.attempt != [] && p.attempt[|p.attempt| - 1].outcome == FailureLabel(rerunCount, rerunMax))
            && (p.passed ==> !p.aborted)
    decreases |siblings| - i
  {
    if i < |siblings| - 1 {
      var item := siblings[i];
      var rs := run(item.nodeid, rerunCount);
      var s := Scan(rs, rerunCount, rerunMax);
      var log' := log + [RunTest(item.nodeid, NextItem(siblings, i).nodeid)];
      ScanShape(rs, rerunCount, rerunMax);
      if s.aborted || s.failed {
        assert RunPass(siblings, run, rerunCount, rerunMax, i, attempt, log)
            == PassResult(attempt + s.recorded, false, s.aborted, i + 1, log');
      } else {
        assert RunPass(siblings, run, rerunCount, rerunMax, i, attempt, log)
            == RunPass(siblings, run, rerunCount, rerunMax, i + 1, attempt + s.recorded, log');
        PassFailureLabel(siblings, run, rerunCount, rerunMax, i + 1, attempt + s.recorded, log');
      }
    }
  }

  /**
   * One report list per pass: the loop appends exactly one list per pass,
   * so the number of lists is the number of passes, never more than
   * `rerunMax`; a loop that neither passed nor aborted used every attempt.
   */
  lemma {:induction false} OneListPerPass(siblings: seq<Item?>, run: Engine, rerunMax: nat, name: string, count: nat,
                                          reports: seq<seq<Report>>, reached: nat, log: seq<Event>)
    requires WellFormed(siblings) && count < rerunMax && |reports| == count
    ensures var r := RunLoop(siblings, run, rerunMax, name, count, reports, reached, log);
            && |r.reports| == (if r.allPassed || r.aborted then r.rerunCount + 1 else r.rerunCount)
            && count < |r.reports| <= rerunMax
            && r.reports[..count] == reports
            && !(r.allPassed && r.aborted)
            && (!r.allPassed && !r.aborted ==> r.rerunCount == rerunMax)
    decreases rerunMax - count
  {
    var p := RunPass(siblings, run, count, rerunMax, 0, [], log);
    PassFailureLabel(siblings, run, count, rerunMax, 0, [], log);
    var reports' := reports + [p.attempt];
    var reached' := if p.reached > reached then p.reached else reached;
    if !p.aborted && !p.passed && count + 1 < rerunMax {
      OneListPerPass(siblings, run, rerunMax, name, count + 1, reports', reached',
                     p.log + [ClearSetupStack, TeardownAll, SetupClass(name)]);
      var r := RunLoop(siblings, run, rerunMax, name, count + 1, reports', reached',
                       p.log + [ClearSetupStack, TeardownAll, SetupClass(name)]);
      assert r.reports[..count] == r.reports[..count + 1][..count];
    }
  }

  /** When every attempt is used up, the last recorded report reads "failed", not "rerun". */
  lemma {:induction false} ExhaustedEndsFailed(siblings: seq<Item?>, run: Engine, rerunMax: nat, name: string, count: nat,
                                               reports: seq<seq<Report>>, reached: nat, log: seq<Event>)
    requires WellFormed(siblings) && count < rerunMax
    ensures var r := RunLoop(siblings, run, rerunMax, name, count, reports, reached, log);
            && r.reports != []
            && (!r.allPassed && !r.aborted ==>
                  var last := r.reports[|r.reports| - 1];
                  last != [] && last[|last| - 1].outcome == Failed)
    decreases rerunMax - count
  {
    var p := RunPass(siblings, run, count, rerunMax, 0, [], log);
    PassFailureLabel(siblings, run, count, rerunMax, 0, [], log);
    var reports' := reports + [p.attempt];
    var reached' := if p.reached > reached then p.reached else reached;
    if !p.aborted && !p.passed && count + 1 < rerunMax {
      ExhaustedEndsFailed(siblings, run, rerunMax, name, count + 1, reports', reached',
                          p.log + [ClearSetupStack, TeardownAll, SetupClass(name)]);
    }
  }

  /** The loop runs at least the first sibling, and never more siblings than there are. */
  lemma {:induction false} LoopReached(siblings: seq<Item?>, run: Engine, rerunMax: nat, name: string, count: nat,
                                       reports: seq<seq<Report>>, reached: nat, log: seq<Event>)
    requires WellFormed(siblings) && count < rerunMax && reached <= |siblings| - 1
    ensures var r := RunLoop(siblings, run, rerunMax, name, count, reports, reached, log);
            reached <= r.reached <= |siblings| - 1 && 1 <= r.reached
    decreases rerunMax - count
  {
    var p := RunPass(siblings, run, count, rerunMax, 0, [], log);
    PassFailureLabel(siblings, run, count, rerunMax, 0, [], log);
    var reports' := reports + [p.attempt];
    var reached' := if p.reached > reached then p.reached else reached;
    if !p.aborted && !p.passed && count + 1 < rerunMax {
      LoopReached(siblings, run, rerunMax, name, count + 1, reports', reached',
                  p.log + [ClearSetupStack, TeardownAll, SetupClass(name)]);
    }
  }

  /** Lines 227-228: call-stage reports are relabelled "rerun", other stages are kept. */
  function RelabelCalls(rs: seq<Report>): seq<Report>
  {
    seq(|rs|, k requires 0 <= k < |rs| => if rs[k].when == Call then rs[k].(outcome := Rerun) else rs[k])
  }

  /** Lines 225-229: the earlier attempts, relabelled and concatenated in order. */
  function Earlier(attempts: seq<seq<Report>>): seq<Report>
  {
    if attempts == [] then []
    else Earlier(attempts[..|attempts| - 1]) + RelabelCalls(attempts[|attempts| - 1])
  }

  /**
   * `_process_reports` (lines 222-231): the last attempt alone when only the
   * last is shown or there was a single attempt; otherwise the earlier
   * attempts relabelled, then the last attempt as it is.
   */
  function ProcessReports(rerunReports: seq<seq<Report>>, onlyLast: bool): seq<Report>
    requires |rerunReports| > 0
  {
    var n := |rerunReports| - 1;
    (if !onlyLast && n > 0 then Earlier(rerunReports[..n]) else []) + rerunReports[n]
  }

  /** Relabelling call reports distributes over concatenation; used by `EarlierIsRelabelledFlatten`. */
  lemma RelabelCallsAppend(a: seq<Report>, b: seq<Report>)
    ensures RelabelCalls(a + b) == RelabelCalls(a) + RelabelCalls(b)
  {
  }

  /** The earlier attempts come out as one relabelled stream in their original order. */
  lemma {:induction false} EarlierIsRelabelledFlatten(attempts: seq<seq<Report>>)
    ensures Earlier(attempts) == RelabelCalls(Flatten(attempts))
    decreases |attempts|
  {
    if attempts != [] {
      var n := |attempts| - 1;
      EarlierIsRelabelledFlatten(attempts[..n]);
      RelabelCallsAppend(Flatten(attempts[..n]), attempts[n]);
    }
  }

  /**
   * What the rewriting keeps: with only the last attempt shown (or a single
   * attempt) the result is that attempt; otherwise it is every report of
   * every attempt, in order, the earlier attempts' call reports relabelled
   * "rerun" and everything else unchanged.
   */
  lemma ProcessReportsShape(rerunReports: seq<seq<Report>>, onlyLast: bool)
    requires |rerunReports| > 0
    ensures var n := |rerunReports| - 1;
            ProcessReports(rerunReports, onlyLast) ==
              if onlyLast || n == 0 then rerunReports[n]
              else RelabelCalls(Flatten(rerunReports[..n])) + rerunReports[n]
  {
    var n := |rerunReports| - 1;
    EarlierIsRelabelledFlatten(rerunReports[..n]);
    assert [] + rerunReports[n] == rerunReports[n];
  }

  /** Relabelling changes no report but its outcome label, and keeps the number and order of reports. */
  lemma StripRelabelCalls(rs: seq<Report>)
    ensures History.StripAll(RelabelCalls(rs)) == History.StripAll(rs)
  {
  }

  lemma StripRelabelPrefix(a: seq<Report>, b: seq<Report>)
    ensures History.StripAll(RelabelCalls(a) + b) == History.StripAll(a + b)
  {
    History.StripAppend(RelabelCalls(a), b);
    History.StripAppend(a, b);
    StripRelabelCalls(a);
  }

  lemma ProcessKeepsReports(rerunReports: seq<seq<Report>>)
    requires |rerunReports| > 0
    ensures History.StripAll(ProcessReports(rerunReports, false)) == History.StripAll(Flatten(rerunReports))
  {
    var n := |rerunReports| - 1;
    ProcessReportsShape(rerunReports, false);
    assert rerunReports == rerunReports[..n] + [rerunReports[n]];
    FlattenSnoc(rerunReports[..n], rerunReports[n]);
    if n == 0 {
      assert rerunReports[..n] == [];
    } else {
      StripRelabelPrefix(Flatten(rerunReports[..n]), rerunReports[n]);
    }
  }

  /** `_report_run` (lines 62-66): nothing at all unless the item carries a non-empty report list. */
  function ReportEvents(nodeid: string, location: Location, reports: Option<seq<Report>>): seq<Event>
  {
    if reports.Some? && reports.value != [] then
      [LogStart(nodeid, location)] + Logged(reports.value) + [LogFinish(nodeid, location)]
    else []
  }

  /** The reports replayed are exactly the item's reports; an item without any reports nothing. */
  lemma ReplayReportsAttached(nodeid: string, location: Location, reports: Option<seq<Report>>)
    ensures History.ReportsOf(ReportEvents(nodeid, location, reports)) ==
              if reports.Some? then reports.value else []
  {
    if reports.Some? && reports.value != [] {
      var start, finish := [LogStart(nodeid, location)], [LogFinish(nodeid, location)];
      var body := Logged(reports.value);
      assert start[..0] == [] && finish[..0] == [];
      assert History.ReportsOf(start) == [];
      assert History.ReportsOf(finish) == History.ReportsOf(finish[..0]);
      assert History.ReportsOf(finish) == [];
      History.ReportsOfAppend(start + body, finish);
      History.ReportsOfAppend(start, body);
      History.ReportsOfLogged(reports.value);
    }
  }

  /** Some attribute the snapshot must copy cannot be copied. */
  predicate Uncopyable(attrs: map<string, PyObject>)
  {
    exists k :: k in attrs && Capturable(k, attrs[k]) && !attrs[k].cloneable
  }

  /** Line 109: the item is not a class test, or the plugin is disabled. */
  predicate Ineligible(item: Item, rerunMax: nat)
  {
    item.cls.None? || rerunMax == 0
  }

  /**
   * What one or more teardowns between passes (lines 134-145) leave of the
   * state `s0`: errored fixture results forgotten, the class node not marked
   * as failed, its attributes those it had plus the restored `names`, with
   * every other value unchanged, the item and every entry that is run
   * pointing at the class node, and the closing entry of the next class left
   * as it was.
   */
  predicate TornDownFrom(s: RerunClass.ClassState, s0: RerunClass.ClassState, cls: TestClass, item: Item,
                         siblings: seq<Item?>, names: set<string>)
    requires WellFormed(siblings)
  {
    && !s.previousFailed
    && s.attrs.Keys == s0.attrs.Keys + names
    && s.attrs - names == s0.attrs - names
    && s.caches == ForgetAll(s0.caches)
    && s.parent == cls
    && s.parents.Keys == s0.parents.Keys
    && (forall x :: x in s.parents ==>
          s.parents[x] == if x in siblings[..|siblings| - 1] || x == item then cls else s0.parents[x])
  }

  /** Tearing down a second time leaves what the first teardown left. */
  lemma TornDownTwice(s2: RerunClass.ClassState, s1: RerunClass.ClassState, s0: RerunClass.ClassState, cls: TestClass,
                      item: Item, siblings: seq<Item?>, names: set<string>)
    requires WellFormed(siblings)
    requires TornDownFrom(s1, s0, cls, item, siblings, names) && TornDownFrom(s2, s1, cls, item, siblings, names)
    ensures TornDownFrom(s2, s0, cls, item, siblings, names)
  {
    ForgetAllIdempotent(s0.caches);
  }

  /**
   * The state between two rounds of the attempt loop, against the state
   * `s0` before the first: as it was while no teardown has happened, as the
   * teardowns leave it once one has.
   */
  ghost predicate RoundState(item: Item, cls: TestClass, siblings: seq<Item?>, initialState: map<string, PyObject>,
                             s0: RerunClass.ClassState, restarted: bool)
    requires WellFormed(siblings)
    reads item, cls, FixtureDefsOf(item), set x: Item | x in siblings
  {
    if restarted then
      TornDownFrom(RerunClass.StateOf(item, cls, siblings), s0, cls, item, siblings, initialState.Keys)
      && RerunClass.HoldsCopies(cls, initialState)
    else RerunClass.StateOf(item, cls, siblings) == s0
  }

  /**
   * The hook leaves the item to pytest (line 79), only clears its reports
   * (line 82), raises on a missing class (line 86) or skips a class already
   * run (line 91): the class is not run.
   */
  predicate StaysOut(item: Item, reports: Option<seq<Report>>, parent: TestClass?, rerunClasses: seq<string>, rerunMax: nat)
  {
    Ineligible(item, rerunMax) || reports.Some? || parent == null || parent.name in rerunClasses
  }

  class LegacyRerunClassPlugin {
    var rerunClasses: seq<string>
    var log: seq<Event>
    const rerunMax: nat
    const delay: real
    const onlyLast: bool

    /** `__init__` (lines 49-53). */
    constructor (rerunClassMax: int, rerunDelay: real, showOnlyLast: bool)
      ensures rerunMax == RerunClass.RerunMax(rerunClassMax) && delay == rerunDelay && onlyLast == showOnlyLast
      ensures rerunClasses == [] && log == []
    {
      rerunClasses := [];
      log := [];
      rerunMax := if rerunClassMax > 0 then rerunClassMax + 1 else 0;
      delay := rerunDelay;
      onlyLast := showOnlyLast;
    }

    /** The loop of lines 64-65: one `pytest_runtest_logreport` call per report, in order. */
    method LogReports(reports: seq<Report>)
      modifies this
      ensures log == old(log) + Logged(reports)
      ensures rerunClasses == old(rerunClasses)
    {
      for k := 0 to |reports|
        invariant log == old(log) + Logged(reports[..k])
        invariant rerunClasses == old(rerunClasses)
      {
        assert reports[..k + 1] == reports[..k] + [reports[k]];
        LoggedSnoc(reports[..k], reports[k]);
        log := log + [LogReport(reports[k])];
      }
      assert reports[..|reports|] == reports;
    }

    /** `_report_run` (lines 62-66). */
    method ReportRun(item: Item)
      modifies this
      ensures log == old(log) + ReportEvents(item.nodeid, item.location, item.reports)
      ensures rerunClasses == old(rerunClasses)
    {
      if item.reports.Some? && item.reports.value != [] {
        var reports := item.reports.value;
        var start, finish := LogStart(item.nodeid, item.location), LogFinish(item.nodeid, item.location);
        ghost var before := log;
        log := log + [start];
        LogReports(reports);
        log := log + [finish];
        assert log == before + ([start] + Logged(reports) + [finish]);
      }
    }

    /** Lines 93-102, proved against `Siblings`. */
    static method CollectSiblingItems(plan: seq<Item>, pos: nat) returns (siblings: seq<Item?>)
      requires pos < |plan|
      ensures siblings == Siblings(plan, pos)
    {
      var item := plan[pos];
      siblings := [item];
      var items := plan[pos + 1..];
      var k := 0;
      while k < |items|
        invariant 0 <= k <= |items|
        invariant siblings == plan[pos..pos + 1 + k]
        invariant forall j :: pos + 1 <= j < pos + 1 + k ==> plan[j].cls == item.cls
      {
        siblings := siblings + [items[k]];
        if item.cls != items[k].cls {
          assert siblings == plan[pos..pos + 2 + k];
          RunEndIs(plan, item.cls, pos + 1, pos + 1 + k);
          return;
        }
        k := k + 1;
      }
      RunEndIs(plan, item.cls, pos + 1, |plan|);
      assert siblings == plan[pos..];
      if siblings[|siblings| - 1].cls == item.cls {
        siblings := siblings + [null];
      }
    }

    /** The report loop of lines 115-128, proved against `Scan`. */
    method ScanReports(reports: seq<Report>, rerunCount: nat) returns (recorded: seq<Report>, failed: bool, aborted: bool)
      ensures Scanned(recorded, failed, aborted) == Scan(reports, rerunCount, rerunMax)
    {
      recorded, failed, aborted := [], false, false;
      var k := 0;
      while k < |reports|
        invariant 0 <= k <= |reports|
        invariant var rest := Scan(reports[k..], rerunCount, rerunMax);
                  Scan(reports, rerunCount, rerunMax) == Scanned(recorded + rest.recorded, rest.failed, rest.aborted)
      {
        var report := reports[k];
        assert reports[k..][0] == report && reports[k..][1..] == reports[k + 1..];
        if report.IsFailed() && !report.wasxfail && report.when == Call {
          if rerunCount < rerunMax - 1 {
            report := report.(outcome := Rerun);
          } else {
            report := report.(outcome := Failed);
          }
          failed := true;
        } else if report.IsFailed() && report.when == Setup {
          aborted := true;
          return;
        }
        recorded := recorded + [report];
        if failed {
          return;
        }
        k := k + 1;
      }
      assert reports[k..] == [];
    }

    /** Lines 112-128 for sibling `i`: run it with its successor as `nextitem`, attach and scan its reports. */
    method RunSibling(siblings: seq<Item?>, i: nat, run: Engine, rerunCount: nat)
      returns (recorded: seq<Report>, failed: bool, aborted: bool)
      requires WellFormed(siblings) && i < |siblings| - 1
      modifies this, siblings[i]
      ensures siblings[i].reports == Some(run(siblings[i].nodeid, rerunCount))
      ensures siblings[i].parent == old(siblings[i].parent)
      ensures log == old(log) + [RunTest(siblings[i].nodeid, NextItem(siblings, i).nodeid)]
      ensures rerunClasses == old(rerunClasses)
      ensures Scanned(recorded, failed, aborted) == Scan(run(siblings[i].nodeid, rerunCount), rerunCount, rerunMax)
    {
      var nextitem := NextItem(siblings, i);
      var reports := run(siblings[i].nodeid, rerunCount);
      log := log + [RunTest(siblings[i].nodeid, nextitem.nodeid)];
      siblings[i].reports := Some(reports);
      recorded, failed, aborted := ScanReports(reports, rerunCount);
    }

    /**
     * One pass over the siblings (lines 109-132), proved against `RunPass`:
     * every sibling run gets its runner reports attached, and every other
     * entry keeps the reports it had.
     */
    method RunSiblingsPass(siblings: seq<Item?>, run: Engine, rerunCount: nat)
      returns (attempt: seq<Report>, passed: bool, aborted: bool, ghost reached: nat)
      requires WellFormed(siblings)
      modifies this, set x: Item | x in siblings
      ensures var p := RunPass(siblings, run, rerunCount, rerunMax, 0, [], old(log));
              && attempt == p.attempt && passed == p.passed && aborted == p.aborted && log == p.log
              && reached == p.reached
      ensures reached <= |siblings| - 1
      ensures forall k :: 0 <= k < reached ==> siblings[k].reports == Some(run(siblings[k].nodeid, rerunCount))
      ensures forall x: Item :: x in siblings && x !in siblings[..reached] ==> x.reports == old(x.reports)
      ensures rerunClasses == old(rerunClasses)
      ensures forall x: Item :: x in siblings ==> x.parent == old(x.parent)
    {
      ghost var target := RunPass(siblings, run, rerunCount, rerunMax, 0, [], log);
      attempt, passed, aborted := [], true, false;
      var i := 0;
      while i < |siblings| - 1
        invariant 0 <= i <= |siblings| - 1
        invariant RunPass(siblings, run, rerunCount, rerunMax, i, attempt, log) == target
        invariant forall k :: 0 <= k < i ==> siblings[k].reports == Some(run(siblings[k].nodeid, rerunCount))
        invariant forall x: Item :: x in siblings && x !in siblings[..i] ==> x.reports == old(x.reports)
        invariant rerunClasses == old(rerunClasses) && passed && !aborted
        invariant forall x: Item :: x in siblings ==> x.parent == old(x.parent)
        decreases |siblings| - 1 - i
      {
        var recorded, failed, abort := RunSibling(siblings, i, run, rerunCount);
        attempt := attempt + recorded;
        if abort || failed {
          passed, aborted := false, abort;
          reached := i + 1;
          return;
        }
        i := i + 1;
      }
      reached := i;
    }

    /** Lines 183-185: every captured attribute is written back as a fresh copy; `false` where `deepcopy` raises. */
    method SetParentInitialState(parent: TestClass, state: map<string, PyObject>) returns (ok: bool)
      modifies parent
      ensures ok <==> forall k :: k in state ==> state[k].cloneable
      ensures ok ==> parent.attrs.Keys == old(parent.attrs).Keys + state.Keys
      ensures ok ==> forall k :: k in old(parent.attrs) && k !in state ==> parent.attrs[k] == old(parent.attrs)[k]
      ensures ok ==> forall k :: k in state ==> fresh(parent.attrs[k]) && CopyOf(state[k], parent.attrs[k])
      ensures parent.previousFailed == old(parent.previousFailed)
    {
      var names := state.Keys;
      ghost var written: map<string, PyObject> := map[];
      while names != {}
        invariant names <= state.Keys && written.Keys == state.Keys - names
        invariant parent.attrs.Keys == old(parent.attrs).Keys + written.Keys
        invariant forall k :: k in written ==> parent.attrs[k] == written[k]
        invariant forall k :: k in old(parent.attrs) && k !in written ==> parent.attrs[k] == old(parent.attrs)[k]
        invariant forall k :: k in written ==> state[k].cloneable
        invariant forall k :: k in written ==> fresh(written[k])
        invariant forall k :: k in written ==> CopyOf(state[k], written[k])
        invariant parent.previousFailed == old(parent.previousFailed)
        decreases names
      {
        var name :| name in names;
        var copy := DeepCopy(state[name]);
        if copy.None? {
          return false;
        }
        parent.attrs := parent.attrs[name := copy.value];
        written := written[name := copy.value];
        names := names - {name};
      }
      return true;
    }

    /**
     * `_save_parent_initial_state` (lines 161-172): a fresh copy of every
     * capturable attribute, or None where `deepcopy` raises on one of them.
     */
    method SaveParentInitialState(parent: TestClass) returns (state: Option<map<string, PyObject>>)
      ensures state.None? <==> Uncopyable(parent.attrs)
      ensures state.Some? ==> state.value.Keys == CapturableNames(parent.attrs)
      ensures state.Some? ==> forall k :: k in state.value ==>
                fresh(state.value[k]) && CopyOf(parent.attrs[k], state.value[k]) && state.value[k].cloneable
      ensures state.Some? ==> SnapshotOf(parent.attrs, state.value)
    {
      var obj := parent.attrs;
      var attrs: map<string, PyObject> := map[];
      var names := obj.Keys;
      while names != {}
        invariant names <= obj.Keys
        invariant attrs.Keys == set k | k in obj && k !in names && Capturable(k, obj[k])
        invariant forall k :: k in obj && k !in names && Capturable(k, obj[k]) ==> obj[k].cloneable
        invariant forall k :: k in attrs ==> fresh(attrs[k]) && CopyOf(obj[k], attrs[k]) && attrs[k].cloneable
        decreases names
      {
        var name :| name in names;
        var value := obj[name];
        if !value.callable && !StartsWith(name, "__") && !StartsWith(name, "___") && name != "pytestmark" {
          var copy := DeepCopy(value);
          if copy.None? {
            return None;
          }
          attrs := attrs[name := copy.value];
        }
        names := names - {name};
      }
      return Some(attrs);
    }

    /**
     * `_recreate_test_class` (lines 201-211): drop `_previousfailed`,
     * restore the snapshot and point every sibling but the last entry back
     * at the class node; `false` where restoring raised.
     */
    method RecreateTestClass(cls: TestClass, siblings: seq<Item?>, initialState: map<string, PyObject>)
      returns (ok: bool, cls': TestClass, siblings': seq<Item?>)
      requires WellFormed(siblings)
      modifies cls, set x: Item | x in siblings
      ensures ok <==> forall k :: k in initialState ==> initialState[k].cloneable
      ensures cls' == cls && siblings' == siblings && !cls.previousFailed
      ensures ok ==> cls.attrs.Keys == old(cls.attrs).Keys + initialState.Keys
      ensures ok ==> forall k :: k in old(cls.attrs) && k !in initialState ==> cls.attrs[k] == old(cls.attrs)[k]
      ensures ok ==> cls.attrs - initialState.Keys == old(cls.attrs) - initialState.Keys
      ensures ok ==> forall k :: k in initialState ==> CopyOf(initialState[k], cls.attrs[k])
      ensures ok ==> forall k :: 0 <= k < |siblings| - 1 ==> siblings[k].parent == cls
      ensures !ok ==> forall x: Item :: x in siblings ==> x.parent == old(x.parent)
      ensures forall x: Item :: x in siblings && x !in siblings[..|siblings| - 1] ==> x.parent == old(x.parent)
      ensures forall x: Item :: x in siblings ==> x.reports == old(x.reports)
    {
      cls', siblings' := cls, siblings;
      if cls.previousFailed {
        cls.previousFailed := false;
      }
      ghost var before := cls.attrs;
      ok := SetParentInitialState(cls, initialState);
      if !ok {
        return;
      }
      ghost var attrs := cls.attrs;
      assert attrs - initialState.Keys == before - initialState.Keys;
      for i := 0 to |siblings| - 1
        invariant cls.attrs == attrs && !cls.previousFailed
        invariant forall k :: k in initialState ==> CopyOf(initialState[k], cls.attrs[k])
        invariant forall k :: 0 <= k < i ==> siblings[k].parent == cls
        invariant forall x: Item :: x in siblings && x !in siblings[..|siblings| - 1] ==> x.parent == old(x.parent)
        invariant forall x: Item :: x in siblings ==> x.reports == old(x.reports)
      {
        siblings[i].parent := cls;
      }
    }

    /**
     * Lines 136-139: forget errored fixture results, clear the setup stack
     * and tear everything down; the class node and the items are not touched.
     */
    method ClearFailedSetup(item: Item, ghost cls: TestClass, ghost siblings: seq<Item?>)
      modifies this, FixtureDefsOf(item)
      ensures log == old(log) + [ClearSetupStack, TeardownAll] && rerunClasses == old(rerunClasses)
      ensures forall d :: d in FixtureDefsOf(item) ==> d.cachedResult == Forget(old(d.cachedResult))
      ensures Caches(FixtureDefsOf(item)) == ForgetAll(old(Caches(FixtureDefsOf(item))))
      ensures unchanged(item, cls, set x: Item | x in siblings)
    {
      RemoveCachedResultsFromFailedFixtures(item);
      log := log + [ClearSetupStack];
      log := log + [TeardownAll];
    }

    /**
     * Lines 134-145, between two passes: forget errored fixture results,
     * clear the setup stack, tear everything down, recreate the class and set
     * it up again.
     */
    method TeardownRerun(item: Item, cls: TestClass, siblings: seq<Item?>, initialState: map<string, PyObject>)
      requires WellFormed(siblings)
      requires forall k :: k in initialState ==> initialState[k].cloneable
      modifies this, FixtureDefsOf(item), item, cls, set x: Item | x in siblings
      ensures log == old(log) + [ClearSetupStack, TeardownAll, SetupClass(cls.name)]
      ensures rerunClasses == old(rerunClasses)
      ensures forall d :: d in FixtureDefsOf(item) ==>
                d.cachedResult == if Errored(old(d.cachedResult)) then None else old(d.cachedResult)
      ensures !cls.previousFailed
      ensures forall k :: k in initialState ==> k in cls.attrs && CopyOf(initialState[k], cls.attrs[k])
      ensures cls.attrs.Keys == old(cls.attrs).Keys + initialState.Keys
      ensures cls.attrs - initialState.Keys == old(cls.attrs) - initialState.Keys
      ensures item.parent == cls
      ensures forall k :: 0 <= k < |siblings| - 1 ==> siblings[k].parent == cls
      ensures forall x: Item :: x in siblings && x !in siblings[..|siblings| - 1] && x != item ==> x.parent == old(x.parent)
      ensures forall x: Item :: x in siblings ==> x.reports == old(x.reports)
      ensures item.reports == old(item.reports)
      ensures TornDownFrom(RerunClass.StateOf(item, cls, siblings), old(RerunClass.StateOf(item, cls, siblings)),
                           cls, item, siblings, initialState.Keys)
    {
      ClearFailedSetup(item, cls, siblings);
      var ok, cls', siblings' := RecreateTestClass(cls, siblings, initialState);
      item.parent := cls';
      log := log + [SetupClass(cls'.name)];
      // the `sleep(self.delay)` of line 145 has no effect on the model
    }

    /**
     * One round of the attempt loop (lines 109-145): a pass over the
     * siblings and, when it failed without aborting and another attempt
     * remains, the teardown. `s0` is the state before the first round and
     * `restarted` says whether an earlier round tore the class down.
     */
    method RunRound(item: Item, cls: TestClass, siblings: seq<Item?>, initialState: map<string, PyObject>, run: Engine,
                    rerunCount: nat, ghost s0: RerunClass.ClassState, ghost restarted: bool)
      returns (attempt: seq<Report>, passed: bool, aborted: bool, rerunCount': nat, ghost reached: nat, ghost restarted': bool)
      requires WellFormed(siblings) && rerunCount < rerunMax
      requires forall k :: k in initialState ==> initialState[k].cloneable
      requires RoundState(item, cls, siblings, initialState, s0, restarted)
      modifies this, FixtureDefsOf(item), item, cls, set x: Item | x in siblings
      ensures var p := RunPass(siblings, run, rerunCount, rerunMax, 0, [], old(log));
              && attempt == p.attempt && passed == p.passed && aborted == p.aborted && reached == p.reached
              && rerunCount' == (if !aborted && !passed then rerunCount + 1 else rerunCount)
              && log == if !aborted && !passed && rerunCount' < rerunMax
                        then p.log + [ClearSetupStack, TeardownAll, SetupClass(cls.name)] else p.log
      ensures reached <= |siblings| - 1
      ensures forall k :: 0 <= k < reached ==> siblings[k].reports.Some?
      ensures forall x: Item :: x in siblings && old(x.reports).Some? ==> x.reports.Some?
      ensures rerunClasses == old(rerunClasses)
      ensures restarted' == (restarted || (!aborted && !passed && rerunCount' < rerunMax))
      ensures RoundState(item, cls, siblings, initialState, s0, restarted')
    {
      ghost var sBefore := RerunClass.StateOf(item, cls, siblings);
      attempt, passed, aborted, reached := RunSiblingsPass(siblings, run, rerunCount);
      assert RerunClass.StateOf(item, cls, siblings) == sBefore;
      rerunCount' := if !aborted && !passed then rerunCount + 1 else rerunCount;
      restarted' := restarted;
      // on a set-up failure (line 125) the protocol returns at once
      if !aborted && !passed && rerunCount' < rerunMax {
        ghost var s1 := RerunClass.StateOf(item, cls, siblings);
        TeardownRerun(item, cls, siblings, initialState);
        if restarted {
          TornDownTwice(RerunClass.StateOf(item, cls, siblings), s1, s0, cls, item, siblings, initialState.Keys);
        }
        restarted' := true;
      }
    }

    /**
     * The attempt loop (lines 104-145), proved against `RunLoop`: one report
     * list is appended per pass and filled from the pass at index `rerunCount`.
     * The class node, the fixtures and the siblings' parents are left as they
     * were when only one pass ran, and as the teardowns leave them otherwise.
     */
    method RunAttempts(item: Item, cls: TestClass, siblings: seq<Item?>, initialState: map<string, PyObject>, run: Engine)
      returns (reports: seq<seq<Report>>, rerunCount: nat, allPassed: bool, aborted: bool)
      requires WellFormed(siblings) && 0 < rerunMax
      requires forall k :: k in initialState ==> initialState[k].cloneable
      modifies this, FixtureDefsOf(item), item, cls, set x: Item | x in siblings
      ensures var r := RunLoop(siblings, run, rerunMax, cls.name, 0, [], 0, old(log));
              && reports == r.reports && rerunCount == r.rerunCount && allPassed == r.allPassed
              && aborted == r.aborted && log == r.log
      ensures forall k :: (0 <= k < RunLoop(siblings, run, rerunMax, cls.name, 0, [], 0, old(log)).reached
                           && k < |siblings| - 1) ==> siblings[k].reports.Some?
      ensures rerunClasses == old(rerunClasses)
      ensures |reports| <= 1 ==> RerunClass.StateOf(item, cls, siblings) == old(RerunClass.StateOf(item, cls, siblings))
      ensures |reports| > 1 ==>
                && TornDownFrom(RerunClass.StateOf(item, cls, siblings), old(RerunClass.StateOf(item, cls, siblings)),
                                cls, item, siblings, initialState.Keys)
                && RerunClass.HoldsCopies(cls, initialState)
    {
      ghost var target := RunLoop(siblings, run, rerunMax, cls.name, 0, [], 0, log);
      ghost var s0 := RerunClass.StateOf(item, cls, siblings);
      ghost var reached: nat := 0;
      ghost var restarted := false;
      reports, rerunCount, allPassed, aborted := [], 0, false, false;
      while !allPassed && !aborted && rerunCount < rerunMax
        invariant |reports| == rerunCount || allPassed || aborted
        invariant allPassed || aborted ==> |reports| == rerunCount + 1
        invariant !allPassed && !aborted && rerunCount < rerunMax ==> (restarted <==> rerunCount > 0)
        invariant allPassed || aborted || rerunCount >= rerunMax ==> (restarted <==> |reports| > 1)
        invariant !allPassed && !aborted && rerunCount < rerunMax ==>
                    RunLoop(siblings, run, rerunMax, cls.name, rerunCount, reports, reached, log) == target
        invariant allPassed || aborted || rerunCount >= rerunMax ==>
                    target == LoopResult(reports, rerunCount, allPassed, aborted, reached, log)
        invariant reached <= |siblings| - 1
        invariant forall k :: 0 <= k < reached ==> siblings[k].reports.Some?
        invariant rerunClasses == old(rerunClasses)
        invariant RoundState(item, cls, siblings, initialState, s0, restarted)
        decreases rerunMax - rerunCount, if allPassed || aborted then 0 else 1
      {
        ghost var before := log;
        ghost var p := RunPass(siblings, run, rerunCount, rerunMax, 0, [], log);
        ghost var reports0, count0, reached0 := reports, rerunCount, reached;
        PassFailureLabel(siblings, run, rerunCount, rerunMax, 0, [], log);
        reports := reports + [[]];
        var attempt, passed, abort, nextCount;
        ghost var passReached;
        attempt, passed, abort, nextCount, passReached, restarted :=
          RunRound(item, cls, siblings, initialState, run, rerunCount, s0, restarted);
        reports := reports[rerunCount := attempt];
        rerunCount := nextCount;
        assert reports == reports0 + [p.attempt];
        reached := if passReached > reached then passReached else reached;
        allPassed, aborted := passed, abort;
        assert RunLoop(siblings, run, rerunMax, cls.name, count0, reports0, reached0, before) ==
          if p.aborted then LoopResult(reports, count0, false, true, reached, p.log)
          else if p.passed then LoopResult(reports, count0, true, false, reached, p.log)
          else if count0 + 1 < rerunMax then
            RunLoop(siblings, run, rerunMax, cls.name, count0 + 1, reports, reached,
                    p.log + [ClearSetupStack, TeardownAll, SetupClass(cls.name)])
          else LoopResult(reports, count0 + 1, false, false, reached, p.log);
      }
    }

    /** `_process_reports` (lines 222-231), proved against `ProcessReports`. */
    method ProcessClassReports(rerunReports: seq<seq<Report>>) returns (newReports: seq<Report>)
      requires |rerunReports| > 0
      ensures newReports == ProcessReports(rerunReports, onlyLast)
    {
      var n := |rerunReports| - 1;
      newReports := [];
      if !onlyLast {
        if |rerunReports| > 1 {
          for j := 0 to n
            invariant newReports == Earlier(rerunReports[..j])
          {
            var reports := rerunReports[j];
            for t := 0 to |reports|
              invariant |reports| == |rerunReports[j]|
              invariant forall u :: 0 <= u < t ==> reports[u] == RelabelCalls(rerunReports[j])[u]
              invariant forall u :: t <= u < |reports| ==> reports[u] == rerunReports[j][u]
            {
              if reports[t].when == Call {
                reports := reports[t := reports[t].(outcome := Rerun)];
              }
            }
            assert reports == RelabelCalls(rerunReports[j]);
            assert rerunReports[..j + 1][..j] == rerunReports[..j];
            newReports := newReports + reports;
          }
        }
      }
      newReports := newReports + rerunReports[n];
    }

    /**
     * Lines 93-145 for the first item of a class not seen before: collect
     * the siblings, snapshot the class (`raised` where that raises) and run
     * the attempts, which leave the class node, the fixtures and the parents
     * as `TornDownFrom` describes once a teardown happened and untouched
     * otherwise; items outside the siblings are not touched.
     */
    method AttemptClass(plan: seq<Item>, pos: nat, cls: TestClass, run: Engine)
      returns (siblings: seq<Item?>, raised: bool, reports: seq<seq<Report>>, aborted: bool)
      requires pos < |plan| && 0 < rerunMax
      modifies this, cls, FixtureDefsOf(plan[pos]), set x: Item | x in plan
      ensures siblings == Siblings(plan, pos)
      ensures raised <==> Uncopyable(old(cls.attrs))
      ensures rerunClasses == old(rerunClasses)
      ensures raised ==> log == old(log) && unchanged(cls, FixtureDefsOf(plan[pos]), set x: Item | x in plan)
      ensures !raised ==>
                var r := RunLoop(siblings, run, rerunMax, cls.name, 0, [], 0, old(log));
                && reports == r.reports && aborted == r.aborted && log == r.log && reports != []
                && (forall k :: 0 <= k < r.reached && k < |siblings| - 1 ==> siblings[k].reports.Some?)
      ensures !raised && |reports| <= 1 ==>
                RerunClass.StateOf(plan[pos], cls, siblings) == old(RerunClass.StateOf(plan[pos], cls, siblings))
      ensures !raised && |reports| > 1 ==>
                && TornDownFrom(RerunClass.StateOf(plan[pos], cls, siblings), old(RerunClass.StateOf(plan[pos], cls, siblings)),
                                cls, plan[pos], siblings, CapturableNames(old(cls.attrs)))
                && RestoredFrom(old(cls.attrs), cls.attrs)
      ensures forall x: Item :: x in plan && x !in siblings ==> x.parent == old(x.parent) && x.reports == old(x.reports)
    {
      ghost var attrs0 := cls.attrs;
      var item := plan[pos];
      siblings := CollectSiblingItems(plan, pos);
      assert forall x: Item :: x in siblings ==> x in plan;
      ghost var s0 := RerunClass.StateOf(item, cls, siblings);
      var captured := SaveParentInitialState(cls);
      if captured.None? {
        return siblings, true, [], false;
      }
      raised := false;
      assert RerunClass.StateOf(item, cls, siblings) == s0;
      OneListPerPass(siblings, run, rerunMax, cls.name, 0, [], 0, log);
      var rerunCount, allPassed;
      reports, rerunCount, allPassed, aborted := RunAttempts(item, cls, siblings, captured.value, run);
      if |reports| > 1 {
        SnapshotRestores(attrs0, captured.value, cls.attrs);
      }
    }

    /** Line 147: the item carries the class's rewritten reports; the class state is not touched. */
    method AttachReports(item: Item, processed: seq<Report>, ghost cls: TestClass, ghost items: seq<Item?>)
      modifies item
      ensures item.reports == Some(processed)
      ensures RerunClass.StateOf(item, cls, items) == old(RerunClass.StateOf(item, cls, items))
    {
      item.reports := Some(processed);
    }

    /**
     * Lines 147-149: attach the rewritten reports to the item, report them
     * and tear down; nothing but the item's reports changes on the heap.
     */
    method FinishClass(item: Item, reports: seq<seq<Report>>, ghost cls: TestClass, ghost items: seq<Item?>)
      requires |reports| > 0
      modifies this, item
      ensures var processed := ProcessReports(reports, onlyLast);
              && item.reports == Some(processed)
              && log == old(log) + ReportEvents(item.nodeid, item.location, Some(processed)) + [TeardownAll]
      ensures rerunClasses == old(rerunClasses)
      ensures RerunClass.StateOf(item, cls, items) == old(RerunClass.StateOf(item, cls, items))
    {
      var processed := ProcessClassReports(reports);
      AttachReports(item, processed, cls, items);
      ReportRun(item);
      log := log + [TeardownAll];
    }

    /** Line 89: the class is remembered as run. */
    method RememberClass(name: string, ghost item: Item, ghost cls: TestClass, ghost items: seq<Item?>)
      modifies this
      ensures rerunClasses == old(rerunClasses) + [name] && log == old(log)
      ensures unchanged(item, cls, FixtureDefsOf(item), set x: Item | x in items)
    {
      rerunClasses := rerunClasses + [name];
    }

    /**
     * Lines 89-150 for the first item of a class not seen before: remember
     * the class, collect the siblings, snapshot it, run the attempts and, unless a set-up
     * failed, attach the rewritten reports to the item, report them and tear
     * down. The class node, the fixtures and the parents are left as the
     * attempts leave them; items outside the siblings are not touched.
     */
    method RunClass(plan: seq<Item>, pos: nat, cls: TestClass, run: Engine) returns (result: HookResult)
      requires pos < |plan| && 0 < rerunMax && cls.name !in rerunClasses
      modifies this, cls, FixtureDefsOf(plan[pos]), set x: Item | x in plan
      ensures rerunClasses == old(rerunClasses) + [cls.name]
      ensures Uncopyable(old(cls.attrs)) ==>
                result.Raised? && log == old(log) && unchanged(cls, FixtureDefsOf(plan[pos]), set x: Item | x in plan)
      ensures !Uncopyable(old(cls.attrs)) ==>
                var siblings := Siblings(plan, pos);
                var r := RunLoop(siblings, run, rerunMax, cls.name, 0, [], 0, old(log));
                && (forall k :: 1 <= k < r.reached && k < |siblings| - 1 ==> siblings[k].reports.Some?)
                && (r.aborted ==> result == Returned(false) && log == r.log)
                && (!r.aborted ==>
                      r.reports != [] &&
                      var processed := ProcessReports(r.reports, onlyLast);
                      && result == Returned(true)
                      && plan[pos].reports == Some(processed)
                      && log == r.log + ReportEvents(plan[pos].nodeid, plan[pos].location, Some(processed)) + [TeardownAll])
      ensures !Uncopyable(old(cls.attrs)) ==>
                var siblings := Siblings(plan, pos);
                var r := RunLoop(siblings, run, rerunMax, cls.name, 0, [], 0, old(log));
                && (|r.reports| <= 1 ==>
                      RerunClass.StateOf(plan[pos], cls, siblings) == old(RerunClass.StateOf(plan[pos], cls, siblings)))
                && (|r.reports| > 1 ==>
                      && TornDownFrom(RerunClass.StateOf(plan[pos], cls, siblings), old(RerunClass.StateOf(plan[pos], cls, siblings)),
                                      cls, plan[pos], siblings, CapturableNames(old(cls.attrs)))
                      && RestoredFrom(old(cls.attrs), cls.attrs))
      ensures forall x: Item :: x in plan && x !in Siblings(plan, pos) ==> x.parent == old(x.parent) && x.reports == old(x.reports)
    {
      RememberClass(cls.name, plan[pos], cls, Siblings(plan, pos));
      var siblings, raised, reports, aborted := AttemptClass(plan, pos, cls, run);
      if raised {
        return Raised("deepcopy of a class attribute failed");
      }
      if aborted {
        return Returned(false);
      }
      FinishClass(plan[pos], reports, cls, siblings);
      return Returned(true);
    }

    /**
     * `pytest_runtest_protocol` (lines 78-150), with the plan
     * (`session.items`), the position of the item in it and the runner.
     */
    method PytestRuntestProtocol(plan: seq<Item>, pos: nat, nextitem: Item?, run: Engine) returns (result: HookResult)
      requires pos < |plan|
      modifies this, plan[pos].parent, FixtureDefsOf(plan[pos]), set x: Item | x in plan
      ensures old(rerunClasses) <= rerunClasses
      ensures Ineligible(plan[pos], rerunMax) ==>
                && result == Returned(false)
                && log == old(log) && rerunClasses == old(rerunClasses) && plan[pos].reports == old(plan[pos].reports)
      ensures !Ineligible(plan[pos], rerunMax) && old(plan[pos].reports).Some? ==>
                && result == Returned(true) && plan[pos].reports == None
                && log == old(log) && rerunClasses == old(rerunClasses)
      ensures !Ineligible(plan[pos], rerunMax) && old(plan[pos].reports).None? && old(plan[pos].parent) == null ==>
                result.Raised? && log == old(log) && rerunClasses == old(rerunClasses)
      ensures !Ineligible(plan[pos], rerunMax) && old(plan[pos].reports).None? && old(plan[pos].parent) != null
              && old(plan[pos].parent).name in old(rerunClasses) ==>
                result == Returned(false) && log == old(log) && rerunClasses == old(rerunClasses)
      ensures !Ineligible(plan[pos], rerunMax) && old(plan[pos].reports).None? && old(plan[pos].parent) != null
              && old(plan[pos].parent).name !in old(rerunClasses) ==>
                && rerunClasses == old(rerunClasses) + [old(plan[pos].parent).name]
                && (Uncopyable(old(plan[pos].parent.attrs)) ==> result.Raised? && log == old(log))
                && (!Uncopyable(old(plan[pos].parent.attrs)) ==>
                      var r := RunLoop(Siblings(plan, pos), run, rerunMax, old(plan[pos].parent).name, 0, [], 0, old(log));
                      && (r.aborted ==> result == Returned(false) && log == r.log)
                      && (!r.aborted ==>
                            r.reports != [] &&
                            var processed := ProcessReports(r.reports, onlyLast);
                            && result == Returned(true)
                            && plan[pos].reports == Some(processed)
                            && log == r.log + ReportEvents(plan[pos].nodeid, plan[pos].location, Some(processed)) + [TeardownAll]))
      ensures StaysOut(plan[pos], old(plan[pos].reports), old(plan[pos].parent), old(rerunClasses), rerunMax) ==>
                && unchanged(FixtureDefsOf(plan[pos]))
                && (old(plan[pos].parent) != null ==> unchanged(old(plan[pos].parent)))
                && (forall x: Item :: x in plan ==> x.parent == old(x.parent))
                && (forall x: Item :: x in plan && x != plan[pos] ==> x.reports == old(x.reports))
      ensures !StaysOut(plan[pos], old(plan[pos].reports), old(plan[pos].parent), old(rerunClasses), rerunMax) ==>
                var cls := old(plan[pos].parent);
                var siblings := Siblings(plan, pos);
                var r := RunLoop(siblings, run, rerunMax, cls.name, 0, [], 0, old(log));
                && (Uncopyable(old(cls.attrs)) ==> unchanged(cls, FixtureDefsOf(plan[pos]), set x: Item | x in plan))
                && (!Uncopyable(old(cls.attrs)) && |r.reports| <= 1 ==>
                      RerunClass.StateOf(plan[pos], cls, siblings) == old(RerunClass.StateOf(plan[pos], plan[pos].parent, siblings)))
                && (!Uncopyable(old(cls.attrs)) && |r.reports| > 1 ==>
                      && TornDownFrom(RerunClass.StateOf(plan[pos], cls, siblings),
                                      old(RerunClass.StateOf(plan[pos], plan[pos].parent, siblings)),
                                      cls, plan[pos], siblings, CapturableNames(old(cls.attrs)))
                      && RestoredFrom(old(cls.attrs), cls.attrs))
                && (forall x: Item :: x in plan && x !in siblings ==> x.parent == old(x.parent) && x.reports == old(x.reports))
    {
      var item := plan[pos];
      if item.cls.None? || rerunMax == 0 {
        return Returned(false);
      }
      if item.reports.Some? {
        item.reports := None;
        return Returned(true);
      }
      var cls := item.parent;
      if cls == null {
        return Raised("AttributeError: 'NoneType' object has no attribute 'name'");
      }
      if cls.name in rerunClasses {
        return Returned(false);
      }
      result := RunClass(plan, pos, cls, run);
    }
  }
}
