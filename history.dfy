/**
 * The per-class report history of the current plugin revision and what is
 * done with it: recording a test's reports under an attempt number, the
 * rewriting of earlier attempts once the class is done (`_process_reports`),
 * and the events that replay a test's history to the reporting hooks
 * (`_report_run`), including the synthesized "skipped" report for a test that
 * never ran.
 */
module History {
  import opened Pytest
  import opened NodeIds

  /** The reports of one test, one list per attempt (index = attempt number). */
  type Attempts = seq<seq<Report>>

  /** One class's history: nodeid -> attempts. */
  type History = map<string, Attempts>

  /** `rerun_classes`: module -> class name -> history. */
  type Registry = map<string, map<string, History>>

  const AbortMessage: string := "Skipping test due to class execution was aborted during rerun"

  /** The attempts recorded for `id` so far; none when it has no entry. */
  function AttemptsOf(h: History, id: string): Attempts
  {
    if id in h then h[id] else []
  }

  /** Attempt `k` of `xs`, or an empty attempt beyond its end. */
  function Slot(xs: Attempts, k: nat): seq<Report>
  {
    if k < |xs| then xs[k] else []
  }

  /** The padding loop of lines 135-136: append empty attempts until there are at least `n`. */
  function Padded(xs: Attempts, n: nat): (r: Attempts)
    ensures |r| == if |xs| < n then n else |xs|
    ensures r[..|xs|] == xs
    ensures forall k :: |xs| <= k < |r| ==> r[k] == []
    decreases n - |xs|
  {
    if |xs| >= n then xs
    else
      var r := Padded(xs + [[]], n);
      assert r[..|xs|] == r[..|xs| + 1][..|xs|];
      r
  }

  /**
   * Lines 133-139: the reports `rs` of test `id` on attempt `a` are appended
   * to attempt `a` of its entry, which is created and padded first.
   */
  function Record(h: History, id: string, a: nat, rs: seq<Report>): History
  {
    var padded := Padded(AttemptsOf(h, id), a + 1);
    h[id := padded[a := padded[a] + rs]]
  }

  /**
   * What recording does: the test gains an entry if it had none, its list
   * grows to at least `a + 1` attempts, `rs` lands at the end of attempt `a`,
   * and every other attempt and every other test is left as it was.
   */
  lemma RecordShape(h: History, id: string, a: nat, rs: seq<Report>)
    ensures Record(h, id, a, rs).Keys == h.Keys + {id}
    ensures forall k :: k in h && k != id ==> Record(h, id, a, rs)[k] == h[k]
    ensures |Record(h, id, a, rs)[id]| == if a < |AttemptsOf(h, id)| then |AttemptsOf(h, id)| else a + 1
    ensures Record(h, id, a, rs)[id][a] == Slot(AttemptsOf(h, id), a) + rs
    ensures forall k :: 0 <= k < |Record(h, id, a, rs)[id]| && k != a ==>
                         Record(h, id, a, rs)[id][k] == Slot(AttemptsOf(h, id), k)
  {
    var before := AttemptsOf(h, id);
    var padded := Padded(before, a + 1);
    assert forall k :: 0 <= k < |before| ==> padded[k] == padded[..|before|][k];
  }

  /** `rerun_classes[m][c] = h`, creating the module's entry when it is missing. */
  function Store(rc: Registry, m: string, c: string, h: History): (r: Registry)
    ensures m in r && c in r[m] && r[m][c] == h
    ensures forall m' :: m' in rc && m' != m ==> m' in r && r[m'] == rc[m']
    ensures forall c' :: m in rc && c' in rc[m] && c' != c ==> c' in r[m] && r[m][c'] == rc[m][c']
    ensures r.Keys == rc.Keys + {m}
    ensures r[m].Keys == (if m in rc then rc[m].Keys else {}) + {c}
  {
    rc[m := (if m in rc then rc[m] else map[])[c := h]]
  }

  /** Every report of an earlier attempt is shown as a rerun. */
  function RelabelAll(rs: seq<Report>): seq<Report>
  {
    seq(|rs|, k requires 0 <= k < |rs| => rs[k].(outcome := Rerun))
  }

  /** `_process_reports` for one test (lines 307-313). */
  function ProcessAttempts(xs: Attempts, onlyLast: bool): Attempts
  {
    if |xs| > 1 then
      if onlyLast then [xs[|xs| - 1]]
      else seq(|xs|, k requires 0 <= k < |xs| => if k < |xs| - 1 then RelabelAll(xs[k]) else xs[k])
    else xs
  }

  /**
   * `_process_reports` (lines 306-313): a test with more than one attempt
   * keeps only its last attempt when `onlyLast` is set and otherwise has every
   * report of its earlier attempts relabelled "rerun"; a test with one
   * attempt is left as it is.
   */
  function ProcessReports(h: History, onlyLast: bool): (r: History)
    ensures r.Keys == h.Keys
    ensures forall id :: id in h ==> 1 <= |r[id]| <= |h[id]| || r[id] == h[id] == []
    ensures forall id :: id in h && h[id] != [] ==> r[id][|r[id]| - 1] == h[id][|h[id]| - 1]
    ensures forall id :: id in h && |h[id]| <= 1 ==> r[id] == h[id]
    ensures onlyLast ==> forall id :: id in h && |h[id]| > 1 ==> r[id] == [h[id][|h[id]| - 1]]
    ensures !onlyLast ==> forall id :: id in h ==> |r[id]| == |h[id]|
    ensures !onlyLast ==> forall id, k :: id in h && 0 <= k < |h[id]| - 1 ==> r[id][k] == RelabelAll(h[id][k])
  {
    map id | id in h :: ProcessAttempts(h[id], onlyLast)
  }

  /**
   * `--rerun-show-only-last`: a test with a history replays exactly the
   * reports of its final attempt.
   */
  lemma ShowOnlyLast(nodeid: string, location: Location, h: History)
    requires nodeid in h && h[nodeid] != []
    ensures ReportsOf(ReportRunEvents(nodeid, location, ProcessReports(h, true))) == h[nodeid][|h[nodeid]| - 1]
  {
    var p := ProcessReports(h, true);
    var last := h[nodeid][|h[nodeid]| - 1];
    ReplayReportsHistory(nodeid, location, p);
    assert p[nodeid] == ProcessAttempts(h[nodeid], true);
    OnlyLastAttempt(h[nodeid]);
    FlattenSingle(last);
  }

  /** `_process_reports` under only-last keeps the final attempt alone (line 309); used by `ShowOnlyLast`. */
  lemma OnlyLastAttempt(xs: Attempts)
    requires xs != []
    ensures ProcessAttempts(xs, true) == [xs[|xs| - 1]]
  {
    if |xs| == 1 {
      assert xs == [xs[0]];
    }
  }

  /** Flattening one attempt gives that attempt; used by `ShowOnlyLast`. */
  lemma FlattenSingle(rs: seq<Report>)
    ensures Flatten([rs]) == rs
  {
    assert [rs][..0] == [];
  }

  /** A report with its outcome label erased: what the rewriting must not change. */
  function Strip(r: Report): Report
  {
    r.(outcome := Passed)
  }

  function StripAll(rs: seq<Report>): seq<Report>
  {
    seq(|rs|, k requires 0 <= k < |rs| => Strip(rs[k]))
  }

  lemma {:induction false} FlattenStripRelabel(xs: Attempts, ys: Attempts)
    requires |xs| == |ys|
    requires forall k :: 0 <= k < |xs| ==> StripAll(xs[k]) == StripAll(ys[k])
    ensures StripAll(Flatten(xs)) == StripAll(Flatten(ys))
    decreases |xs|
  {
    if xs != [] {
      var n := |xs| - 1;
      FlattenStripRelabel(xs[..n], ys[..n]);
      StripAppend(Flatten(xs[..n]), xs[n]);
      StripAppend(Flatten(ys[..n]), ys[n]);
    }
  }

  /** Erasing labels distributes over concatenation; used by `FlattenStripRelabel` and the older revision's `StripRelabelPrefix`. */
  lemma StripAppend(a: seq<Report>, b: seq<Report>)
    ensures StripAll(a + b) == StripAll(a) + StripAll(b)
  {
  }

  /**
   * The rewriting keeps every report, in its order, and changes nothing in
   * a report but its outcome label (unless only the last attempt is kept).
   */
  lemma ProcessPreservesOrder(h: History, id: string)
    requires id in h
    ensures StripAll(Flatten(ProcessReports(h, false)[id])) == StripAll(Flatten(h[id]))
    ensures |ProcessReports(h, false)[id]| == |h[id]|
  {
    var xs := h[id];
    var ys := ProcessReports(h, false)[id];
    forall k | 0 <= k < |xs|
      ensures StripAll(xs[k]) == StripAll(ys[k])
    {
    }
    FlattenStripRelabel(xs, ys);
  }

  /** After the rewriting, no report outside the final attempt still reads "failed". */
  lemma ProcessLeavesNoEarlierFailure(h: History, onlyLast: bool, id: string, k: nat, j: nat)
    requires id in h
    requires k < |ProcessReports(h, onlyLast)[id]| - 1
    requires j < |ProcessReports(h, onlyLast)[id][k]|
    ensures ProcessReports(h, onlyLast)[id][k][j].outcome == Rerun
  {
  }

  /** Rewriting twice is rewriting once. */
  lemma ProcessIdempotent(h: History, onlyLast: bool)
    ensures ProcessReports(ProcessReports(h, onlyLast), onlyLast) == ProcessReports(h, onlyLast)
  {
    var once := ProcessReports(h, onlyLast);
    forall id | id in once
      ensures ProcessAttempts(once[id], onlyLast) == once[id]
    {
      var xs := once[id];
      if |xs| > 1 && !onlyLast {
        forall k | 0 <= k < |xs| - 1
          ensures RelabelAll(xs[k]) == xs[k]
        {
        }
      }
    }
  }

  /**
   * `_report_run` line 76-78: the location of the synthesized report, split
   * from the nodeid on its first two `::` separators.
   */
  function SkipLocation(nodeid: string): (loc: Location)
    ensures loc.file == ModuleOf(nodeid) && loc.line == 0
  {
    var first := Partition(nodeid, Separator);
    var second := Partition(first.2, Separator);
    var className := second.0;
    var testName := second.2;
    var test := if className != "" && testName != "" then className + "." + testName else className;
    Location(first.0, 0, test)
  }

  /** The report that stands in for a test that never ran (lines 79-91). */
  function SkipReport(nodeid: string): (r: Report)
    ensures r.nodeid == nodeid && r.when == Call && r.outcome == Skipped && !r.CountsAsFailure()
    ensures r.location == SkipLocation(nodeid)
    ensures r.longrepr == SkipInfo(r.location.domain, 0, AbortMessage)
  {
    var loc := SkipLocation(nodeid);
    Report(nodeid, loc, Call, Skipped, false, SkipInfo(loc.domain, 0, AbortMessage), [("Reason", AbortMessage)])
  }

  /** `path::Class::test` is reported at `(path, 0, "Class.test")`. */
  lemma SkipLocationOfClassTest(file: string, className: string, testName: string)
    requires ':' !in file && ':' !in className
    requires className != "" && testName != ""
    ensures SkipLocation(file + Separator + className + Separator + testName)
            == Location(file, 0, className + "." + testName)
  {
    var rest := className + Separator + testName;
    assert file + Separator + className + Separator + testName == file + Separator + rest;
    PartitionJoined(file, Separator, rest);
    PartitionJoined(className, Separator, testName);
  }

  /** With no test part, the domain is the class part alone. */
  lemma SkipLocationOfClassOnly(file: string, className: string)
    requires ':' !in file && ':' !in className
    ensures SkipLocation(file + Separator + className) == Location(file, 0, className)
  {
    PartitionJoined(file, Separator, className);
    PartitionWithout(className, Separator);
  }

  /** The module key of `path::rest` is `path`. */
  lemma ModuleOfJoined(file: string, rest: string)
    requires ':' !in file
    ensures ModuleOf(file + Separator + rest) == file
  {
    PartitionJoined(file, Separator, rest);
  }

  /**
   * The hook calls of `_report_run` (lines 69-94): a test with a history
   * replays every report of every attempt in order between logstart and
   * logfinish; a test without one gets the synthesized skip.
   */
  function ReportRunEvents(nodeid: string, location: Location, h: History): seq<Event>
  {
    if nodeid in h then
      [LogStart(nodeid, location)] + Logged(Flatten(h[nodeid])) + [LogFinish(nodeid, location)]
    else
      [LogStart(nodeid, location), LogReport(SkipReport(nodeid)), LogFinish(nodeid, location)]
  }

  /** The reports carried by the `pytest_runtest_logreport` calls among `events`, in order. */
  function ReportsOf(events: seq<Event>): seq<Report>
  {
    if events == [] then []
    else ReportsOf(events[..|events| - 1]) + (if events[|events| - 1].LogReport? then [events[|events| - 1].report] else [])
  }

  lemma {:induction false} ReportsOfAppend(a: seq<Event>, b: seq<Event>)
    ensures ReportsOf(a + b) == ReportsOf(a) + ReportsOf(b)
    decreases |b|
  {
    if b == [] {
      assert a + b == a;
    } else {
      var n := |b| - 1;
      assert (a + b)[..|a + b| - 1] == a + b[..n];
      ReportsOfAppend(a, b[..n]);
    }
  }

  lemma {:induction false} ReportsOfLogged(rs: seq<Report>)
    ensures ReportsOf(Logged(rs)) == rs
    decreases |rs|
  {
    if rs != [] {
      var n := |rs| - 1;
      ReportsOfLogged(rs[..n]);
      ReportsOfAppend(Logged(rs[..n]), [LogReport(rs[n])]);
      assert ReportsOf([LogReport(rs[n])]) == [rs[n]];
      assert rs == rs[..n] + [rs[n]];
    }
  }

  /**
   * Replaying a test reports exactly its history, every attempt in order,
   * and exactly the one synthesized skip when it has none.
   */
  lemma ReplayReportsHistory(nodeid: string, location: Location, h: History)
    ensures ReportsOf(ReportRunEvents(nodeid, location, h)) ==
              if nodeid in h then Flatten(h[nodeid]) else [SkipReport(nodeid)]
  {
    var start, finish := [LogStart(nodeid, location)], [LogFinish(nodeid, location)];
    assert ReportsOf(start) == [] && ReportsOf(finish) == [];
    if nodeid in h {
      var body := Logged(Flatten(h[nodeid]));
      ReportsOfAppend(start + body, finish);
      ReportsOfAppend(start, body);
      ReportsOfLogged(Flatten(h[nodeid]));
    } else {
      var skip := [LogReport(SkipReport(nodeid))];
      assert ReportsOf(skip) == [SkipReport(nodeid)];
      assert start + skip + finish == [LogStart(nodeid, location), LogReport(SkipReport(nodeid)), LogFinish(nodeid, location)];
      ReportsOfAppend(start + skip, finish);
      ReportsOfAppend(start, skip);
    }
  }
}
