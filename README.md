# pytest-rerunclassfailures, modelled in Dafny

pytest-rerunclassfailures is a pytest plugin. It reruns a whole test class when one of the class's tests fails, so that flaky tests that depend on each other all run again together. The repository holds two revisions of the plugin, and this project models both:

- the current one, `src/pytest_rerunclassfailures/pytest_rerunclassfailures.py`, as module `RerunClass` (file `rerun_class.dfy`);
- the older one, `src/pytest-rerunclassfailures/pytest_rerunclassfailures.py`, as module `LegacyRerunClass` (file `legacy.dfy`).

Both revisions implement the hook `pytest_runtest_protocol`. The first item of a class that gets there collects its siblings, which are the items of the same class. It snapshots the class attributes and runs the siblings as one pass. It stops the pass at the first genuine failure, then tears the class down, restores the snapshot and tries again, up to `--rerun-class-max + 1` attempts in all. After that it rewrites the outcome labels of earlier attempts to `rerun`, or keeps only the last attempt under `--rerun-show-only-last`, and passes the result to pytest's reporting hooks.

The two revisions differ in how they keep the results:
- The current revision keeps a history for each module and class name: nodeid, then attempt, then reports. Every later item of the class only replays its own history. A sibling that never ran is reported as a synthesized "skipped" report.
- The older revision keeps a flat list of class names. The siblings are the contiguous run of same-class items. One flat list of reports is kept per attempt. A failed set-up aborts everything. The combined reports are attached to the first item.

Shared modules:
- `Pytest` (`pytest.dfy`) holds what the plugin touches of pytest:
  - reports;
  - the reporting hooks and setup-state calls, recorded as an append-only event log;
  - the runner, as an oracle `Engine` from (nodeid, attempt) to reports;
  - items, class nodes with their attributes, attribute values and fixture definitions, as classes with mutable fields.
- `NodeIds` (`nodeid.dfy`) covers splitting node ids on `::`, which the source does with Python's `str.partition` and `str.split`.
- `Snapshot` (`snapshot.dfy`) covers the attribute filter and `deepcopy` that both revisions use.
- `Fixtures` (`fixtures.dfy`) covers dropping errored cached fixture results.
- `History` (`history.dfy`) covers the current revision's per-class history: recording, rewriting and replay.

Each loop is a method proved against a functional specification. The specification functions are:
- `RerunClass.RunPass`, lines 128-145 of the current revision;
- `RerunClass.RunLoop`, lines 126-152;
- `History.Record`, lines 133-139;
- `History.ProcessReports`, lines 306-313;
- `LegacyRerunClass.Siblings`, lines 93-102 of the older revision;
- `LegacyRerunClass.Scan`, lines 115-128;
- `LegacyRerunClass.RunPass`, lines 109-132;
- `LegacyRerunClass.RunLoop`, lines 104-145;
- `LegacyRerunClass.ProcessReports`, lines 222-231.

The lemmas in the table prove what those functions promise:
- fail-fast stopping point;
- attempt bounds;
- labels of the last attempt;
- report order and content kept by the rewriting;
- idempotence;
- the replay reporting exactly the history;
- the class node, fixture caches and parents that a class run leaves behind (`LeftByClass`, `TornDownFrom`).

## Model

| member | source | states |
|---|---|---|
| NodeIds.Partition | src/pytest_rerunclassfailures/pytest_rerunclassfailures.py:76-77 | `str.partition`: head + separator + tail rebuild the string. The head contains no occurrence of the separator. The separator is found at the head's end, or the result is (s, "", "") when it does not occur. |
| NodeIds.ModuleOf | src/pytest_rerunclassfailures/pytest_rerunclassfailures.py:107 | The module key is a prefix of the nodeid with no `::` in it. It is the longest such prefix: either the whole nodeid, or it ends where the first `::` starts. |
| NodeIds.PartitionAtFirst | src/pytest_rerunclassfailures/pytest_rerunclassfailures.py:76-77 | The first occurrence of the separator decides the split. |
| NodeIds.PartitionJoined | src/pytest_rerunclassfailures/pytest_rerunclassfailures.py:76-77 | `head::tail` with no `:` in head partitions to exactly (head, `::`, tail). |
| NodeIds.PartitionWithout | src/pytest_rerunclassfailures/pytest_rerunclassfailures.py:77 | A string without `:` is not split. |
| Snapshot.CapturableNames | src/pytest_rerunclassfailures/pytest_rerunclassfailures.py:217-223 | A name is captured iff it is an attribute whose value is not callable, has no `__`/`___` prefix and is not `pytestmark`. |
| Snapshot.CapturableExactly | src/pytest_rerunclassfailures/pytest_rerunclassfailures.py:217-223 | A name is kept exactly when its value is not callable, it does not start with `__` and it is not `pytestmark`. So the `___` test never excludes anything more. |
| Snapshot.DeepCopy | src/pytest_rerunclassfailures/pytest_rerunclassfailures.py:226 | `deepcopy` succeeds iff the value can be copied, and then yields a fresh object with equal state. |
| Snapshot.CopyOfTransitive | src/pytest_rerunclassfailures/pytest_rerunclassfailures.py:226-244 | A copy of the snapshot's copy is a copy of the original value. |
| Snapshot.SnapshotRestores | src/pytest_rerunclassfailures/pytest_rerunclassfailures.py:215-249 | Suppose the attributes kept their names and every uncaptured value, and hold a copy of each snapshot entry. Then they are restored from the attributes the snapshot was taken of. |
| Fixtures.RemoveCachedResultsFromFailedFixtures | src/pytest_rerunclassfailures/pytest_rerunclassfailures.py:322-332 | Every reachable fixture definition whose cached result carries an exception loses it. Every other cached result stays as it was. |
| Fixtures.Forget | src/pytest_rerunclassfailures/pytest_rerunclassfailures.py:328-332 | A cached result that carries an exception is removed, and any other is kept. Nothing errored remains. |
| Fixtures.ForgetAllIdempotent | src/pytest_rerunclassfailures/pytest_rerunclassfailures.py:322-332 | Removing errored results a second time changes nothing. |
| History.Padded | src/pytest_rerunclassfailures/pytest_rerunclassfailures.py:135-136 | The attempt list grows to at least n entries by appending empty attempts. Existing attempts are kept. |
| History.RecordShape | src/pytest_rerunclassfailures/pytest_rerunclassfailures.py:133-139 | Recording creates the test's entry if missing, pads it to attempt a, and appends the reports to attempt a. It leaves every other attempt and every other test unchanged. |
| History.Store | src/pytest_rerunclassfailures/pytest_rerunclassfailures.py:113-116 | The class history is stored under (module, class). Other modules and the other classes of that module are unchanged. The module keys gain only m, and that module's class keys gain only c. |
| History.ProcessReports | src/pytest_rerunclassfailures/pytest_rerunclassfailures.py:306-313 | It keeps the same tests, and no test gains attempts. Every test keeps its final attempt, and a test with at most one attempt is unchanged. With only-last, a test with several attempts keeps exactly its last one. Without it, every attempt count is kept and every earlier attempt has all its labels rewritten. |
| History.ProcessPreservesOrder | src/pytest_rerunclassfailures/pytest_rerunclassfailures.py:311-313 | Without only-last, the rewriting keeps every attempt and every report in order, and changes nothing but outcome labels. |
| History.ProcessLeavesNoEarlierFailure | src/pytest_rerunclassfailures/pytest_rerunclassfailures.py:306-313 | After the rewriting, every report outside the final attempt reads `rerun`. |
| History.ProcessIdempotent | src/pytest_rerunclassfailures/pytest_rerunclassfailures.py:306-313 | Rewriting twice equals rewriting once. |
| History.SkipLocation | src/pytest_rerunclassfailures/pytest_rerunclassfailures.py:76-78 | The synthesized report's location has the module part as file and line 0. |
| History.SkipReport | src/pytest_rerunclassfailures/pytest_rerunclassfailures.py:79-91 | The stand-in report is a skipped call report for the nodeid that does not count as a failure, carrying the abort message. |
| History.SkipLocationOfClassTest | src/pytest_rerunclassfailures/pytest_rerunclassfailures.py:76-78 | `path::Class::test` is reported at (path, 0, `Class.test`). |
| History.SkipLocationOfClassOnly | src/pytest_rerunclassfailures/pytest_rerunclassfailures.py:76-78 | `path::Class` is reported at (path, 0, `Class`). |
| History.ModuleOfJoined | src/pytest_rerunclassfailures/pytest_rerunclassfailures.py:107 | The module key of `path::rest` is `path`. |
| History.ReplayReportsHistory | src/pytest_rerunclassfailures/pytest_rerunclassfailures.py:69-94 | The logreport calls of a replay carry exactly the test's history, every attempt in order. A test without a history gets exactly one synthesized skip. |
| History.ShowOnlyLast | src/pytest_rerunclassfailures/pytest_rerunclassfailures.py:306-309 | Under only-last, the replay of a test with history logs exactly the reports of its final attempt. |
| History.OnlyLastAttempt | src/pytest_rerunclassfailures/pytest_rerunclassfailures.py:307-309 | Under only-last, a non-empty attempt list becomes exactly its last attempt. |
| RerunClass.RerunMax | src/pytest_rerunclassfailures/pytest_rerunclassfailures.py:54-55 | The attempt budget is 0 (disabled) iff the option is not positive, and otherwise the option plus one. It is never 1. |
| RerunClass.SameClass | src/pytest_rerunclassfailures/pytest_rerunclassfailures.py:199-201 | It keeps exactly the items of the given class, drawn from the list. |
| RerunClass.SameClassAppend | src/pytest_rerunclassfailures/pytest_rerunclassfailures.py:199-201 | Filtering a concatenation filters each part, in order. Items keep their plan order and multiplicity. |
| RerunClass.SameClassSingle | src/pytest_rerunclassfailures/pytest_rerunclassfailures.py:200-201 | A single item is kept exactly when it has the class. |
| RerunClass.CollectSiblings | src/pytest_rerunclassfailures/pytest_rerunclassfailures.py:196-204 | The item comes first, then the `None` sentinel last. Between them are exactly the later plan items of its class, in plan order (`SameClass` of the rest of the plan). |
| RerunClass.SiblingsInPlan | src/pytest_rerunclassfailures/pytest_rerunclassfailures.py:196-204 | Every sibling is an item of the plan. |
| RerunClass.NextItem | src/pytest_rerunclassfailures/pytest_rerunclassfailures.py:130 | `nextitem` is the successor sibling, and it wraps to the first sibling for the last one. |
| RerunClass.FirstFailure | src/pytest_rerunclassfailures/pytest_rerunclassfailures.py:138-145 | The index of the first sibling with a genuine failure, or the sentinel's index. No earlier sibling fails. |
| RerunClass.PassStopsAtFirstFailure | src/pytest_rerunclassfailures/pytest_rerunclassfailures.py:127-145 | A pass passes iff no sibling has a genuine (non-xfail) failure. |
| RerunClass.PassRunsUpToFirstFailure | src/pytest_rerunclassfailures/pytest_rerunclassfailures.py:128-145 | A pass runs exactly the siblings up to and including the first failing one, in order, with their `nextitem`. |
| RerunClass.PassRecords | src/pytest_rerunclassfailures/pytest_rerunclassfailures.py:133-139 | A pass never drops a test's entry and always records the first sibling. |
| RerunClass.PassAttemptsBounded | src/pytest_rerunclassfailures/pytest_rerunclassfailures.py:133-136 | After pass a, no test has more than a + 1 attempt lists. |
| RerunClass.LoopBounds | src/pytest_rerunclassfailures/pytest_rerunclassfailures.py:126-147 | The loop ends passed with rerun_count less than rerun_max, or failed with rerun_count equal to rerun_max. |
| RerunClass.LoopOutcome | src/pytest_rerunclassfailures/pytest_rerunclassfailures.py:126-147 | Every attempt counted had a failing sibling. A passed loop's final attempt had none. |
| RerunClass.LoopAttemptsBounded | src/pytest_rerunclassfailures/pytest_rerunclassfailures.py:126-147 | No test ever has more than rerun_max attempt lists. |
| RerunClass.LoopRecordsFirst | src/pytest_rerunclassfailures/pytest_rerunclassfailures.py:128-139 | The first item always has a history, so it is never reported as a synthesized skip. |
| RerunClass.CleanClassRunsOnce | src/pytest_rerunclassfailures/pytest_rerunclassfailures.py:126-145 | A class with no genuine failure on attempt 0 runs once, every sibling in order, and passes. Expected failures do not trigger a rerun. |
| RerunClass.StoreKeepsOtherModules | src/pytest_rerunclassfailures/pytest_rerunclassfailures.py:107-116 | A same-named class in another module keeps its own entry, or its absence. |
| RerunClass.RecreatedTwice | src/pytest_rerunclassfailures/pytest_rerunclassfailures.py:147-184 | Two teardowns in a row leave what one teardown leaves of the original state. |
| RerunClass.RecreatedLeft | src/pytest_rerunclassfailures/pytest_rerunclassfailures.py:147-184 | When the snapshot names are attributes of the class, the teardowns leave the state `LeftByClass` describes: the same attribute names, errored results forgotten, and the class not marked failed with every sibling pointing at it. |
| RerunClass.ClassRunBounded | src/pytest_rerunclassfailures/pytest_rerunclassfailures.py:113-152 | Storing a class's loop history keeps every test of every class within the attempt bound. |
| RerunClass.RerunClassPlugin.constructor | src/pytest_rerunclassfailures/pytest_rerunclassfailures.py:53-57 | Options are stored, the attempt budget is `RerunMax`, the history and log are empty, and the invariant holds. |
| RerunClass.RerunClassPlugin.LogReports | src/pytest_rerunclassfailures/pytest_rerunclassfailures.py:72-73 | One logreport call per report, in order. |
| RerunClass.RerunClassPlugin.LogAttempts | src/pytest_rerunclassfailures/pytest_rerunclassfailures.py:71-73 | One logreport call per report of every attempt, in order. |
| RerunClass.RerunClassPlugin.ReportRun | src/pytest_rerunclassfailures/pytest_rerunclassfailures.py:69-94 | Appends the replay events: logstart, the history or the synthesized skip, logfinish. |
| RerunClass.RerunClassPlugin.CollectSiblingItems | src/pytest_rerunclassfailures/pytest_rerunclassfailures.py:196-204 | The loop computes `CollectSiblings`. |
| RerunClass.RerunClassPlugin.SaveParentInitialState | src/pytest_rerunclassfailures/pytest_rerunclassfailures.py:215-231 | The snapshot holds exactly the capturable names. It holds a fresh equal copy where deepcopy succeeds, and the value itself where it raises. |
| RerunClass.RerunClassPlugin.SetParentInitialState | src/pytest_rerunclassfailures/pytest_rerunclassfailures.py:242-249 | Every snapshot entry is written back, as a fresh copy or as the stored value. Other attributes stay, and the same node is returned. |
| RerunClass.RerunClassPlugin.RemoveNonInitialAttributes | src/pytest_rerunclassfailures/pytest_rerunclassfailures.py:260-269 | Only attributes are removed, never changed. Afterwards every capturable attribute is in the snapshot, and non-capturable ones are kept. |
| RerunClass.RerunClassPlugin.RecreateTestClass | src/pytest_rerunclassfailures/pytest_rerunclassfailures.py:285-295 | `_previousfailed` is dropped, the snapshot is restored, and every sibling's parent is the class node. The same node and list are returned. |
| RerunClass.RerunClassPlugin.ClearFailedSetup | src/pytest_rerunclassfailures/pytest_rerunclassfailures.py:176-180 | Errored fixture results are forgotten, the setup stack is cleared and torn down. The class node, the item and the siblings are untouched. |
| RerunClass.RerunClassPlugin.TeardownRerun | src/pytest_rerunclassfailures/pytest_rerunclassfailures.py:176-184 | Errored fixture results are dropped, then the setup stack is cleared and torn down. The class is recreated: it is not marked failed, its attribute names gain the snapshot names and every other attribute is unchanged. The item and every sibling point at it. The whole state is `RecreatedFrom` the old one. |
| RerunClass.RerunClassPlugin.PadAttempts | src/pytest_rerunclassfailures/pytest_rerunclassfailures.py:133-136 | The test's attempt list is padded to rerun_count + 1 entries, and nothing else changes. |
| RerunClass.RerunClassPlugin.RecordReports | src/pytest_rerunclassfailures/pytest_rerunclassfailures.py:133-141 | The reports are recorded as attempt rerun_count. The result is failed iff some report is a genuine failure. |
| RerunClass.RerunClassPlugin.RunSiblingsPass | src/pytest_rerunclassfailures/pytest_rerunclassfailures.py:127-145 | The pass loop computes `RunPass`: history, log and verdict. |
| RerunClass.RerunClassPlugin.ProcessClassReports | src/pytest_rerunclassfailures/pytest_rerunclassfailures.py:306-313 | The loop rewrites the stored history to `ProcessReports` of it. |
| RerunClass.RerunClassPlugin.RunRound | src/pytest_rerunclassfailures/pytest_rerunclassfailures.py:126-152 | One pass, and a teardown when the pass failed and attempts remain. It steps `RunLoop` by one round and keeps the state as the rounds so far leave it. |
| RerunClass.RerunClassPlugin.RunAttempts | src/pytest_rerunclassfailures/pytest_rerunclassfailures.py:123-152 | The attempt loop computes `RunLoop`: history, log, rerun_count and verdict. Without a teardown, the class node, fixture caches and parents are exactly as before. After one or more teardowns, the state is `RecreatedFrom` the state before and the class holds copies of the snapshot. |
| RerunClass.RerunClassPlugin.FinishClass | src/pytest_rerunclassfailures/pytest_rerunclassfailures.py:154-157 | The stored history becomes `ProcessReports` of it. The item's part is replayed and everything is torn down. The class node, fixtures and items are untouched. |
| RerunClass.RerunClassPlugin.CreateEntry | src/pytest_rerunclassfailures/pytest_rerunclassfailures.py:113-116 | A class without an entry gets an empty history under its module. The log and every object are untouched. |
| RerunClass.RerunClassPlugin.AttemptClass | src/pytest_rerunclassfailures/pytest_rerunclassfailures.py:121-152 | The siblings are `CollectSiblings`, and the history and log are `RunLoop` from an empty history. The class state is what `LeftByClass` says, and after a teardown every attribute is `RestoredFrom` the old ones. Items outside the siblings keep their parent. |
| RerunClass.RerunClassPlugin.RunClass | src/pytest_rerunclassfailures/pytest_rerunclassfailures.py:113-157 | For a class without an entry: the stored history is `ProcessReports` of the loop's history. The log is the loop followed by the replay of the item's own part and a teardown. The class state is what `LeftByClass` says, and after a teardown every attribute is `RestoredFrom` the old ones. Plan items outside the siblings keep their parent. |
| RerunClass.RerunClassPlugin.PytestRuntestProtocol | src/pytest_rerunclassfailures/pytest_rerunclassfailures.py:106-157 | Three cases. An ineligible item goes to pytest's own protocol and returns False. An item of a class already seen only replays and returns True. In both cases fixtures, items and the class node are untouched. Otherwise the whole class runs under the item's module key and returns True, with the history, the log and the class state as `RunClass` states. |
| LegacyRerunClass.RunEnd | src/pytest-rerunclassfailures/pytest_rerunclassfailures.py:97-100 | The end of the contiguous run of items of one class. |
| LegacyRerunClass.RunEndIs | src/pytest-rerunclassfailures/pytest_rerunclassfailures.py:97-100 | Any index that closes a same-class run is that end. |
| LegacyRerunClass.Siblings | src/pytest-rerunclassfailures/pytest_rerunclassfailures.py:93-102 | The contiguous same-class run from the item, then the next item of another class. Or `None` exactly when the plan ends inside the run. |
| LegacyRerunClass.NextItemInPlan | src/pytest-rerunclassfailures/pytest_rerunclassfailures.py:93-112 | In plan terms: sibling i's `nextitem` is the plan item right after it. The last sibling gets the item that closes its run, or the first sibling when the plan ends inside the run. |
| LegacyRerunClass.StopIndex | src/pytest-rerunclassfailures/pytest_rerunclassfailures.py:115-128 | The first report that is a call failure or a set-up failure. |
| LegacyRerunClass.ScanShape | src/pytest-rerunclassfailures/pytest_rerunclassfailures.py:115-128 | The reports before the stop are recorded unchanged. A call failure is recorded with label `rerun`, or `failed` on the last attempt, and fails the pass. A set-up failure aborts unrecorded. With neither, all reports are recorded. |
| LegacyRerunClass.FirstStop | src/pytest-rerunclassfailures/pytest_rerunclassfailures.py:109-132 | The first sibling whose reports stop the pass, or the index of the last entry. |
| LegacyRerunClass.PassStopsAtFirstStop | src/pytest-rerunclassfailures/pytest_rerunclassfailures.py:109-132 | The pass runs exactly the siblings up to the first stopping one. It passes iff there is none, and it aborts iff that stop is a set-up failure. |
| LegacyRerunClass.PassFailureLabel | src/pytest-rerunclassfailures/pytest_rerunclassfailures.py:109-132 | A pass runs at least one sibling. A failed, non-aborted pass ends on the relabelled call report. A passed pass did not abort. |
| LegacyRerunClass.OneListPerPass | src/pytest-rerunclassfailures/pytest_rerunclassfailures.py:104-132 | One report list per pass and never more than rerun_max. Earlier lists are kept. The loop never both passes and aborts. An exhausted loop used all rerun_max attempts. |
| LegacyRerunClass.ExhaustedEndsFailed | src/pytest-rerunclassfailures/pytest_rerunclassfailures.py:116-121 | When attempts run out, the last report of the last attempt reads `failed`. |
| LegacyRerunClass.LoopReached | src/pytest-rerunclassfailures/pytest_rerunclassfailures.py:104-132 | The first sibling is always run, and no more siblings than exist. |
| LegacyRerunClass.EarlierIsRelabelledFlatten | src/pytest-rerunclassfailures/pytest_rerunclassfailures.py:225-229 | The earlier attempts come out as one call-relabelled stream, in order. |
| LegacyRerunClass.ProcessReportsShape | src/pytest-rerunclassfailures/pytest_rerunclassfailures.py:222-231 | With only-last or a single attempt the result is the last attempt. Otherwise it is all earlier reports, call reports relabelled, followed by the last attempt. |
| LegacyRerunClass.ProcessKeepsReports | src/pytest-rerunclassfailures/pytest_rerunclassfailures.py:222-231 | Without only-last, every report of every attempt is kept in order, with only labels changed. |
| LegacyRerunClass.ReplayReportsAttached | src/pytest-rerunclassfailures/pytest_rerunclassfailures.py:62-66 | The replay logs exactly the item's attached reports, and nothing when it has none. |
| LegacyRerunClass.TornDownTwice | src/pytest-rerunclassfailures/pytest_rerunclassfailures.py:134-145 | Two teardowns in a row leave what one teardown leaves of the original state. |
| LegacyRerunClass.LegacyRerunClassPlugin.constructor | src/pytest-rerunclassfailures/pytest_rerunclassfailures.py:49-53 | Options are stored, with the same attempt budget as the current revision, and the class list and log are empty. |
| LegacyRerunClass.LegacyRerunClassPlugin.LogReports | src/pytest-rerunclassfailures/pytest_rerunclassfailures.py:64-65 | One logreport call per report, in order. |
| LegacyRerunClass.LegacyRerunClassPlugin.ReportRun | src/pytest-rerunclassfailures/pytest_rerunclassfailures.py:62-66 | Appends `ReportEvents` of the item's attached reports. |
| LegacyRerunClass.LegacyRerunClassPlugin.CollectSiblingItems | src/pytest-rerunclassfailures/pytest_rerunclassfailures.py:93-102 | The loop computes `Siblings`. |
| LegacyRerunClass.LegacyRerunClassPlugin.ScanReports | src/pytest-rerunclassfailures/pytest_rerunclassfailures.py:115-128 | The report loop computes `Scan`. |
| LegacyRerunClass.LegacyRerunClassPlugin.RunSibling | src/pytest-rerunclassfailures/pytest_rerunclassfailures.py:112-128 | The sibling runs with its `NextItem`. It holds the runner's report values (the in-place relabel of the aliased objects is not modelled) and keeps its parent. The reports are scanned as `Scan` says. |
| LegacyRerunClass.LegacyRerunClassPlugin.RunSiblingsPass | src/pytest-rerunclassfailures/pytest_rerunclassfailures.py:109-132 | The pass loop computes `RunPass`. Each sibling that ran holds the runner's report values for this attempt (the in-place relabel of the aliased objects is not modelled). Every entry that did not run keeps the reports it had. No parent changes. |
| LegacyRerunClass.LegacyRerunClassPlugin.SetParentInitialState | src/pytest-rerunclassfailures/pytest_rerunclassfailures.py:183-185 | Succeeds iff every entry can be copied. It then writes a fresh copy of each, and other attributes stay. |
| LegacyRerunClass.LegacyRerunClassPlugin.SaveParentInitialState | src/pytest-rerunclassfailures/pytest_rerunclassfailures.py:161-172 | Raises (None) iff some capturable attribute cannot be copied. Otherwise it holds fresh equal copies of exactly the capturable names. |
| LegacyRerunClass.LegacyRerunClassPlugin.RecreateTestClass | src/pytest-rerunclassfailures/pytest_rerunclassfailures.py:201-211 | `_previousfailed` is dropped. Success holds iff every snapshot value can be copied, and then the snapshot names are added and hold copies while other attributes are unchanged. Every sibling but the closing entry then points at the class. The closing entry, and on failure every entry, keeps its parent. The same node and list are returned. |
| LegacyRerunClass.LegacyRerunClassPlugin.ClearFailedSetup | src/pytest-rerunclassfailures/pytest_rerunclassfailures.py:136-139 | Errored fixture results are forgotten, the stack is cleared and torn down. The class node, the item and the siblings are untouched. |
| LegacyRerunClass.LegacyRerunClassPlugin.TeardownRerun | src/pytest-rerunclassfailures/pytest_rerunclassfailures.py:134-145 | Errored fixture results are dropped, and the stack is cleared, torn down and set up again for the class. The class is recreated: it is not marked failed, it holds copies of the snapshot, and its other attributes are unchanged. The item and the run's siblings point at it, while the closing entry keeps its parent and no reports change. The whole state is `TornDownFrom` the old one. |
| LegacyRerunClass.LegacyRerunClassPlugin.RunAttempts | src/pytest-rerunclassfailures/pytest_rerunclassfailures.py:104-145 | The attempt loop computes `RunLoop`, and every sibling reached carries reports. After a single pass, the class node, fixture caches and parents are as before. After several passes, the state is `TornDownFrom` the state before and the class holds copies of the snapshot. |
| LegacyRerunClass.LegacyRerunClassPlugin.ProcessClassReports | src/pytest-rerunclassfailures/pytest_rerunclassfailures.py:222-231 | The loop computes `ProcessReports`. |
| LegacyRerunClass.LegacyRerunClassPlugin.RunRound | src/pytest-rerunclassfailures/pytest_rerunclassfailures.py:108-145 | One pass, plus the teardown's events when it failed without aborting and attempts remain. It keeps reports that were attached, and keeps the state as the rounds so far leave it. |
| LegacyRerunClass.LegacyRerunClassPlugin.AttemptClass | src/pytest-rerunclassfailures/pytest_rerunclassfailures.py:93-145 | It raises iff some capturable value cannot be copied, and then nothing changes. Otherwise the siblings are `Siblings` and the reports and log are `RunLoop`. The class state is unchanged after one pass. After several it is `TornDownFrom` the old state, with every attribute `RestoredFrom` the old ones. |
| LegacyRerunClass.LegacyRerunClassPlugin.AttachReports | src/pytest-rerunclassfailures/pytest_rerunclassfailures.py:147 | The item holds the rewritten reports. The class state is untouched. |
| LegacyRerunClass.LegacyRerunClassPlugin.FinishClass | src/pytest-rerunclassfailures/pytest_rerunclassfailures.py:147-149 | The item holds `ProcessReports` of the attempts, which are replayed followed by a teardown. The class state is untouched. |
| LegacyRerunClass.LegacyRerunClassPlugin.RememberClass | src/pytest-rerunclassfailures/pytest_rerunclassfailures.py:88-89 | The class name is appended to the list. The log and every object are untouched. |
| LegacyRerunClass.LegacyRerunClassPlugin.RunClass | src/pytest-rerunclassfailures/pytest_rerunclassfailures.py:89-150 | The class name is appended. A snapshot that cannot be copied raises and changes nothing else. An aborted loop returns False with its log. Otherwise the rewritten reports are attached to the item and replayed, the class is torn down and True is returned. After several passes the state is `TornDownFrom` the old one, with every attribute `RestoredFrom` the old ones. Items outside the siblings are untouched. |
| LegacyRerunClass.LegacyRerunClassPlugin.PytestRuntestProtocol | src/pytest-rerunclassfailures/pytest_rerunclassfailures.py:78-150 | Five cases. An ineligible item gives False and changes nothing. Attached reports are cleared and give True. A missing class node raises. An already-seen class name gives False. Otherwise the name is appended and the class runs. The list only grows. In the first four cases fixtures, the class node, parents and other items' reports are untouched. Otherwise the state is as `RunClass` states. |

## Left out

- Command-line options (`pytest_addoption`) and plugin registration (`pytest_configure`): the constructors take the three option values as parameters.
- The delay between attempts (`sleep`): it has no effect on the modelled state.
- Logging (`self.logger`) and the older revision's `print` calls: they are output only.
- Python's `dir()`, `getattr` and `callable()` are abstracted as an attribute map whose values carry a `callable` flag. `deepcopy` is abstracted as a `cloneable` flag plus fresh-object creation. Nested object graphs are not modelled.
- Report timings, keywords and user properties: no operation reads them.
- How pluggy treats the returned value (firstresult) is not modelled. The model records the hook's return value and leaves it at that. In the older revision, `False` is a non-None result, so pluggy does not run pytest's default protocol for that item. The model does not follow this further.
- The current revision's write to `siblings[i].reports` (line 131): nothing reads it again, so the model keeps the reports only in the history.
- The runner is an oracle from (nodeid, attempt) to reports. It does not change class attributes or fixture caches itself, so the model does not show a test mutating class state between attempts.
- Report objects: both revisions relabel `report.outcome` in place on objects they share by aliasing. The current revision does this at lines 311-313. The older one does it at lines 117-120, on the very objects it has just attached to `siblings[i].reports` (line 113), and again at line 228. The model relabels report values, so aliasing between the history or the combined reports and other holders of a report is not captured.
- LegacyRerunClass.LegacyRerunClassPlugin.RunSibling and LegacyRerunClass.LegacyRerunClassPlugin.RunSiblingsPass: a sibling that ran holds the runner's report values. In the source, the report that stopped the pass on a call failure reads `rerun` or `failed` there, because the relabel at lines 117-120 changes the shared object. Nothing reads those attached reports other than the `is not None` test at line 81, so the outcome is the same.
- `RerunClass.RerunClassPlugin.RemoveNonInitialAttributes` is modelled, but nothing calls it, as in the source where line 289 comments out the call.
- `items.index(item)` is modelled by the item's position `pos` in the plan: pytest items are distinct objects, so the index is that position.
- Distributed execution (pytest-xdist) is not modelled: each worker runs its own plugin instance, which is what this model describes.
- Relabelling: the design description says only failed reports of earlier attempts become `rerun`. The current code relabels every report of an earlier attempt (lines 311-313), and the model follows the code.
- The design example of a rerun class reports siblings that were not reached on attempt 0 as skipped for that attempt. The code pads their history with an empty attempt 0 (lines 135-136), so nothing is reported for them there. The synthesized skip appears only for a test with no history at all (line 75), and the model follows the code.
- LegacyRerunClass.LegacyRerunClassPlugin.SetParentInitialState: where a `deepcopy` raises part-way, the model does not say which attributes were already written before the exception.
- The older revision's set-up abort path (lines 123-125) leaves the class name recorded and reports attached to the siblings that ran. The model states exactly this state (`RunClass`, `PytestRuntestProtocol`) but does not follow what pytest then shows for those siblings.
- An attribute value's state (`PyObject.data`) is fixed once the object exists: no operation of the plugin changes an object's contents, and the runner is an oracle. So a test that mutates a shared value in place, which is the aliasing the current revision's fallback to storing the value itself (line 229) would expose, is not represented. The model keeps that alias as object identity.
- LegacyRerunClass.LegacyRerunClassPlugin.RunAttempts: for siblings reached, it states only that reports are attached, not which attempt they come from. The reports that count, those of the class, are stated exactly by `RunLoop`.
