/**
 * The pieces of pytest that the rerun plugin touches, reduced to what the
 * plugin reads and writes: test reports, the reporting hooks (as an
 * append-only event log), the runner (as an oracle), collected test items,
 * class nodes with the attributes of their Python class, attribute values and
 * fixture definitions with their cached results.
 */
module Pytest {

  datatype Option<T> = None | Some(value: T)

  /** `report.when`: the phase of the runtest protocol a report belongs to. */
  datatype Stage = Setup | Call | Teardown

  /** `report.outcome`; `Rerun` is the label the plugin writes over earlier attempts. */
  datatype Outcome = Passed | Failed | Skipped | Rerun

  /** `report.location`: (file, line, test domain). */
  datatype Location = Location(file: string, line: int, domain: string)

  /** `report.longrepr`: whatever the runner produced, or the (path, line, message) triple of a skip. */
  datatype LongRepr = NoRepr | Text(text: string) | SkipInfo(path: string, line: int, message: string)

  /** A `TestReport`, without its timings and keywords. */
  datatype Report = Report(
    nodeid: string,
    location: Location,
    when: Stage,
    outcome: Outcome,
    wasxfail: bool,          // the report carries a `wasxfail` attribute
    longrepr: LongRepr,
    sections: seq<(string, string)>)
  {
    /** `report.failed` */
    predicate IsFailed() { outcome == Failed }

    /** A failure that counts against the class: failed and not an expected failure. */
    predicate CountsAsFailure() { IsFailed() && !wasxfail }
  }

  /**
   * What the plugin asks of pytest, in order. The reporting hooks
   * (`pytest_runtest_logstart`, `_logreport`, `_logfinish`) and the
   * set-up/tear-down requests to the session's setup state are opaque calls;
   * the model records each one as an event.
   */
  datatype Event =
    | DefaultProtocol(nodeid: string, next: Option<string>)  // pytest's own runtest protocol, which reports by itself
    | RunTest(nodeid: string, nextid: string)                // `runtestprotocol(item, nextitem=next, log=False)`
    | ClearSetupStack                                        // `session._setupstate.stack = {}`
    | TeardownAll                                            // `session._setupstate.teardown_exact(None)`
    | SetupClass(name: string)                               // `session._setupstate.setup(cls)`
    | LogStart(nodeid: string, location: Location)
    | LogReport(report: Report)
    | LogFinish(nodeid: string, location: Location)

  /**
   * The test runner as an oracle: the reports `runtestprotocol` produces for
   * the item with this nodeid on this attempt (0 is the first run).
   */
  type Engine = (string, nat) -> seq<Report>

  /**
   * A value held by a class attribute. `data` stands for its state; no
   * operation of the plugin changes it, so a copy and an alias differ only
   * in identity.
   */
  class PyObject {
    const data: seq<int>
    const callable: bool      // `callable(value)`
    const cloneable: bool     // `deepcopy(value)` succeeds

    constructor (data: seq<int>, callable: bool, cloneable: bool)
      ensures this.data == data && this.callable == callable && this.cloneable == cloneable
    {
      this.data := data;
      this.callable := callable;
      this.cloneable := cloneable;
    }
  }

  /** `cached_result` of a fixture definition: (result, cache key, exception info or None). */
  datatype CachedResult = CachedResult(result: int, cacheKey: int, error: Option<string>)

  class FixtureDef {
    var cachedResult: Option<CachedResult>

    constructor (cachedResult: Option<CachedResult>)
      ensures this.cachedResult == cachedResult
    {
      this.cachedResult := cachedResult;
    }
  }

  /**
   * A `pytest.Class` node. `attrs` are the attributes of its Python class
   * object (`parent.obj`) as `dir()` lists them; `previousFailed` says whether
   * the node carries a `_previousfailed` attribute.
   */
  class TestClass {
    const name: string
    var previousFailed: bool
    var attrs: map<string, PyObject>

    constructor (name: string, attrs: map<string, PyObject>)
      ensures this.name == name && this.attrs == attrs && !previousFailed
    {
      this.name := name;
      this.attrs := attrs;
      previousFailed := false;
    }
  }

  /**
   * A collected test item. `cls` is the identity of its Python class (None
   * for a module-level test function); `parent` is the class node that
   * `item.getparent(pytest.Class)` finds (null when there is none);
   * `fixtureDefs` is `_fixtureinfo.name2fixturedefs` (empty when the item has
   * no fixture info); `reports` is the `reports` attribute the plugin attaches.
   */
  class Item {
    const nodeid: string
    const location: Location
    const cls: Option<nat>
    const fixtureDefs: map<string, seq<FixtureDef>>
    var parent: TestClass?
    var reports: Option<seq<Report>>

    constructor (nodeid: string, location: Location, cls: Option<nat>,
                 fixtureDefs: map<string, seq<FixtureDef>>, parent: TestClass?)
      ensures this.nodeid == nodeid && this.location == location && this.cls == cls
      ensures this.fixtureDefs == fixtureDefs && this.parent == parent && reports == None
    {
      this.nodeid := nodeid;
      this.location := location;
      this.cls := cls;
      this.fixtureDefs := fixtureDefs;
      this.parent := parent;
      reports := None;
    }
  }

  /** The nodeid of an optional item, as the hooks see it. */
  function NodeIdOf(item: Item?): Option<string>
  {
    if item == null then None else Some(item.nodeid)
  }

  /** The attempts of one test flattened into one stream of reports, in order. */
  function Flatten(xs: seq<seq<Report>>): seq<Report>
  {
    if xs == [] then [] else Flatten(xs[..|xs| - 1]) + xs[|xs| - 1]
  }

  /** One `pytest_runtest_logreport` call per report, in order. */
  function Logged(rs: seq<Report>): seq<Event>
  {
    if rs == [] then [] else Logged(rs[..|rs| - 1]) + [LogReport(rs[|rs| - 1])]
  }

  lemma FlattenSnoc(xs: seq<seq<Report>>, x: seq<Report>)
    ensures Flatten(xs + [x]) == Flatten(xs) + x
  {
    assert (xs + [x])[..|xs|] == xs;
  }

  lemma LoggedAppend(rs: seq<Report>, more: seq<Report>)
    ensures Logged(rs + more) == Logged(rs) + Logged(more)
    decreases |more|
  {
    if more == [] {
      assert rs + more == rs;
    } else {
      var n := |more| - 1;
      assert rs + more == (rs + more[..n]) + [more[n]];
      LoggedAppend(rs, more[..n]);
      LoggedSnoc(rs + more[..n], more[n]);
      LoggedSnoc(more[..n], more[n]);
      assert more == more[..n] + [more[n]];
    }
  }

  lemma LoggedSnoc(rs: seq<Report>, r: Report)
    ensures Logged(rs + [r]) == Logged(rs) + [LogReport(r)]
  {
    assert (rs + [r])[..|rs|] == rs;
  }
}
