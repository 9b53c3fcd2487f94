/**
 * `_remove_cached_results_from_failed_fixtures`, which both revisions use
 * before a class is rerun: every fixture definition reachable from the item
 * whose cached result ended in an error forgets that result, so the rerun
 * executes the fixture again; successful cached results stay.
 */
module Fixtures {
  import opened Pytest

  /** The fixture definitions reachable from `item._fixtureinfo.name2fixturedefs`. */
  ghost function FixtureDefsOf(item: Item): set<FixtureDef>
  {
    set name, d | name in item.fixtureDefs && d in item.fixtureDefs[name] :: d
  }

  /** A cached result whose exception component is set. */
  predicate Errored(c: Option<CachedResult>)
  {
    c.Some? && c.value.error.Some?
  }

  /** The cached result of every definition in `defs`. */
  ghost function Caches(defs: set<FixtureDef>): (c: map<FixtureDef, Option<CachedResult>>)
    reads defs
    ensures c.Keys == defs && forall d :: d in defs ==> c[d] == d.cachedResult
  {
    map d | d in defs :: d.cachedResult
  }

  /** What the removal leaves of one cached result: an errored one is forgotten, any other kept. */
  function Forget(c: Option<CachedResult>): (r: Option<CachedResult>)
    ensures !Errored(r)
    ensures Errored(c) ==> r == None
    ensures !Errored(c) ==> r == c
  {
    if Errored(c) then None else c
  }

  /** `Forget` applied to every cached result. */
  function ForgetAll(caches: map<FixtureDef, Option<CachedResult>>): map<FixtureDef, Option<CachedResult>>
  {
    map d | d in caches :: Forget(caches[d])
  }

  /** Removing the errored results a second time changes nothing. */
  lemma ForgetAllIdempotent(caches: map<FixtureDef, Option<CachedResult>>)
    ensures ForgetAll(ForgetAll(caches)) == ForgetAll(caches)
  {
  }

  method RemoveCachedResultsFromFailedFixtures(item: Item)
    modifies FixtureDefsOf(item)
    ensures forall d :: d in FixtureDefsOf(item) && Errored(old(d.cachedResult)) ==> d.cachedResult == None
    ensures forall d :: d in FixtureDefsOf(item) && !Errored(old(d.cachedResult)) ==> d.cachedResult == old(d.cachedResult)
    ensures Caches(FixtureDefsOf(item)) == ForgetAll(old(Caches(FixtureDefsOf(item))))
  {
    var names := item.fixtureDefs.Keys;
    ghost var done: set<string> := {};
    while names != {}
      invariant names + done == item.fixtureDefs.Keys && names !! done
      invariant forall d :: d in FixtureDefsOf(item) && !Errored(old(d.cachedResult)) ==> d.cachedResult == old(d.cachedResult)
      invariant forall d :: d in FixtureDefsOf(item) && Errored(old(d.cachedResult)) ==> d.cachedResult == None || d.cachedResult == old(d.cachedResult)
      invariant forall name, d :: name in done && d in item.fixtureDefs[name] && Errored(old(d.cachedResult)) ==> d.cachedResult == None
      decreases names
    {
      var name :| name in names;
      var defs := item.fixtureDefs[name];
      for j := 0 to |defs|
        invariant forall d :: d in FixtureDefsOf(item) && !Errored(old(d.cachedResult)) ==> d.cachedResult == old(d.cachedResult)
        invariant forall d :: d in FixtureDefsOf(item) && Errored(old(d.cachedResult)) ==> d.cachedResult == None || d.cachedResult == old(d.cachedResult)
        invariant forall name, d :: name in done && d in item.fixtureDefs[name] && Errored(old(d.cachedResult)) ==> d.cachedResult == None
        invariant forall k :: 0 <= k < j && Errored(old(defs[k].cachedResult)) ==> defs[k].cachedResult == None
      {
        var d := defs[j];
        assert d in item.fixtureDefs[name];
        assert d in FixtureDefsOf(item);
        if d.cachedResult.Some? {
          var err := d.cachedResult.value.error;
          if err.Some? {
            d.cachedResult := None;
          }
        }
      }
      names := names - {name};
      done := done + {name};
    }
  }
}
