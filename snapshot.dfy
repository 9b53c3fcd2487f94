/**
 * What both revisions of the plugin share when they snapshot a test class:
 * which attributes are captured, and what `copy.deepcopy` does to a value.
 */
module Snapshot {
  import opened Pytest

  predicate StartsWith(s: string, prefix: string)
  {
    |prefix| <= |s| && s[..|prefix|] == prefix
  }

  /**
   * The attribute filter of `_save_parent_initial_state`: the value is not
   * callable, the name has no `__` (nor `___`) prefix and is not `pytestmark`.
   */
  predicate Capturable(name: string, value: PyObject)
  {
    && !value.callable
    && !StartsWith(name, "__")
    && !StartsWith(name, "___")
    && name != "pytestmark"
  }

  /** The names of the attributes a snapshot of `attrs` captures. */
  function CapturableNames(attrs: map<string, PyObject>): (names: set<string>)
    ensures names <= attrs.Keys
    ensures forall k :: k in names <==> k in attrs && Capturable(k, attrs[k])
  {
    set k | k in attrs && Capturable(k, attrs[k])
  }

  /**
   * The names the filter excludes: exactly callable values, names starting
   * with `__` and `pytestmark`; its `___` test never excludes anything more.
   */
  lemma CapturableExactly(name: string, value: PyObject)
    ensures Capturable(name, value) <==> !value.callable && !StartsWith(name, "__") && name != "pytestmark"
  {
    if StartsWith(name, "___") {
      assert name[..2] == name[..3][..2];
    }
  }

  /**
   * What restoring a snapshot of `before` leaves: the same attributes, each
   * captured one a copy of the value it had (or that very value where it
   * cannot be copied), every other one unchanged.
   */
  predicate RestoredFrom(before: map<string, PyObject>, after: map<string, PyObject>)
  {
    && after.Keys == before.Keys
    && forall k :: k in before ==>
         if Capturable(k, before[k]) then CopyOf(before[k], after[k]) else after[k] == before[k]
  }

  /** `snapshot` holds a copy of every capturable attribute of `attrs`, and nothing else. */
  predicate SnapshotOf(attrs: map<string, PyObject>, snapshot: map<string, PyObject>)
  {
    && snapshot.Keys == CapturableNames(attrs)
    && forall k :: k in snapshot ==> CopyOf(attrs[k], snapshot[k])
  }

  /**
   * Attributes that kept every name and every uncaptured value of `attrs`,
   * and hold a copy of each snapshot entry, are restored from `attrs`.
   */
  lemma SnapshotRestores(attrs: map<string, PyObject>, snapshot: map<string, PyObject>, after: map<string, PyObject>)
    requires SnapshotOf(attrs, snapshot)
    requires after.Keys == attrs.Keys && after - snapshot.Keys == attrs - snapshot.Keys
    requires forall k :: k in snapshot ==> CopyOf(snapshot[k], after[k])
    ensures RestoredFrom(attrs, after)
  {
    forall k | k in attrs
      ensures if Capturable(k, attrs[k]) then CopyOf(attrs[k], after[k]) else after[k] == attrs[k]
    {
      if Capturable(k, attrs[k]) {
        CopyOfTransitive(attrs[k], snapshot[k], after[k]);
      } else {
        assert k in attrs - snapshot.Keys;
      }
    }
  }

  /** A copy of a copy is a copy of the original. */
  lemma CopyOfTransitive(a: PyObject, b: PyObject, c: PyObject)
    requires CopyOf(a, b) && CopyOf(b, c)
    ensures CopyOf(a, c)
  {
  }

  /**
   * What the current revision stores for `original`: an equal copy where
   * `deepcopy` succeeds, and `original` itself (an alias) where it raises.
   */
  predicate CopyOf(original: PyObject, value: PyObject)
  {
    if original.cloneable then
      value.data == original.data && value.callable == original.callable && value.cloneable
    else
      value == original
  }

  /**
   * `copy.deepcopy(value)`: a fresh object with the same state, or None where
   * Python raises because the value cannot be copied.
   */
  method DeepCopy(value: PyObject) returns (copy: Option<PyObject>)
    ensures copy.Some? <==> value.cloneable
    ensures copy.Some? ==> fresh(copy.value)
    ensures copy.Some? ==> && copy.value.data == value.data
                           && copy.value.callable == value.callable
                           && copy.value.cloneable == value.cloneable
  {
    if value.cloneable {
      var c := new PyObject(value.data, value.callable, value.cloneable);
      copy := Some(c);
    } else {
      copy := None;
    }
  }
}
