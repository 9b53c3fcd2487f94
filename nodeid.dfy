/**
 * Splitting pytest node ids (`path::Class::test`) on their `::` separator,
 * the way the plugin does with `str.split` and `str.partition`.
 */
module NodeIds {
  import opened Pytest

  const Separator: string := "::"

  /** `sep` starts at index `k` of `s`. */
  predicate OccursAt(s: string, sep: string, k: int)
  {
    0 <= k && k + |sep| <= |s| && forall j :: k <= j < k + |sep| ==> s[j] == sep[j - k]
  }

  /** Occurrences past index 0 move one place left when the first character is dropped; used by `Partition`. */
  lemma OccursShift(s: string, sep: string)
    requires s != []
    ensures forall k :: 1 <= k ==> (OccursAt(s, sep, k) <==> OccursAt(s[1..], sep, k - 1))
  {
    forall k | 1 <= k
      ensures OccursAt(s, sep, k) <==> OccursAt(s[1..], sep, k - 1)
    {
      if k + |sep| <= |s| {
        forall j | k - 1 <= j < k - 1 + |sep|
          ensures s[1..][j] == s[j + 1]
        {
        }
      }
    }
  }

  /**
   * Python's `s.partition(sep)`: the text before the first occurrence of
   * `sep`, the separator itself and the text after it; `(s, "", "")` when
   * `sep` does not occur.
   */
  function Partition(s: string, sep: string): (r: (string, string, string))
    requires sep != ""
    ensures r.0 + r.1 + r.2 == s
    ensures r.1 == sep || (r.1 == "" && r.2 == "")
    ensures forall k :: 0 <= k < |r.0| ==> !OccursAt(s, sep, k)
    ensures r.1 == sep ==> OccursAt(s, sep, |r.0|)
    ensures r.1 == "" ==> r.0 == s && forall k :: 0 <= k ==> !OccursAt(s, sep, k)
    decreases |s|
  {
    if |s| < |sep| then (s, "", "")
    else if OccursAt(s, sep, 0) then ("", sep, s[|sep|..])
    else
      var t := Partition(s[1..], sep);
      OccursShift(s, sep);
      assert !OccursAt(s, sep, 0);
      ([s[0]] + t.0, t.1, t.2)
  }

  /** `nodeid.split("::")[0]`: the module part of a node id, which keys the plugin's history. */
  function ModuleOf(nodeid: string): (m: string)
    ensures forall k :: 0 <= k < |m| ==> !OccursAt(nodeid, Separator, k)
    ensures |m| <= |nodeid| && nodeid[..|m|] == m
    ensures m == nodeid || OccursAt(nodeid, Separator, |m|)
  {
    Partition(nodeid, Separator).0
  }

  /** The first occurrence of `sep` decides the partition. */
  lemma PartitionAtFirst(s: string, sep: string, i: nat)
    requires sep != ""
    requires OccursAt(s, sep, i)
    requires forall k :: 0 <= k < i ==> !OccursAt(s, sep, k)
    ensures Partition(s, sep) == (s[..i], sep, s[i + |sep|..])
  {
    var r := Partition(s, sep);
    assert r.1 == sep;
    assert |r.0| == i;
    var rest := r.1 + r.2;
    assert s == r.0 + rest;
    assert s[..i] == r.0;
    assert s[i..] == rest;
    assert rest[|sep|..] == r.2;
  }

  /** A head free of the separator's first character is split off exactly. */
  lemma PartitionJoined(head: string, sep: string, tail: string)
    requires sep != ""
    requires sep[0] !in head
    ensures Partition(head + sep + tail, sep) == (head, sep, tail)
  {
    var s := head + sep + tail;
    assert OccursAt(s, sep, |head|) by {
      forall j | |head| <= j < |head| + |sep|
        ensures s[j] == sep[j - |head|]
      {
      }
    }
    forall k | 0 <= k < |head|
      ensures !OccursAt(s, sep, k)
    {
      assert s[k] == head[k] != sep[0];
    }
    PartitionAtFirst(s, sep, |head|);
    assert s[..|head|] == head;
    assert s[|head| + |sep|..] == tail;
  }

  /** A string without the separator's first character is not split at all. */
  lemma PartitionWithout(s: string, sep: string)
    requires sep != ""
    requires sep[0] !in s
    ensures Partition(s, sep) == (s, "", "")
  {
  }
}
