/** Reversing a sequence, and reading one whose every element has to be readable. */
module Listings {
  import opened Options

  function Reversed<T>(s: seq<T>): (r: seq<T>)
    ensures |r| == |s| && forall i :: 0 <= i < |s| ==> r[i] == s[|s| - 1 - i]
  {
    if s == [] then [] else Reversed(s[1..]) + [s[0]]
  }

  /** `[m[k] for k in keys]` where a value may be unreadable: the first failure ends it all. */
  function ReadAll<T>(m: map<int, Option<T>>, keys: seq<int>): (r: Option<seq<T>>)
    requires forall i :: 0 <= i < |keys| ==> keys[i] in m
    ensures r.Some? <==> forall i :: 0 <= i < |keys| ==> m[keys[i]].Some?
    ensures r.Some? ==> |r.value| == |keys| && forall i :: 0 <= i < |keys| ==> m[keys[i]] == Some(r.value[i])
  {
    if keys == [] then Some([])
    else
      var tail := ReadAll(m, keys[1..]);
      if m[keys[0]].None? || tail.None? then None else Some([m[keys[0]].value] + tail.value)
  }

  lemma ReadOne<T>(m: map<int, Option<T>>, key: int)
    requires key in m
    ensures ReadAll(m, [key]) == if m[key].Some? then Some([m[key].value]) else None
  {
    var r := ReadAll(m, [key]);
    assert [key][0] == key;
    if r.Some? {
      assert r.value == [m[key].value];
    }
  }

  /** Reading in the opposite order gives the values in the opposite order. */
  lemma ReadReversed<T>(m: map<int, Option<T>>, keys: seq<int>)
    requires forall i :: 0 <= i < |keys| ==> keys[i] in m
    ensures ReadAll(m, Reversed(keys)).Some? <==> ReadAll(m, keys).Some?
    ensures ReadAll(m, keys).Some? ==> Reversed(ReadAll(m, Reversed(keys)).value) == ReadAll(m, keys).value
  {
    var n := |keys|;
    if ReadAll(m, Reversed(keys)).Some? {
      forall i | 0 <= i < n ensures m[keys[i]].Some? {
        assert Reversed(keys)[n - 1 - i] == keys[i];
      }
      var back := ReadAll(m, Reversed(keys)).value;
      forall i | 0 <= i < n ensures Reversed(back)[i] == ReadAll(m, keys).value[i] {
        assert m[keys[i]] == Some(back[n - 1 - i]);
      }
    }
  }
}
