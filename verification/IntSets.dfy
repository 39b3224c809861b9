/** Finite sets of integers have a least element. */
module IntSets {
  lemma AnyOf<T>(s: set<T>) returns (x: T)
    requires |s| > 0
    ensures x in s
  {
    x :| x in s;
  }

  lemma {:induction false} LeastOf(s: set<int>) returns (least: int)
    requires |s| > 0
    ensures least in s && forall e :: e in s ==> least <= e
  {
    var x := AnyOf(s);
    if s == {x} {
      least := x;
    } else {
      assert |s - {x}| > 0 by {
        assert s == {x} + (s - {x});
      }
      var rest := LeastOf(s - {x});
      least := if x < rest then x else rest;
      forall e | e in s ensures least <= e {
        assert e == x || e in s - {x};
      }
    }
  }
}
