/** A value that may be missing, and numbers that are not taken. */
module Wrappers {

  datatype Option<+T> = None | Some(value: T)

  lemma FreshExists(s: set<nat>)
    ensures exists x: nat :: x !in s
  {
    var m := Bounded(s);
    assert m !in s;
  }

  lemma {:induction false} Bounded(s: set<nat>) returns (m: nat)
    ensures forall x :: x in s ==> x < m
  {
    m := 0;
    if s != {} {
      var x :| x in s;
      m := Bounded(s - {x});
      assert s == s - {x} + {x};
      m := if x >= m then x + 1 else m;
    }
  }
}
