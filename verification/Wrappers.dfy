/** Shared by the models: the option type (a nullable column, or a value a caller may omit) and fresh numbers. */
module Wrappers {
  datatype Option<+T> = None | Some(value: T) {
    function GetOr(default: T): T {
      if Some? then value else default
    }
  }

  /** Some number is above all of a finite set, and so not in it. */
  lemma {:induction false} FreshNat(xs: set<nat>) returns (n: nat)
    ensures forall x | x in xs :: x < n
  {
    n := 0;
    if xs != {} {
      var x :| x in xs;
      var m := FreshNat(xs - {x});
      n := if x < m then m else x + 1;
      assert forall y | y in xs :: y == x || y in xs - {x};
    }
  }
}
