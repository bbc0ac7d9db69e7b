/** Least elements of finite sets of numbers. */
module Least {

  lemma SomeElement<T>(s: set<T>) returns (x: T)
    requires s != {}
    ensures x in s
  {
    x :| x in s;
  }

  lemma {:induction false} LeastElement(s: set<int>) returns (least: int)
    requires s != {}
    ensures least in s && forall y :: y in s ==> least <= y
    decreases |s|
  {
    least := SomeElement(s);
    var rest := s - {least};
    forall y | y in s ensures y == least || y in rest { }
    if rest != {} {
      var other := LeastElement(rest);
      least := if other < least then other else least;
    }
  }
}
