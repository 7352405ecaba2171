/** Small datatypes and facts shared by the modules. */
module Basics {

  datatype Option<+T> = None | Some(value: T) {
    function GetOr(other: T): T { if Some? then value else other }
  }

  lemma SubsetSize<T>(a: set<T>, b: set<T>)
    requires a <= b
    ensures |a| <= |b|
  {
    if a != {} {
      var x :| x in a;
      SubsetSize(a - {x}, b - {x});
    }
  }

  /** A set has several elements exactly when two of them differ. */
  lemma MoreThanOne(s: set<string>)
    ensures |s| > 1 <==> exists v, w :: v != w && v in s && w in s
  {
    if |s| > 1 {
      var v :| v in s;
      assert |s - {v}| > 0;
      var w :| w in s - {v};
    }
    if v, w :| v != w && v in s && w in s {
      SubsetSize({v, w}, s);
    }
  }

  /** A subset with as many elements is the whole. */
  lemma SubsetOfSameSize<T>(a: set<T>, b: set<T>)
    requires a <= b && |a| == |b|
    ensures a == b
  {
    if b - a != {} {
      var x :| x in b - a;
      SubsetSize(a, b - {x});
    }
  }
}
