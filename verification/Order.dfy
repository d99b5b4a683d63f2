/** Finite sets of integers in ascending order, as an assembled job numbers its layers: every
    element of the set once, each smaller than the one behind it. */
module Order {
  predicate IsLeast(m: int, s: set<int>) { m in s && forall x :: x in s ==> m <= x }

  lemma LeastExists(s: set<int>)
    requires exists a :: a in s
    ensures exists m :: IsLeast(m, s)
    decreases |s|
  {
    var a :| a in s;
    var rest := s - {a};
    if exists b :: b in rest {
      LeastExists(rest);
      var m :| IsLeast(m, rest);
      assert s == rest + {a};
      assert IsLeast(if a < m then a else m, s);
    } else {
      forall x | x in s ensures x == a {
        assert x in rest || x == a;
      }
      assert IsLeast(a, s);
    }
  }

  function Least(s: set<int>): (m: int)
    requires exists a :: a in s
    ensures IsLeast(m, s)
  {
    LeastExists(s);
    var m :| m in s && IsLeast(m, s);
    m
  }

  /** The elements of a set in ascending order. */
  function Ascending(s: set<int>): (r: seq<int>)
    ensures forall x :: x in s <==> x in r
    ensures forall i, j :: 0 <= i < j < |r| ==> r[i] < r[j]
    decreases |s|
  {
    if exists a :: a in s then [Least(s)] + Ascending(s - {Least(s)}) else []
  }
}
