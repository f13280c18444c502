/** Texts in the order of their code points, and sets of texts as sorted lists. */
module Ordering {
  predicate Before(a: string, b: string) {
    b != "" && (a == "" || a[0] < b[0] || (a[0] == b[0] && Before(a[1..], b[1..])))
  }

  lemma {:induction false} BeforeIsTotal(a: string, b: string)
    ensures !(Before(a, b) && Before(b, a))
    ensures a == b <==> !Before(a, b) && !Before(b, a)
  {
    if a != "" && b != "" && a[0] == b[0] {
      BeforeIsTotal(a[1..], b[1..]);
      assert a == [a[0]] + a[1..] && b == [b[0]] + b[1..];
    }
  }

  lemma {:induction false} BeforeIsTransitive(a: string, b: string, c: string)
    requires Before(a, b) && Before(b, c)
    ensures Before(a, c)
  {
    if a != "" && a[0] == b[0] == c[0] {
      BeforeIsTransitive(a[1..], b[1..], c[1..]);
    }
  }

  predicate IsFirst(s: set<string>, x: string) { x in s && forall y | y in s && y != x :: Before(x, y) }

  lemma {:induction false} FirstExists(s: set<string>) returns (x: string)
    requires s != {}
    ensures IsFirst(s, x)
  {
    x :| x in s;
    if s != {x} {
      var rest := s - {x};
      var y := FirstExists(rest);
      BeforeIsTotal(x, y);
      if Before(y, x) {
        x := y;
      } else {
        forall z | z in s && z != x ensures Before(x, z) {
          if z != y {
            BeforeIsTransitive(x, y, z);
          }
        }
      }
    }
  }

  lemma FirstIsUnique(s: set<string>, x: string, y: string)
    requires IsFirst(s, x) && IsFirst(s, y)
    ensures x == y
  {
    BeforeIsTotal(x, y);
  }

  function First(s: set<string>): (x: string)
    requires s != {}
    ensures IsFirst(s, x)
  {
    assert exists x :: IsFirst(s, x) by { var x := FirstExists(s); }
    assert forall x, y | IsFirst(s, x) && IsFirst(s, y) :: x == y by {
      forall x, y | IsFirst(s, x) && IsFirst(s, y) ensures x == y {
        FirstIsUnique(s, x, y);
      }
    }
    var x :| x in s && IsFirst(s, x);
    x
  }

  predicate Ascending(list: seq<string>) { forall i, j | 0 <= i < j < |list| :: Before(list[i], list[j]) }

  /** `sorted` of a set: its texts, each once, in ascending order. */
  function Sorted(s: set<string>): (list: seq<string>)
    ensures Ascending(list) && forall x :: x in list <==> x in s
  {
    if s == {} then []
    else
      var x := First(s);
      [x] + Sorted(s - {x})
  }
}
