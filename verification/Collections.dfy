/** Extensionality facts that the loops and inductions over tables rely on. */
module Collections {
  lemma NoElements<T>(s: set<T>)
    requires forall x :: x !in s
    ensures s == {}
  {
  }

  lemma Member<T>(s: set<T>) returns (x: T)
    requires s != {}
    ensures x in s
  {
    if !exists x :: x in s {
      NoElements(s);
      assert false;
    }
    x :| x in s;
  }

  lemma SameSet(s: set<int>, t: set<int>)
    requires forall x :: x in s <==> x in t
    ensures s == t
  {
    forall x ensures x in s <==> x in t {}
  }

  lemma SameMap<V>(m: map<int, V>, n: map<int, V>)
    requires forall k :: k in m <==> k in n
    requires forall k :: k in m ==> m[k] == n[k]
    ensures m == n
  {
    SameSet(m.Keys, n.Keys);
    forall k | k in m.Keys ensures m[k] == n[k] {}
  }

  // A number above every element.
  lemma Above(s: set<int>) returns (x: int)
    ensures forall y :: y in s ==> y < x
    decreases s
  {
    x := 0;
    if s != {} {
      var some := Member(s);
      var rest := Above(s - {some});
      x := if some < rest then rest else some + 1;
      forall y | y in s ensures y < x {
        if y != some { assert y in s - {some}; }
      }
    }
  }

  lemma MinusBoth<T>(s: set<T>, a: set<T>, b: set<T>)
    ensures s - a - b == s - (a + b)
  {
  }

  lemma PlusNothing<T>(s: set<T>)
    ensures s + {} == s
  {
  }

  // Moving an element from one part of a set to the other.
  lemma MoveOver<T>(done: set<T>, todo: set<T>, x: T)
    requires x in todo && done !! todo
    ensures (done + {x}) + (todo - {x}) == done + todo && done + {x} !! todo - {x}
  {
  }

  lemma SameUnion<T>(base: set<T>, a: set<T>, b: set<T>)
    requires a <= b && b <= base + a
    ensures base + a == base + b
  {
  }
}
