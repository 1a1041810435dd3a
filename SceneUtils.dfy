// The child-list edits of SceneUtils and its id counter. Children are the
// node's sequence of (possibly null) shared pointers, compared by
// identity; each edit rewrites that sequence in place. The branches the
// engine leaves undefined (inserting or erasing past the end of the
// vector) are excluded by preconditions.
module SceneUtils {
  import opened SceneObjects

  // ---------------------------------------------------------------------
  // Specification of the edits on sequences
  // ---------------------------------------------------------------------

  /** The first index of x in s, or -1 when x does not occur. */
  function IndexOf<T(==)>(s: seq<T>, x: T): (i: int)
    ensures -1 <= i < |s|
    ensures i == -1 <==> x !in s
    ensures i >= 0 ==> s[i] == x && x !in s[..i]
  {
    if |s| == 0 then -1
    else if s[0] == x then 0
    else
      var j := IndexOf(s[1..], x);
      assert s[1..][..if j < 0 then 0 else j] == s[1..if j < 0 then 1 else j + 1];
      if j == -1 then -1 else j + 1
  }

  /** s without its first occurrence of x; s itself when x does not occur. */
  function RemoveFirst<T(==)>(s: seq<T>, x: T): seq<T> {
    var i := IndexOf(s, x);
    if i < 0 then s else s[..i] + s[i + 1..]
  }

  /** The first occurrence of x is at i when s[i] is x and x is not before i. */
  lemma {:induction false} IndexOfAt<T>(s: seq<T>, x: T, i: nat)
    requires i < |s| && s[i] == x && x !in s[..i]
    ensures IndexOf(s, x) == i
  {
    if i > 0 {
      assert s[..i][0] == s[0];
      assert s[1..][..i - 1] == s[..i][1..];
      IndexOfAt(s[1..], x, i - 1);
    }
  }

  /**
   * Removing x takes exactly one x out of the multiset of s when x occurs,
   * and nothing otherwise; the other elements keep their order.
   */
  lemma RemoveFirstCounts<T>(s: seq<T>, x: T)
    ensures multiset(RemoveFirst(s, x)) == multiset(s) - multiset{x}
    ensures |RemoveFirst(s, x)| == if x in s then |s| - 1 else |s|
  {
    hide *;
    RemoveFirstMultiset(s, x);
    RemoveFirstLength(s, x);
  }

  lemma RemoveFirstMultiset<T>(s: seq<T>, x: T)
    ensures multiset(RemoveFirst(s, x)) == multiset(s) - multiset{x}
  {
    hide IndexOf;
    var i := IndexOf(s, x);
    if i >= 0 {
      SpliceAtCounts(s, x, i);
    } else {
      AbsentCounts(s, x);
    }
  }

  lemma RemoveFirstLength<T>(s: seq<T>, x: T)
    ensures |RemoveFirst(s, x)| == if x in s then |s| - 1 else |s|
  {
    hide IndexOf;
    var i := IndexOf(s, x);
  }

  lemma SpliceAtCounts<T>(s: seq<T>, x: T, i: nat)
    requires i < |s| && s[i] == x
    ensures multiset(s[..i] + s[i + 1..]) == multiset(s) - multiset{x}
  {
    assert s == s[..i] + [x] + s[i + 1..];
    SpliceCounts(s[..i], x, s[i + 1..]);
  }

  lemma SpliceCounts<T>(u: seq<T>, x: T, v: seq<T>)
    ensures multiset(u + v) == multiset(u + [x] + v) - multiset{x}
  {
    assert multiset(u + [x] + v) == multiset(u) + multiset{x} + multiset(v);
  }

  lemma AbsentCounts<T>(s: seq<T>, x: T)
    requires x !in s
    ensures multiset(s) == multiset(s) - multiset{x}
  {
    assert multiset(s)[x] == 0;
  }

  /** No element occurs twice. */
  predicate Distinct<T(==)>(s: seq<T>) {
    forall i, j :: 0 <= i < j < |s| ==> s[i] != s[j]
  }

  /** The children after appendChild(obj, child) on a node other than child. */
  function Appended<T(==)>(s: seq<T>, x: T): seq<T> {
    RemoveFirst(s, x) + [x]
  }

  /**
   * Appending moves x to the end: the list grows by one exactly when x
   * was absent, x ends last after the others in their order, and a list
   * without duplicates stays without duplicates.
   */
  lemma AppendedMovesToEnd<T>(s: seq<T>, x: T)
    ensures var r := Appended(s, x);
            r[|r| - 1] == x && r[..|r| - 1] == RemoveFirst(s, x) &&
            |r| == (if x in s then |s| else |s| + 1) &&
            multiset(r) == (if x in s then multiset(s) else multiset(s) + multiset{x})
    ensures Distinct(s) ==> Distinct(Appended(s, x))
  {
    AppendedShape(s, x);
    if Distinct(s) {
      AppendedDistinct(s, x);
    }
  }

  /** The members after appending x are x and the members before. */
  lemma AppendedMembers<T>(s: seq<T>, x: T, o: T)
    ensures o in Appended(s, x) <==> o == x || o in s
  {
    hide *;
    AppendedShape(s, x);
    var r := Appended(s, x);
    assert o in r <==> multiset(r)[o] > 0;
    assert o in s <==> multiset(s)[o] > 0;
  }

  lemma AppendedShape<T>(s: seq<T>, x: T)
    ensures var r := Appended(s, x);
            r[|r| - 1] == x && r[..|r| - 1] == RemoveFirst(s, x) &&
            |r| == (if x in s then |s| else |s| + 1) &&
            multiset(r) == (if x in s then multiset(s) else multiset(s) + multiset{x})
  {
    hide IndexOf, RemoveFirst;
    RemoveFirstCounts(s, x);
    var r, t := Appended(s, x), RemoveFirst(s, x);
    assert r[..|r| - 1] == t;
    if x in s {
      assert multiset(s)[x] >= 1;
      assert multiset(t) + multiset{x} == multiset(s);
    }
  }

  lemma AppendedDistinct<T>(s: seq<T>, x: T)
    requires Distinct(s)
    ensures Distinct(Appended(s, x))
  {
    hide IndexOf, RemoveFirst;
    var r, t := Appended(s, x), RemoveFirst(s, x);
    RemoveFirstCounts(s, x);
    DistinctRemoveFirst(s, x);
    DistinctCountsOne(s, x);
    assert multiset(t)[x] == 0;
    forall i, j | 0 <= i < j < |r|
      ensures r[i] != r[j]
    {
      assert r[i] == t[i];
      if j == |r| - 1 {
        assert t[i] in multiset(t);
      } else {
        assert r[j] == t[j];
      }
    }
  }

  /** Removing an element keeps a list without duplicates so. */
  lemma DistinctRemoveFirst<T>(s: seq<T>, x: T)
    requires Distinct(s)
    ensures Distinct(RemoveFirst(s, x))
  {
    var i := IndexOf(s, x);
    if i >= 0 {
      var r := RemoveFirst(s, x);
      forall a, b | 0 <= a < b < |r|
        ensures r[a] != r[b]
      {
        var a' := if a < i then a else a + 1;
        var b' := if b < i then b else b + 1;
        assert r[a] == s[a'] && r[b] == s[b'];
      }
    }
  }

  /** In a list without duplicates every element occurs at most once. */
  lemma {:induction false} DistinctCountsOne<T>(s: seq<T>, x: T)
    requires Distinct(s)
    ensures multiset(s)[x] <= 1
  {
    if |s| > 0 {
      assert s == [s[0]] + s[1..];
      forall i, j | 0 <= i < j < |s[1..]|
        ensures s[1..][i] != s[1..][j]
      {
        assert s[1..][i] == s[i + 1] && s[1..][j] == s[j + 1];
      }
      DistinctCountsOne(s[1..], x);
      if s[0] == x {
        forall j | 0 <= j < |s[1..]|
          ensures s[1..][j] != x
        {
          assert s[1..][j] == s[j + 1];
        }
        assert multiset(s[1..])[x] == 0;
      }
    }
  }

  // ---------------------------------------------------------------------
  // The edits
  // ---------------------------------------------------------------------

  /**
   * removeChild(obj, child): scan the children and erase the first one
   * equal to child; nothing else changes.
   */
  method RemoveChild(obj: SceneObject, child: SceneObject?)
    modifies obj
    ensures obj.children == RemoveFirst(old(obj.children), child)
    ensures obj.name == old(obj.name) && obj.transform == old(obj.transform)
  {
    var i := 0;
    while i < |obj.children|
      invariant 0 <= i <= |obj.children|
      invariant obj.children == old(obj.children)
      invariant child !in obj.children[..i]
    {
      if obj.children[i] == child {
        IndexOfAt(obj.children, child, i);
        obj.children := obj.children[..i] + obj.children[i + 1..];
        return;
      }
      assert obj.children[..i + 1] == obj.children[..i] + [obj.children[i]];
      i := i + 1;
    }
    assert obj.children[..i] == obj.children;
  }

  /**
   * appendChild(obj, child): nothing when child is obj itself; otherwise
   * child is first removed and then pushed last.
   */
  method AppendChild(obj: SceneObject, child: SceneObject?)
    modifies obj
    ensures obj.children == if child == obj then old(obj.children) else Appended(old(obj.children), child)
    ensures obj.name == old(obj.name) && obj.transform == old(obj.transform)
  {
    if obj == child {
      return;
    }
    RemoveChild(obj, child);
    obj.children := obj.children + [child];
  }

  /**
   * insertChild(obj, index, child): child is removed first; then an index
   * at or past the end inserts there (defined only at the end itself) and
   * an index before the end appends. Either way child ends last.
   */
  method InsertChild(obj: SceneObject, index: nat, child: SceneObject?)
    requires index <= |RemoveFirst(obj.children, child)|
    modifies obj
    ensures obj.children == Appended(old(obj.children), child)
    ensures obj.name == old(obj.name) && obj.transform == old(obj.transform)
  {
    RemoveChild(obj, child);
    if index >= |obj.children| {
      obj.children := obj.children[..index] + [child] + obj.children[index..];
    } else if |obj.children| > 0 {
      obj.children := obj.children + [child];
    }
  }

  /**
   * insertChild has no self check: insertChild(obj, 0, obj) makes obj a
   * child of itself, a cycle that every later walk of the tree follows
   * without end.
   */
  method InsertChildMakesCycle(obj: SceneObject)
    modifies obj
    ensures obj in obj.children
  {
    ghost var before := obj.children;
    InsertChild(obj, 0, obj);
    AppendedMembers(before, obj, obj);
  }

  /**
   * insertChild with the self check that appendChild has: inserting obj
   * into itself changes nothing, so an object that is not its own child
   * never becomes one.
   */
  method InsertChildCorrected(obj: SceneObject, index: nat, child: SceneObject?)
    requires index <= |RemoveFirst(obj.children, child)|
    modifies obj
    ensures obj.children == if child == obj then old(obj.children) else Appended(old(obj.children), child)
    ensures obj !in old(obj.children) ==> obj !in obj.children
    ensures obj.name == old(obj.name) && obj.transform == old(obj.transform)
  {
    if obj == child {
      return;
    }
    ghost var before := obj.children;
    InsertChild(obj, index, child);
    AppendedMembers(before, child, obj);
  }

  /**
   * removeChild(obj, index): an index at or past the end erases there,
   * which is undefined; an index before the end pops the LAST child, not
   * the one at index.
   */
  method RemoveChildAt(obj: SceneObject, index: nat)
    requires index < |obj.children|
    modifies obj
    ensures obj.children == old(obj.children)[..|old(obj.children)| - 1]
    ensures obj.name == old(obj.name) && obj.transform == old(obj.transform)
  {
    // The source's first branch, an erase at or past the end, is the
    // undefined behaviour the precondition rules out; with index in range
    // the list is non-empty, so the remaining branch always pops.
    obj.children := obj.children[..|obj.children| - 1];
  }

  /** removeChild at index, then insertChild at index. */
  method ReplaceChild(obj: SceneObject, index: nat, child: SceneObject?)
    requires index < |obj.children|
    requires index <= |RemoveFirst(obj.children[..|obj.children| - 1], child)|
    modifies obj
    ensures obj.children == Appended(old(obj.children)[..|old(obj.children)| - 1], child)
    ensures obj.name == old(obj.name) && obj.transform == old(obj.transform)
  {
    RemoveChildAt(obj, index);
    InsertChild(obj, index, child);
  }

  /** findChildIndex: the first index holding child, or -1. */
  method FindChildIndex(obj: SceneObject, child: SceneObject?) returns (i: int)
    ensures i == IndexOf(obj.children, child)
  {
    i := 0;
    while i < |obj.children|
      invariant 0 <= i <= |obj.children|
      invariant child !in obj.children[..i]
    {
      if obj.children[i] == child {
        IndexOfAt(obj.children, child, i);
        return;
      }
      assert obj.children[..i + 1] == obj.children[..i] + [obj.children[i]];
      i := i + 1;
    }
    assert obj.children[..i] == obj.children;
    i := -1;
  }

  /**
   * replaceChild does not put child at index: on [a, b, c] with index 0
   * and a new child d it yields [a, b, d], dropping the last child.
   */
  lemma ReplaceChildDropsLast<T>(a: T, b: T, c: T, d: T)
    requires a != b && a != c && b != c && d != a && d != b && d != c
    ensures Appended([a, b, c][..2], d) == [a, b, d]
  {
    assert [a, b, c][..2] == [a, b];
    assert d !in [a, b];
  }

  // ---------------------------------------------------------------------
  // Ids
  // ---------------------------------------------------------------------

  /** The range of the engine's unsigned long counter. */
  const CounterModulus: nat := 0x1_0000_0000_0000_0000

  /** to_string of a natural number: its decimal digits, most significant first. */
  function DecimalString(n: nat): (s: string)
    ensures |s| >= 1 && (n < 10 <==> |s| == 1)
    ensures forall i :: 0 <= i < |s| ==> '0' <= s[i] <= '9'
  {
    if n < 10 then [Digit(n)] else DecimalString(n / 10) + [Digit(n % 10)]
  }

  function Digit(d: nat): (c: char)
    requires d < 10
    ensures '0' <= c <= '9'
  {
    (d + '0' as int) as char
  }

  /** Different numbers have different decimal strings. */
  lemma {:induction false} DecimalStringInjective(m: nat, n: nat)
    requires DecimalString(m) == DecimalString(n)
    ensures m == n
  {
    if m >= 10 && n >= 10 {
      var sm, sn := DecimalString(m), DecimalString(n);
      assert sm[..|sm| - 1] == DecimalString(m / 10);
      assert sn[..|sn| - 1] == DecimalString(n / 10);
      DecimalStringInjective(m / 10, n / 10);
      assert sm[|sm| - 1] == Digit(m % 10) && sn[|sn| - 1] == Digit(n % 10);
    } else if m < 10 && n < 10 {
      assert DecimalString(m)[0] == Digit(m);
    }
  }

  /** The static counter behind createId. */
  class IdCounter {
    var counter: nat

    ghost predicate Valid()
      reads this
    {
      counter < CounterModulus
    }

    constructor ()
      ensures Valid() && counter == 0
    {
      counter := 0;
    }

    /** createId: the decimal form of the counter, which then steps on (wrapping at 2^64). */
    method CreateId() returns (id: string)
      requires Valid()
      modifies this
      ensures Valid()
      ensures id == DecimalString(old(counter))
      ensures counter == (old(counter) + 1) % CounterModulus
    {
      id := DecimalString(counter);
      counter := (counter + 1) % CounterModulus;
    }
  }

  /**
   * Ids from a counter that has stepped k times, 0 < k < 2^64, differ:
   * the counter returns to a value only after 2^64 steps.
   */
  lemma IdsDiffer(c: nat, k: nat)
    requires c < CounterModulus && 0 < k < CounterModulus
    ensures DecimalString(c) != DecimalString((c + k) % CounterModulus)
  {
    var r := (c + k) % CounterModulus;
    if c + k < CounterModulus {
      assert r == c + k;
    } else {
      assert r == c + k - CounterModulus;
    }
    if DecimalString(c) == DecimalString(r) {
      DecimalStringInjective(c, r);
    }
  }
}
