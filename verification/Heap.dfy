/** The binary min-heap of elements with priorities, used by the clock server and by the
    route search. */
module Heaps {

  function Parent(i: int): (p: int)
    requires i >= 0
    ensures i > 0 ==> 0 <= p < i && (i == Left(p) || i == Right(p))
  {
    (i + 1) / 2 - 1
  }

  function Left(i: int): (l: int) {
    i * 2 + 1
  }

  function Right(i: int): (r: int) {
    i * 2 + 2
  }

  // An entry is an element and its priority.
  type Entry = (int, int)

  ghost predicate Ordered(s: seq<Entry>) {
    forall i {:trigger s[i]} :: 1 <= i < |s| ==> s[Parent(i)].1 <= s[i].1
  }

  /** Ordered except that entry k may be smaller than its parent. */
  ghost predicate OrderedAbove(s: seq<Entry>, k: int) {
    && (forall i {:trigger s[i]} :: 1 <= i < |s| && i != k ==> s[Parent(i)].1 <= s[i].1)
    && (forall i {:trigger s[i]} :: 1 <= i < |s| && k > 0 && Parent(i) == k ==> s[Parent(k)].1 <= s[i].1)
  }

  /** Ordered except that entry k may be greater than its children. */
  ghost predicate OrderedBelow(s: seq<Entry>, k: int) {
    && (forall i {:trigger s[i]} :: 1 <= i < |s| && Parent(i) != k ==> s[Parent(i)].1 <= s[i].1)
    && (forall i {:trigger s[i]} :: 1 <= i < |s| && 0 < k < |s| && Parent(i) == k ==> s[Parent(k)].1 <= s[i].1)
  }

  ghost function Swapped(s: seq<Entry>, i: int, j: int): (r: seq<Entry>)
    requires 0 <= i < |s| && 0 <= j < |s|
  {
    s[i := s[j]][j := s[i]]
  }

  lemma SwapKeepsEntries(s: seq<Entry>, i: int, j: int)
    requires 0 <= i < |s| && 0 <= j < |s|
    ensures multiset(Swapped(s, i, j)) == multiset(s)
  {
  }

  /** The root of a heap has the least priority. */
  lemma {:induction false} RootLeast(s: seq<Entry>, k: nat)
    requires Ordered(s) && k < |s|
    ensures s[0].1 <= s[k].1
  {
    if k > 0 {
      RootLeast(s, Parent(k));
      assert s[Parent(k)].1 <= s[k].1;
    }
  }

  lemma SiftUpStep(s: seq<Entry>, i: int)
    requires 0 < i < |s| && OrderedAbove(s, i) && s[Parent(i)].1 > s[i].1
    ensures OrderedAbove(Swapped(s, i, Parent(i)), Parent(i))
  {
    hide Parent, Left, Right;
    var p := Parent(i);
    var t := Swapped(s, i, p);
    forall j | 1 <= j < |t| && j != p
      ensures t[Parent(j)].1 <= t[j].1
    {
      assert j != i ==> s[Parent(j)].1 <= s[j].1;
    }
    forall j | 1 <= j < |t| && p > 0 && Parent(j) == p
      ensures t[Parent(p)].1 <= t[j].1
    {
      assert s[Parent(p)].1 <= s[p].1;
      assert j != i ==> s[p].1 <= s[j].1;
    }
  }

  lemma SiftDownStep(s: seq<Entry>, i: int, c: int)
    requires 0 <= i < |s| && 0 < c < |s| && Parent(c) == i && OrderedBelow(s, i)
    requires s[c].1 < s[i].1
    requires forall j {:trigger s[j]} :: 1 <= j < |s| && Parent(j) == i ==> s[c].1 <= s[j].1
    ensures OrderedBelow(Swapped(s, i, c), c)
  {
    hide Parent, Left, Right;
    var t := Swapped(s, i, c);
    forall j | 1 <= j < |t| && Parent(j) != c
      ensures t[Parent(j)].1 <= t[j].1
    {
      assert Parent(j) != i ==> s[Parent(j)].1 <= s[j].1;
      assert Parent(j) == i ==> s[c].1 <= s[j].1;
    }
    forall j | 1 <= j < |t| && Parent(j) == c
      ensures t[Parent(c)].1 <= t[j].1
    {
      assert s[c].1 <= s[j].1;
    }
  }

  class Heap {
    const elements: array<int>
    const priorities: array<int>
    const maxSize: int
    var size: int

    ghost predicate Sized()
      reads this
    {
      0 <= size <= maxSize == elements.Length == priorities.Length && elements != priorities
    }

    /** The live entries, in array order. */
    ghost function Entries(): (s: seq<Entry>)
      requires Sized()
      reads this, elements, priorities
      ensures |s| == size
    {
      seq(size, k requires 0 <= k < size reads this, elements, priorities requires Sized() =>
        (elements[k], priorities[k]))
    }

    /** The live entries, in no order. */
    ghost function Bag(): (s: multiset<Entry>)
      requires Sized()
      reads this, elements, priorities
    {
      multiset(Entries())
    }

    ghost predicate Valid()
      reads this, elements, priorities
    {
      Sized() && Ordered(Entries())
    }

    lemma ValidSized()
      requires Valid()
      ensures Sized()
    {
    }

    constructor (elementMemory: array<int>, priorityMemory: array<int>)
      requires elementMemory != priorityMemory && elementMemory.Length == priorityMemory.Length
      ensures Valid() && Entries() == [] && maxSize == elementMemory.Length
      ensures elements == elementMemory && priorities == priorityMemory
    {
      elements := elementMemory;
      priorities := priorityMemory;
      size := 0;
      maxSize := elementMemory.Length;
    }

    method Swap(i: int, j: int)
      requires Sized() && 0 <= i < size && 0 <= j < size
      modifies elements, priorities
      ensures Entries() == Swapped(old(Entries()), i, j)
      ensures priorities[i] == old(priorities[j]) && priorities[j] == old(priorities[i])
      ensures forall k :: size <= k < maxSize ==> priorities[k] == old(priorities[k])
    {
      var temp1, temp2 := elements[i], priorities[i];
      elements[i] := elements[j];
      priorities[i] := priorities[j];
      elements[j] := temp1;
      priorities[j] := temp2;
    }

    method Add(element: int, priority: int)
      requires Valid() && size < maxSize
      modifies this, elements, priorities
      ensures Valid() && size == old(size) + 1
      ensures Bag() == old(Bag()) + multiset{(element, priority)}
    {
      var i := size;
      elements[size] := element;
      priorities[size] := priority;
      size := size + 1;
      assert Entries() == old(Entries()) + [(element, priority)];
      while i > 0 && priorities[Parent(i)] > priorities[i]
        invariant Sized() && size == old(size) + 1 && 0 <= i < size
        invariant OrderedAbove(Entries(), i)
        invariant Bag() == old(Bag()) + multiset{(element, priority)}
        decreases i
      {
        SiftUpStep(Entries(), i);
        SwapKeepsEntries(Entries(), i, Parent(i));
        Swap(i, Parent(i));
        i := Parent(i);
      }
    }

    /** Sifts the root down.  It compares with the right child even when that child is the
        slot just past the live entries; that slot still holds the priority being sifted. */
    method SiftDown()
      requires Sized() && size < maxSize && OrderedBelow(Entries(), 0)
      requires priorities[0] == priorities[size]
      modifies elements, priorities
      ensures Valid() && Bag() == old(Bag())
    {
      hide Ordered, OrderedBelow, Swapped, Left, Right, Parent;
      var i := 0;
      ghost var sifted := priorities[size];
      while i < size
        invariant 0 <= i
        invariant OrderedBelow(Entries(), i)
        invariant Bag() == old(Bag())
        invariant priorities[size] == sifted && (i < size ==> priorities[i] == sifted)
        decreases size - i
      {
        ghost var t := Entries();
        Children(t, i);
        if Left(i) < size && priorities[Left(i)] < priorities[i] && priorities[Left(i)] <= priorities[Right(i)] {
          SiftDownStep(t, i, Left(i));
          SwapKeepsEntries(t, i, Left(i));
          Swap(i, Left(i));
          i := Left(i);
        } else if Right(i) < size && priorities[Right(i)] < priorities[i] &&
                  priorities[Right(i)] <= priorities[Left(i)] {
          SiftDownStep(t, i, Right(i));
          SwapKeepsEntries(t, i, Right(i));
          Swap(i, Right(i));
          i := Right(i);
        } else {
          break;
        }
      }
      SiftDone(Entries(), i);
    }

    /** The last live entry takes the place of the root; its old slot is now past the live ones. */
    method MoveLastToRoot()
      requires Valid() && size > 0
      modifies this, elements, priorities
      ensures Sized() && size == old(size) - 1 && OrderedBelow(Entries(), 0)
      ensures priorities[0] == priorities[size]
      ensures Bag() == old(Bag()) - multiset{old(Entries()[0])}
    {
      hide Ordered, OrderedBelow;
      ghost var s := Entries();
      elements[0] := elements[size - 1];
      priorities[0] := priorities[size - 1];
      size := size - 1;
      RemovedRoot(s, Entries());
    }

    /** Removes an entry of least priority. */
    method RemoveMin() returns (min: int)
      requires Valid()
      modifies this, elements, priorities
      ensures Valid()
      ensures old(size) == 0 ==> min == 0 && size == 0
      ensures old(size) > 0 ==>
        var least := (min, old(priorities[0]));
        && size == old(size) - 1
        && least in old(Bag())
        && (forall e :: e in old(Bag()) ==> least.1 <= e.1)
        && Bag() == old(Bag()) - multiset{least}
    {
      hide Ordered, OrderedBelow;
      min := 0;
      if size > 0 {
        ghost var s := Entries();
        RootLeastOfAll(s);
        min := elements[0];
        MoveLastToRoot();
        SiftDown();
      }
    }

    lemma NobodyBelowRoot()
      requires Valid()
      ensures size == 0 ==> Bag() == multiset{}
      ensures size > 0 ==> forall e :: e in Bag() ==> priorities[0] <= e.1
    {
      if size > 0 {
        RootLeastOfAll(Entries());
      } else {
        assert Entries() == [];
      }
    }

    method MinPriority() returns (p: int)
      requires Valid()
      ensures size == 0 ==> p == -1
      ensures size > 0 ==> p == priorities[0] == Entries()[0].1 && forall e :: e in Bag() ==> p <= e.1
    {
      if size > 0 {
        RootLeastOfAll(Entries());
        return priorities[0];
      } else {
        return -1;
      }
    }
  }

  lemma Children(s: seq<Entry>, i: int)
    requires 0 <= i
    ensures i < Left(i) && Right(i) == Left(i) + 1
    ensures Parent(Left(i)) == i && Parent(Right(i)) == i
    ensures forall j {:trigger Parent(j)} :: 0 < j && Parent(j) == i ==> j == Left(i) || j == Right(i)
  {
  }

  lemma RootLeastOfAll(s: seq<Entry>)
    requires Ordered(s) && s != []
    ensures s[0] in multiset(s) && forall e :: e in multiset(s) ==> s[0].1 <= e.1
  {
    forall e | e in multiset(s)
      ensures s[0].1 <= e.1
    {
      var k :| 0 <= k < |s| && s[k] == e;
      RootLeast(s, k);
    }
  }

  /** Moving the last entry over the root removes the root. */
  lemma RemovedRoot(s: seq<Entry>, t: seq<Entry>)
    requires Ordered(s) && s != [] && |t| == |s| - 1
    requires forall k :: 0 <= k < |t| ==> t[k] == if k == 0 then s[|s| - 1] else s[k]
    ensures OrderedBelow(t, 0) && multiset(t) == multiset(s) - multiset{s[0]}
  {
    RemovedEntries(s, t);
    forall i | 1 <= i < |t| && Parent(i) != 0
      ensures t[Parent(i)].1 <= t[i].1
    {
      assert s[i] == t[i];
    }
  }

  lemma RemovedEntries(s: seq<Entry>, t: seq<Entry>)
    requires s != [] && |t| == |s| - 1
    requires forall k :: 0 <= k < |t| ==> t[k] == if k == 0 then s[|s| - 1] else s[k]
    ensures multiset(t) == multiset(s) - multiset{s[0]}
  {
    if |s| == 1 {
      assert s == [s[0]] && t == [];
    } else {
      var mid, last := s[1..|s| - 1], s[|s| - 1];
      assert s == [s[0]] + mid + [last];
      assert t == [last] + mid;
      assert multiset(s) == multiset{s[0]} + multiset(mid) + multiset{last};
    }
  }

  /** Entry i is no greater than its children: the heap is in order again. */
  lemma SiftDone(t: seq<Entry>, i: int)
    requires 0 <= i && OrderedBelow(t, i)
    requires i < |t| ==> (Left(i) < |t| ==> t[i].1 <= t[Left(i)].1) && (Right(i) < |t| ==> t[i].1 <= t[Right(i)].1)
    ensures Ordered(t)
  {
    Children(t, i);
  }
}
