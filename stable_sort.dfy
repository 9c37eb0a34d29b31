/** The ordering step of the digit detector: an in-place `list.sort` keyed on x_min
    on a list of (x_min, class name) pairs. Python's `list.sort` is stable, so the
    result is the unique ordering that is sorted by x_min and keeps boxes with equal
    x_min in their original order; SortByX is that ordering, computed by insertion. */
module StableSort {

  /** One entry of `detected_items`: a box's x_min and the class name of its digit. */
  datatype Item = Item(x: real, name: string)

  ghost predicate SortedByX(s: seq<Item>) {
    forall i, j :: 0 <= i < j < |s| ==> s[i].x <= s[j].x
  }

  /** The items of s whose x_min is k, in their order in s. */
  function WithX(s: seq<Item>, k: real): (r: seq<Item>)
    ensures |r| <= |s|
  {
    if s == [] then [] else (if s[0].x == k then [s[0]] else []) + WithX(s[1..], k)
  }

  /** The group for k holds only items of s whose x_min is k. */
  lemma {:induction false} WithXMembers(s: seq<Item>, k: real)
    ensures forall e :: e in WithX(s, k) ==> e in s && e.x == k
  {
    if s != [] {
      WithXMembers(s[1..], k);
    }
  }

  /** out keeps every group of items with equal x_min in the order it has in s:
      what a stable sort keyed on x_min guarantees. */
  ghost predicate KeepsTieOrder(out: seq<Item>, s: seq<Item>) {
    forall k :: WithX(out, k) == WithX(s, k)
  }

  /** Puts e into the sorted t in front of the first item whose x_min is not smaller. */
  function Insert(e: Item, t: seq<Item>): (r: seq<Item>)
    ensures |r| == |t| + 1
    ensures multiset(r) == multiset{e} + multiset(t)
    ensures r[0] == e || (t != [] && r[0] == t[0])
  {
    if t == [] || e.x <= t[0].x then [e] + t
    else
      assert t == [t[0]] + t[1..];
      [t[0]] + Insert(e, t[1..])
  }

  /** Inserting into a sorted sequence keeps it sorted. */
  lemma {:induction false} InsertKeepsSorted(e: Item, t: seq<Item>)
    requires SortedByX(t)
    ensures SortedByX(Insert(e, t))
  {
    if t != [] && t[0].x < e.x {
      InsertKeepsSorted(e, t[1..]);
    }
  }

  /** The list `detected_items` after it is sorted on x_min. */
  function SortByX(s: seq<Item>): (r: seq<Item>)
    ensures |r| == |s|
    ensures multiset(r) == multiset(s)
    ensures SortedByX(r)
  {
    if s == [] then []
    else
      assert s == [s[0]] + s[1..];
      InsertKeepsSorted(s[0], SortByX(s[1..]));
      Insert(s[0], SortByX(s[1..]))
  }

  /** The class names of the items, in order: `[item[1] for item in detected_items]`. */
  function Labels(s: seq<Item>): (r: seq<string>)
    ensures |r| == |s|
    ensures forall i :: 0 <= i < |s| ==> r[i] == s[i].name
  {
    if s == [] then [] else [s[0].name] + Labels(s[1..])
  }

  lemma {:induction false} WithXAppend(a: seq<Item>, b: seq<Item>, k: real)
    ensures WithX(a + b, k) == WithX(a, k) + WithX(b, k)
  {
    if a == [] {
      assert a + b == b;
    } else {
      var head := if a[0].x == k then [a[0]] else [];
      assert (a + b)[0] == a[0];
      assert (a + b)[1..] == a[1..] + b;
      assert WithX(a + b, k) == head + WithX(a[1..] + b, k);
      assert WithX(a, k) == head + WithX(a[1..], k);
      WithXAppend(a[1..], b, k);
      assert head + (WithX(a[1..], k) + WithX(b, k)) == (head + WithX(a[1..], k)) + WithX(b, k);
    }
  }

  lemma WithXSingle(e: Item, k: real)
    ensures WithX([e], k) == if e.x == k then [e] else []
  {
    assert [e][1..] == [];
  }

  /** Inserting e puts it in front of every item with the same x_min. */
  lemma {:induction false} InsertWithX(e: Item, t: seq<Item>, k: real)
    ensures WithX(Insert(e, t), k) == (if e.x == k then [e] else []) + WithX(t, k)
  {
    if t == [] || e.x <= t[0].x {
      assert Insert(e, t) == [e] + t;
      WithXAppend([e], t, k);
      WithXSingle(e, k);
    } else {
      assert t == [t[0]] + t[1..];
      InsertWithX(e, t[1..], k);
      InsertPastHead(e, t[0], t[1..], k);
    }
  }

  /** The group for k of a list with head h. */
  lemma {:induction false} WithXCons(h: Item, t: seq<Item>, k: real)
    ensures WithX([h] + t, k) == (if h.x == k then [h] else []) + WithX(t, k)
  {
    assert ([h] + t)[0] == h && ([h] + t)[1..] == t;
  }

  /** Putting the same head h in front of a and b keeps a's group for k equal to
      front followed by b's group, when front is empty or h is not in the group. */
  lemma {:induction false} ConsKeepsGroup(h: Item, a: seq<Item>, b: seq<Item>, front: seq<Item>, k: real)
    requires WithX(a, k) == front + WithX(b, k)
    requires front == [] || h.x != k
    ensures WithX([h] + a, k) == front + WithX([h] + b, k)
  {
    WithXCons(h, a, k);
    WithXCons(h, b, k);
    if h.x == k {
      assert front == [];
      assert [] + WithX(b, k) == WithX(b, k);
      assert [] + WithX([h] + b, k) == WithX([h] + b, k);
    } else {
      assert [] + (front + WithX(b, k)) == front + WithX(b, k);
      assert [] + WithX(b, k) == WithX(b, k);
    }
  }

  /** The recursive case of InsertWithX: e passes a head h with a smaller x_min. */
  lemma {:induction false} InsertPastHead(e: Item, h: Item, rest: seq<Item>, k: real)
    requires h.x < e.x
    requires WithX(Insert(e, rest), k) == (if e.x == k then [e] else []) + WithX(rest, k)
    ensures WithX(Insert(e, [h] + rest), k) == (if e.x == k then [e] else []) + WithX([h] + rest, k)
  {
    var t := [h] + rest;
    assert t[0] == h && t[1..] == rest;
    assert Insert(e, t) == [h] + Insert(e, rest);
    ConsKeepsGroup(h, Insert(e, rest), rest, if e.x == k then [e] else [], k);
  }

  /** The sort is stable: boxes with equal x_min keep their original relative order. */
  lemma {:induction false} SortByXKeepsTieOrder(s: seq<Item>)
    ensures KeepsTieOrder(SortByX(s), s)
  {
    if s != [] {
      SortByXKeepsTieOrder(s[1..]);
      forall k ensures WithX(SortByX(s), k) == WithX(s, k) {
        InsertWithX(s[0], SortByX(s[1..]), k);
        assert s == [s[0]] + s[1..];
        WithXAppend([s[0]], s[1..], k);
      }
    }
  }

  /** A sorted sequence with a nonempty group for k holds an item with x_min k. */
  lemma {:induction false} WithXNonEmpty(s: seq<Item>, k: real)
    requires SortedByX(s)
    requires WithX(s, k) != []
    ensures s != [] && s[0].x <= k
    ensures s[0].x == k ==> WithX(s, k)[0] == s[0]
  {
    var e := WithX(s, k)[0];
    WithXMembers(s, k);
    assert e in s;
    var i :| 0 <= i < |s| && s[i] == e;
    assert i == 0 || s[0].x <= s[i].x;
  }

  /** Only one ordering is sorted by x_min and keeps the tie order of the input, so
      whatever algorithm `list.sort` runs, its result is SortByX. */
  lemma {:induction false} StableSortIsUnique(s: seq<Item>, out: seq<Item>)
    requires SortedByX(out)
    requires KeepsTieOrder(out, s)
    ensures out == SortByX(s)
  {
    SortByXKeepsTieOrder(s);
    SortedTieOrderUnique(out, SortByX(s));
  }

  lemma {:induction false} SameGroupsSameEmptiness(a: seq<Item>, b: seq<Item>)
    requires forall k :: WithX(a, k) == WithX(b, k)
    ensures a == [] <==> b == []
  {
    if a != [] {
      assert WithX(b, a[0].x) == WithX(a, a[0].x) != [];
    }
    if b != [] {
      assert WithX(a, b[0].x) == WithX(b, b[0].x) != [];
    }
  }

  lemma {:induction false} SortedTieOrderUnique(a: seq<Item>, b: seq<Item>)
    requires SortedByX(a) && SortedByX(b)
    requires forall k :: WithX(a, k) == WithX(b, k)
    ensures a == b
    decreases |a| + |b|
  {
    SameGroupsSameEmptiness(a, b);
    if a != [] {
      var m := a[0].x;
      assert WithX(a, m) != [];
      WithXNonEmpty(b, m);
      assert WithX(b, b[0].x) != [];
      WithXNonEmpty(a, b[0].x);
      assert b[0].x == m;
      WithXNonEmpty(a, m);
      WithXNonEmpty(b, m);
      assert a[0] == b[0];
      forall k ensures WithX(a[1..], k) == WithX(b[1..], k) {
        var head := if m == k then [a[0]] else [];
        assert WithX(a, k) == head + WithX(a[1..], k);
        assert WithX(b, k) == head + WithX(b[1..], k);
        assert (head + WithX(a[1..], k))[|head|..] == WithX(a[1..], k);
        assert (head + WithX(b[1..], k))[|head|..] == WithX(b[1..], k);
      }
      SortedTieOrderUnique(a[1..], b[1..]);
      assert a == [a[0]] + a[1..];
      assert b == [b[0]] + b[1..];
    }
  }

  lemma {:induction false} InsertLabels(e: Item, t: seq<Item>)
    ensures multiset(Labels(Insert(e, t))) == multiset{e.name} + multiset(Labels(t))
  {
    if t == [] || e.x <= t[0].x {
      assert Labels([e] + t) == [e.name] + Labels(t);
    } else {
      InsertLabels(e, t[1..]);
      assert Labels([t[0]] + Insert(e, t[1..])) == [t[0].name] + Labels(Insert(e, t[1..]));
      assert Labels(t) == [t[0].name] + Labels(t[1..]);
    }
  }

  /** Sorting permutes the class names: each appears as often as before. */
  lemma {:induction false} SortByXPermutesLabels(s: seq<Item>)
    ensures multiset(Labels(SortByX(s))) == multiset(Labels(s))
  {
    if s != [] {
      SortByXPermutesLabels(s[1..]);
      InsertLabels(s[0], SortByX(s[1..]));
    }
  }

  lemma SortTwoInOrder(b: Item, c: Item)
    requires b.x <= c.x
    ensures SortByX([b, c]) == [b, c]
  {
    assert [b, c][1..] == [c] && [c][1..] == [];
    assert SortByX([c]) == [c];
  }

  lemma InsertLast(a: Item, b: Item, c: Item)
    requires b.x < a.x && c.x < a.x
    ensures Insert(a, [b, c]) == [b, c, a]
  {
    assert [b, c][1..] == [c] && [c][1..] == [];
    assert Insert(a, [c]) == [c, a];
  }

  lemma LabelsOfThree(a: Item, b: Item, c: Item)
    ensures Labels([a, b, c]) == [a.name, b.name, c.name]
  {
    assert [a, b, c][1..] == [b, c] && [b, c][1..] == [c] && [c][1..] == [];
  }

  /** Items at x 50, 10 and 30 named "3", "1" and "2" sort to "1", "2", "3". */
  lemma SortThreeItems()
    ensures Labels(SortByX([Item(50.0, "3"), Item(10.0, "1"), Item(30.0, "2")])) == ["1", "2", "3"]
  {
    var a, b, c := Item(50.0, "3"), Item(10.0, "1"), Item(30.0, "2");
    SortTwoInOrder(b, c);
    InsertLast(a, b, c);
    assert [a, b, c][0] == a && [a, b, c][1..] == [b, c];
    assert SortByX([a, b, c]) == [b, c, a];
    LabelsOfThree(b, c, a);
  }
}
