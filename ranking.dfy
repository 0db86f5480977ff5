/** Dispatch order: `new_items.sort(key=priority, reverse=True)`, a stable
    sort by priority, highest first, with ties kept in collection order. */
module Ranking {

  /** A collected feed item; `id` is the entry id it was recorded under. */
  datatype Item = Item(feed: string, title: string, link: string, priority: int, id: string)

  ghost predicate SortedDescending(s: seq<Item>)
  {
    forall i, j :: 0 <= i < j < |s| ==> s[i].priority >= s[j].priority
  }

  /** The items of `s` with priority `p`, in their order in `s`. */
  function WithPriority(s: seq<Item>, p: int): seq<Item>
  {
    if s == [] then []
    else (if s[0].priority == p then [s[0]] else []) + WithPriority(s[1..], p)
  }

  /** Place `x` after every item of priority `x.priority` or more. */
  function Insert(sorted: seq<Item>, x: Item): seq<Item>
  {
    if sorted == [] then [x]
    else if sorted[0].priority >= x.priority then [sorted[0]] + Insert(sorted[1..], x)
    else [x] + sorted
  }

  /** Stable sort by descending priority, inserting items in collection order. */
  function SortByPriority(s: seq<Item>): seq<Item>
  {
    if s == [] then [] else Insert(SortByPriority(s[..|s| - 1]), s[|s| - 1])
  }

  lemma {:induction false} WithPriorityAppend(a: seq<Item>, b: seq<Item>, p: int)
    ensures WithPriority(a + b, p) == WithPriority(a, p) + WithPriority(b, p)
  {
    if a == [] {
      assert a + b == b;
    } else {
      assert (a + b)[0] == a[0];
      assert (a + b)[1..] == a[1..] + b;
      WithPriorityAppend(a[1..], b, p);
    }
  }

  lemma WithPriorityCons(h: Item, t: seq<Item>, p: int)
    ensures WithPriority([h] + t, p) == (if h.priority == p then [h] else []) + WithPriority(t, p)
  {
    assert ([h] + t)[0] == h;
    assert ([h] + t)[1..] == t;
  }

  lemma ConsSorted(h: Item, t: seq<Item>)
    requires SortedDescending(t)
    requires forall i :: 0 <= i < |t| ==> h.priority >= t[i].priority
    ensures SortedDescending([h] + t)
  {
    forall i, j | 0 <= i < j < |[h] + t|
      ensures ([h] + t)[i].priority >= ([h] + t)[j].priority
    {
      assert ([h] + t)[j] == t[j - 1];
      if i > 0 {
        assert ([h] + t)[i] == t[i - 1];
      }
    }
  }

  lemma {:induction false} InsertSorted(sorted: seq<Item>, x: Item)
    requires SortedDescending(sorted)
    ensures SortedDescending(Insert(sorted, x))
    ensures multiset(Insert(sorted, x)) == multiset(sorted) + multiset{x}
  {
    if sorted == [] {
    } else if sorted[0].priority >= x.priority {
      var h, t := sorted[0], sorted[1..];
      var rest := Insert(t, x);
      assert Insert(sorted, x) == [h] + rest;
      assert SortedDescending(t);
      InsertSorted(t, x);
      assert sorted == [h] + t;
      forall i | 0 <= i < |rest|
        ensures h.priority >= rest[i].priority
      {
        assert rest[i] in multiset(rest);
        assert rest[i] == x || rest[i] in t;
      }
      ConsSorted(h, rest);
    } else {
      assert Insert(sorted, x) == [x] + sorted;
      ConsSorted(x, sorted);
    }
  }

  lemma {:induction false} InsertWithPriority(sorted: seq<Item>, x: Item, p: int)
    requires SortedDescending(sorted)
    ensures WithPriority(Insert(sorted, x), p)
         == WithPriority(sorted, p) + (if x.priority == p then [x] else [])
  {
    if sorted == [] {
      WithPriorityCons(x, [], p);
      assert [x] + [] == [x];
    } else {
      var h, t := sorted[0], sorted[1..];
      assert sorted == [h] + t;
      WithPriorityCons(h, t, p);
      if h.priority >= x.priority {
        var rest := Insert(t, x);
        assert Insert(sorted, x) == [h] + rest;
        InsertWithPriority(t, x, p);
        WithPriorityCons(h, rest, p);
      } else {
        assert Insert(sorted, x) == [x] + sorted;
        WithPriorityCons(x, sorted, p);
        if x.priority == p {
          NoneAbove(sorted, p);
        }
      }
    }
  }

  lemma HeadIsListed(s: seq<Item>)
    requires s != []
    ensures WithPriority(s, s[0].priority) != []
  {
  }

  /** In a descending sequence that starts below `p`, no item has priority `p`. */
  lemma {:induction false} NoneAbove(sorted: seq<Item>, p: int)
    requires SortedDescending(sorted) && sorted != [] && sorted[0].priority < p
    ensures WithPriority(sorted, p) == []
  {
    if |sorted| > 1 {
      NoneAbove(sorted[1..], p);
    }
  }

  /** The dispatch order is descending by priority, is a permutation of the
      collected items, and keeps the collection order among equal priorities. */
  lemma {:induction false} SortByPriorityCorrect(s: seq<Item>)
    ensures SortedDescending(SortByPriority(s))
    ensures multiset(SortByPriority(s)) == multiset(s)
    ensures forall p :: WithPriority(SortByPriority(s), p) == WithPriority(s, p)
  {
    if s != [] {
      var n := |s| - 1;
      SortByPriorityCorrect(s[..n]);
      InsertSorted(SortByPriority(s[..n]), s[n]);
      assert s == s[..n] + [s[n]];
      forall p ensures WithPriority(SortByPriority(s), p) == WithPriority(s, p) {
        InsertWithPriority(SortByPriority(s[..n]), s[n], p);
        WithPriorityAppend(s[..n], [s[n]], p);
        assert WithPriority([s[n]], p) == (if s[n].priority == p then [s[n]] else []) + WithPriority([], p);
      }
    }
  }

  /** Only the stable descending order of the same items has these three
      properties: any such sequence is the sort's result. */
  lemma {:induction false} SortIsUnique(s: seq<Item>, r: seq<Item>)
    requires SortedDescending(r)
    requires forall p :: WithPriority(r, p) == WithPriority(s, p)
    ensures r == SortByPriority(s)
  {
    SortByPriorityCorrect(s);
    SortedUnique(r, SortByPriority(s));
  }

  lemma {:induction false} SortedUnique(a: seq<Item>, b: seq<Item>)
    requires SortedDescending(a) && SortedDescending(b)
    requires forall p :: WithPriority(a, p) == WithPriority(b, p)
    ensures a == b
    decreases |a| + |b|
  {
    if a == [] && b == [] {
    } else if a == [] {
      HeadIsListed(b);
      assert false;
    } else if b == [] {
      HeadIsListed(a);
      assert false;
    } else {
      var pa, pb := a[0].priority, b[0].priority;
      if pa < pb {
        NoneAbove(a, pb);
      } else if pb < pa {
        NoneAbove(b, pa);
      } else {
        assert WithPriority(a, pa)[0] == a[0];
        assert WithPriority(b, pb)[0] == b[0];
        assert a[0] == b[0];
        assert a == [a[0]] + a[1..] && b == [b[0]] + b[1..];
        forall p ensures WithPriority(a[1..], p) == WithPriority(b[1..], p) {
          var wa, wb := WithPriority(a[1..], p), WithPriority(b[1..], p);
          WithPriorityCons(a[0], a[1..], p);
          WithPriorityCons(b[0], b[1..], p);
          if pa == p {
            assert [a[0]] + wa == [b[0]] + wb;
            assert wa == ([a[0]] + wa)[1..];
            assert wb == ([b[0]] + wb)[1..];
          } else {
            assert [] + wa == wa && [] + wb == wb;
          }
        }
        SortedUnique(a[1..], b[1..]);
      }
    }
  }
}
