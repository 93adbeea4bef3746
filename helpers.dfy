/**
 * TravelPlannerApp/src/utils/helpers.ts: the collection helpers `groupBy`,
 * `sortBy` and `uniqueBy`. The property name `key` of the source becomes a
 * projection function: `item[key]` is `key(item)`.
 */
module Helpers {
  import opened Wrappers
  import opened Seqs

  // ---------------------------------------------------------------- groupBy

  /** The test "this item belongs to group `g`". */
  function HasKey<T>(key: T -> string, g: string): T -> bool
  {
    x => key(x) == g
  }

  /** The group names the items of `s` produce. */
  function KeySet<T>(s: seq<T>, key: T -> string): set<string>
  {
    set k | 0 <= k < |s| :: key(s[k])
  }

  /** The intended grouping: one group per key value, holding its items in input order. */
  function Groups<T>(s: seq<T>, key: T -> string): map<string, seq<T>>
  {
    map g | g in KeySet(s, key) :: Filter(s, HasKey(key, g))
  }

  lemma KeySetSnoc<T>(s: seq<T>, x: T, key: T -> string)
    ensures KeySet(s + [x], key) == KeySet(s, key) + {key(x)}
  {
    forall k | 0 <= k < |s| ensures (s + [x])[k] == s[k] { }
    assert (s + [x])[|s|] == x;
  }

  /** Group `h` of `s + [x]` is group `h` of `s`, followed by `x` when `x` has key `h`. */
  lemma GroupSnocAt<T>(s: seq<T>, x: T, key: T -> string, h: string)
    ensures Filter(s + [x], HasKey(key, h))
      == (if h in KeySet(s, key) then Filter(s, HasKey(key, h)) else []) + (if key(x) == h then [x] else [])
  {
    FilterConcat(s, [x], HasKey(key, h));
    assert [x][1..] == [];
    assert Filter([x], HasKey(key, h)) == (if key(x) == h then [x] else []);
    if h !in KeySet(s, key) {
      forall k | 0 <= k < |s| ensures !HasKey(key, h)(s[k]) {
        assert key(s[k]) in KeySet(s, key);
      }
      FilterExtremes(s, HasKey(key, h));
    }
  }

  /** `acc` with `x` pushed onto group `g`, which is created empty first when missing. */
  function Push<T>(acc: map<string, seq<T>>, g: string, x: T): (r: map<string, seq<T>>)
    ensures r.Keys == acc.Keys + {g}
    ensures g in acc ==> r[g] == acc[g] + [x]
    ensures g !in acc ==> r[g] == [x]
    ensures forall h :: h in acc && h != g ==> r[h] == acc[h]
  {
    acc[g := (if g in acc then acc[g] else []) + [x]]
  }

  /** Adding one item to the input pushes it onto its own group and changes nothing else. */
  lemma GroupsSnoc<T>(s: seq<T>, x: T, key: T -> string)
    ensures Groups(s + [x], key) == Push(Groups(s, key), key(x), x)
  {
    var expected := Push(Groups(s, key), key(x), x);
    var lhs := Groups(s + [x], key);
    forall h | h in lhs ensures h in expected && lhs[h] == expected[h] {
      GroupSnocIn(s, x, key, h);
    }
    assert lhs.Keys == expected.Keys by {
      KeySetSnoc(s, x, key);
    }
  }

  lemma GroupSnocIn<T>(s: seq<T>, x: T, key: T -> string, h: string)
    requires h in Groups(s + [x], key)
    ensures h in Push(Groups(s, key), key(x), x)
    ensures Groups(s + [x], key)[h] == Push(Groups(s, key), key(x), x)[h]
  {
    KeySetSnoc(s, x, key);
    GroupSnocAt(s, x, key, h);
  }

  /** One more item of the input, pushed onto the grouping of the items before it. */
  lemma GroupsStep<T>(items: seq<T>, i: int, key: T -> string)
    requires 0 <= i < |items|
    ensures Groups(items[..i + 1], key) == Push(Groups(items[..i], key), key(items[i]), items[i])
  {
    assert items[..i + 1] == items[..i] + [items[i]];
    GroupsSnoc(items[..i], items[i], key);
  }

  /**
   * The `reduce` callback of `groupBy`: creates the item's group when it is
   * missing, then appends the item to it.
   */
  method Accumulate<T>(result: map<string, seq<T>>, item: T, key: T -> string) returns (next: map<string, seq<T>>)
    ensures next == Push(result, key(item), item)
  {
    next := result;
    var groupKey := key(item);
    if groupKey !in next {
      next := next[groupKey := []];
    }
    next := next[groupKey := next[groupKey] + [item]];
  }

  /** `groupBy`: folds the callback over the items, starting from no groups. */
  method GroupBy<T>(items: seq<T>, key: T -> string) returns (result: map<string, seq<T>>)
    ensures result == Groups(items, key)
    ensures forall g :: g in result ==> result[g] != []
    ensures forall i :: 0 <= i < |items| ==> key(items[i]) in result && items[i] in result[key(items[i])]
  {
    result := map[];
    var i := 0;
    while i < |items|
      invariant 0 <= i <= |items|
      invariant result == Groups(items[..i], key)
    {
      result := Accumulate(result, items[i], key);
      GroupsStep(items, i, key);
      i := i + 1;
    }
    assert items[..i] == items;
    GroupsCover(items, key);
  }

  /** No group is empty, and every item is in the group of its own key. */
  lemma GroupsCover<T>(s: seq<T>, key: T -> string)
    ensures forall g :: g in Groups(s, key) ==> Groups(s, key)[g] != []
    ensures forall i :: 0 <= i < |s| ==> key(s[i]) in Groups(s, key) && s[i] in Groups(s, key)[key(s[i])]
  {
    var groups := Groups(s, key);
    forall g | g in groups ensures groups[g] != [] {
      var k :| 0 <= k < |s| && key(s[k]) == g;
      assert HasKey(key, g)(s[k]);
    }
    forall i | 0 <= i < |s| ensures key(s[i]) in groups && s[i] in groups[key(s[i])] {
      assert HasKey(key, key(s[i]))(s[i]);
    }
  }

  /** No name occurs twice in `ks`. */
  predicate NoDup(ks: seq<string>)
  {
    forall a, b :: 0 <= a < b < |ks| ==> ks[a] != ks[b]
  }

  /** The total size of the groups named in `ks`. */
  function SizeOfGroups<T>(groups: map<string, seq<T>>, ks: seq<string>): nat
    decreases |ks|
  {
    if ks == [] then 0
    else (if ks[0] in groups then |groups[ks[0]]| else 0) + SizeOfGroups(groups, ks[1..])
  }

  /** The size of group `g`, present or not, is the number of items with key `g`. */
  lemma GroupSize<T>(s: seq<T>, key: T -> string, g: string)
    ensures (if g in Groups(s, key) then |Groups(s, key)[g]| else 0) == |Filter(s, HasKey(key, g))|
  {
    if g !in Groups(s, key) {
      forall k | 0 <= k < |s| ensures !HasKey(key, g)(s[k]) {
        assert key(s[k]) in KeySet(s, key);
      }
      FilterExtremes(s, HasKey(key, g));
    }
  }

  lemma {:induction false} SizeOfGroupsCons<T>(x: T, t: seq<T>, key: T -> string, ks: seq<string>)
    requires NoDup(ks)
    ensures SizeOfGroups(Groups([x] + t, key), ks)
      == SizeOfGroups(Groups(t, key), ks) + (if key(x) in ks then 1 else 0)
    decreases |ks|
  {
    if ks != [] {
      var g := ks[0];
      GroupSize([x] + t, key, g);
      GroupSize(t, key, g);
      assert ([x] + t)[1..] == t;
      assert NoDup(ks[1..]) by {
        forall a, b | 0 <= a < b < |ks[1..]| ensures ks[1..][a] != ks[1..][b] {
          assert ks[1..][a] == ks[a + 1] && ks[1..][b] == ks[b + 1];
        }
      }
      SizeOfGroupsCons(x, t, key, ks[1..]);
      if key(x) == g {
        assert key(x) !in ks[1..] by {
          forall b | 0 <= b < |ks[1..]| ensures ks[1..][b] != g {
            assert ks[1..][b] == ks[b + 1];
          }
        }
      }
      assert key(x) in ks <==> key(x) == g || key(x) in ks[1..];
    }
  }

  /** Listing every group once, the group sizes add up to the number of items. */
  lemma {:induction false} GroupSizesSum<T>(s: seq<T>, key: T -> string, ks: seq<string>)
    requires NoDup(ks)
    requires forall g :: g in Groups(s, key) ==> g in ks
    ensures SizeOfGroups(Groups(s, key), ks) == |s|
    decreases |s|
  {
    if s == [] {
      ZeroSizes(key, ks);
    } else {
      var x, t := s[0], s[1..];
      assert s == [x] + t;
      forall g | g in Groups(t, key) ensures g in ks {
        var k :| 0 <= k < |t| && key(t[k]) == g;
        assert s[k + 1] == t[k];
      }
      GroupSizesSum(t, key, ks);
      SizeOfGroupsCons(x, t, key, ks);
      assert key(x) in Groups(s, key);
    }
  }

  lemma {:induction false} ZeroSizes<T>(key: T -> string, ks: seq<string>)
    ensures SizeOfGroups(Groups([], key), ks) == 0
    decreases |ks|
  {
    if ks != [] {
      ZeroSizes(key, ks[1..]);
    }
  }

  /**
   * Object keys every plain `{}` inherits from `Object.prototype`: for them
   * `result[groupKey]` is already truthy before any group was created.
   */
  const InheritedObjectKeys: set<string> := {
    "constructor", "__proto__", "toString", "toLocaleString", "valueOf",
    "hasOwnProperty", "isPrototypeOf", "propertyIsEnumerable",
    "__defineGetter__", "__defineSetter__", "__lookupGetter__", "__lookupSetter__"}

  /**
   * `groupBy` exactly as written, accumulating into a plain `{}`: when an
   * item's key is an inherited property name and no group of that name was
   * created yet, the `!result[groupKey]` test is false, `push` is called on
   * the inherited value and a TypeError is thrown (`None`).
   */
  function GroupByAsWritten<T>(s: seq<T>, key: T -> string): (r: Option<map<string, seq<T>>>)
    ensures r.None? ==> exists k :: 0 <= k < |s| && key(s[k]) in InheritedObjectKeys
    decreases |s|
  {
    if s == [] then Some(map[])
    else
      match GroupByAsWritten(s[..|s| - 1], key)
      case None => None
      case Some(acc) =>
        var x := s[|s| - 1];
        var g := key(x);
        if g in acc then Some(acc[g := acc[g] + [x]])
        else if g in InheritedObjectKeys then None
        else Some(acc[g := [x]])
  }

  /** Away from inherited names the code as written computes the intended grouping. */
  lemma {:induction false} GroupByAsWrittenAgrees<T>(s: seq<T>, key: T -> string)
    requires forall k :: 0 <= k < |s| ==> key(s[k]) !in InheritedObjectKeys
    ensures GroupByAsWritten(s, key) == Some(Groups(s, key))
    decreases |s|
  {
    if s != [] {
      var p, x := s[..|s| - 1], s[|s| - 1];
      assert s == p + [x];
      assert forall k :: 0 <= k < |p| ==> p[k] == s[k];
      GroupByAsWrittenAgrees(p, key);
      var acc, g := Groups(p, key), key(x);
      assert g !in InheritedObjectKeys;
      assert GroupByAsWritten(s, key) == Some(Push(acc, g, x));
      GroupsSnoc(p, x, key);
    }
  }

  /** Grouping a single item whose key is "constructor" throws instead of making one group. */
  lemma GroupByAsWrittenThrows()
    ensures GroupByAsWritten(["constructor"], (s: string) => s) == None
    ensures Groups(["constructor"], (s: string) => s) == map["constructor" := ["constructor"]]
  {
    var key := (s: string) => s;
    var items: seq<string> := ["constructor"];
    assert items[..0] == [];
    assert GroupByAsWritten([], key) == Some(map[]);
    assert key("constructor") == "constructor";
    assert [] + items == items;
    assert Groups([], key) == map[];
    GroupsSnoc([], "constructor", key);
  }

  // ----------------------------------------------------------------- sortBy

  datatype SortOrder = Asc | Desc

  /** The comparator says `a` comes strictly before `b`. */
  predicate Before(order: SortOrder, a: int, b: int)
  {
    if order == Asc then a < b else a > b
  }

  /** `a` may stand before `b`: the comparator does not put `b` first. */
  predicate InOrder(order: SortOrder, a: int, b: int)
  {
    !Before(order, b, a)
  }

  /** Non-decreasing keys for `Asc`, non-increasing for `Desc`. */
  ghost predicate SortedBy<T>(s: seq<T>, key: T -> int, order: SortOrder)
  {
    forall a, b :: 0 <= a < b < |s| ==> InOrder(order, key(s[a]), key(s[b]))
  }

  /**
   * `sortBy`: copies the items and sorts the copy (here by insertion); the
   * input items are read only.
   */
  method SortBy<T>(items: array<T>, key: T -> int, order: SortOrder) returns (sorted: seq<T>)
    ensures multiset(sorted) == multiset(items[..])
    ensures SortedBy(sorted, key, order)
  {
    var copy := new T[items.Length](k reads items requires 0 <= k < items.Length => items[k]);
    assert copy[..] == items[..];
    if copy.Length == 0 {
      return [];
    }
    var i := 1;
    while i < copy.Length
      invariant 1 <= i <= copy.Length
      invariant forall a, b :: 0 <= a < b < i ==> InOrder(order, key(copy[a]), key(copy[b]))
      invariant multiset(copy[..]) == multiset(items[..])
    {
      InsertAt(copy, key, order, i);
      i := i + 1;
    }
    sorted := copy[..];
  }

  /** Moves `a[i]` left past the elements that must follow it, so that `a[..i + 1]` is sorted. */
  method InsertAt<T>(a: array<T>, key: T -> int, order: SortOrder, i: nat)
    requires i < a.Length
    requires forall p, q :: 0 <= p < q < i ==> InOrder(order, key(a[p]), key(a[q]))
    modifies a
    ensures forall p, q :: 0 <= p < q <= i ==> InOrder(order, key(a[p]), key(a[q]))
    ensures multiset(a[..]) == old(multiset(a[..]))
  {
    var j := i;
    while j > 0 && Before(order, key(a[j]), key(a[j - 1]))
      invariant 0 <= j <= i
      invariant forall p, q :: 0 <= p < q <= i && p != j && q != j ==> InOrder(order, key(a[p]), key(a[q]))
      invariant forall q :: j < q <= i ==> Before(order, key(a[j]), key(a[q]))
      invariant multiset(a[..]) == old(multiset(a[..]))
    {
      a[j - 1], a[j] := a[j], a[j - 1];
      j := j - 1;
    }
  }

  // --------------------------------------------------------------- uniqueBy

  /** The key values the items of `s` carry. */
  function KeyValues<T, K(==)>(s: seq<T>, key: T -> K): set<K>
  {
    set k | 0 <= k < |s| :: key(s[k])
  }

  lemma KeyValuesSnoc<T, K>(s: seq<T>, x: T, key: T -> K)
    ensures KeyValues(s + [x], key) == KeyValues(s, key) + {key(x)}
  {
    forall k | 0 <= k < |s| ensures (s + [x])[k] == s[k] { }
    assert (s + [x])[|s|] == x;
  }

  /** The intended result: each item whose key value no earlier item carries, in input order. */
  function FirstOccurrences<T, K(==)>(s: seq<T>, key: T -> K): seq<T>
    decreases |s|
  {
    if s == [] then []
    else
      var p, x := s[..|s| - 1], s[|s| - 1];
      FirstOccurrences(p, key) + (if key(x) in KeyValues(p, key) then [] else [x])
  }

  /**
   * `uniqueBy`: filters the items with a `seen` set, keeping an item when its
   * key value has not been seen and recording it.
   */
  method UniqueBy<T, K(==)>(items: seq<T>, key: T -> K) returns (result: seq<T>)
    ensures result == FirstOccurrences(items, key)
  {
    var seen: set<K> := {};
    result := [];
    var i := 0;
    while i < |items|
      invariant 0 <= i <= |items|
      invariant seen == KeyValues(items[..i], key)
      invariant result == FirstOccurrences(items[..i], key)
    {
      var item := items[i];
      var value := key(item);
      assert items[..i + 1][..i] == items[..i];
      if value !in seen {
        seen := seen + {value};
        result := result + [item];
      }
      assert items[..i + 1] == items[..i] + [item];
      KeyValuesSnoc(items[..i], item, key);
      i := i + 1;
    }
    assert items[..i] == items;
  }

  /** What `uniqueBy` keeps is a subsequence of its input. */
  lemma {:induction false} FirstOccurrencesSubseq<T, K>(s: seq<T>, key: T -> K)
    ensures IsSubseq(FirstOccurrences(s, key), s)
    decreases |s|
  {
    if s != [] {
      var p, x := s[..|s| - 1], s[|s| - 1];
      FirstOccurrencesSubseq(p, key);
      var rp := FirstOccurrences(p, key);
      SubseqSnoc(rp, p, x, key(x) !in KeyValues(p, key));
      assert p + [x] == s;
      assert rp + [] == rp;
    }
  }

  /** `uniqueBy` keeps exactly one item per key value present in the input. */
  lemma {:induction false} FirstOccurrencesKeys<T, K>(s: seq<T>, key: T -> K)
    ensures KeyValues(FirstOccurrences(s, key), key) == KeyValues(s, key)
    ensures forall a, b :: 0 <= a < b < |FirstOccurrences(s, key)| ==>
      key(FirstOccurrences(s, key)[a]) != key(FirstOccurrences(s, key)[b])
    decreases |s|
  {
    if s != [] {
      var p, x := s[..|s| - 1], s[|s| - 1];
      FirstOccurrencesKeys(p, key);
      assert s == p + [x];
      var r := FirstOccurrences(s, key);
      var rp := FirstOccurrences(p, key);
      KeyValuesSnoc(p, x, key);
      if key(x) in KeyValues(p, key) {
        assert r == rp;
      } else {
        assert r == rp + [x];
        KeyValuesSnoc(rp, x, key);
        forall a | 0 <= a < |rp| ensures key(r[a]) != key(x) {
          assert r[a] == rp[a] && rp[a] in rp;
        }
      }
    }
  }

  /** `v` is an item of `s` at a position where its key value appears for the first time. */
  ghost predicate FirstWithKey<T, K>(s: seq<T>, key: T -> K, v: T)
  {
    exists i :: 0 <= i < |s| && s[i] == v && key(s[i]) !in KeyValues(s[..i], key)
  }

  /** Every item `uniqueBy` keeps is the first item of the input carrying its key value. */
  lemma {:induction false} FirstOccurrencesAreFirst<T, K>(s: seq<T>, key: T -> K)
    ensures forall j :: 0 <= j < |FirstOccurrences(s, key)| ==>
      FirstWithKey(s, key, FirstOccurrences(s, key)[j])
    decreases |s|
  {
    if s != [] {
      var p, x := s[..|s| - 1], s[|s| - 1];
      FirstOccurrencesAreFirst(p, key);
      var r := FirstOccurrences(s, key);
      var rp := FirstOccurrences(p, key);
      forall j | 0 <= j < |r| ensures FirstWithKey(s, key, r[j]) {
        if j < |rp| {
          assert FirstWithKey(p, key, rp[j]);
          var i :| 0 <= i < |p| && p[i] == rp[j] && key(p[i]) !in KeyValues(p[..i], key);
          assert r[j] == rp[j];
          assert s[..i] == p[..i];
          assert s[i] == p[i];
        } else {
          var i := |s| - 1;
          assert r[j] == x && s[..i] == p;
          assert key(x) !in KeyValues(p, key);
          assert 0 <= i < |s| && s[i] == r[j] && key(s[i]) !in KeyValues(s[..i], key);
        }
      }
    }
  }
}
