/** Message records as they travel between the store and a chat screen: the
    JSON objects the screens push, the snapshot the store delivers, the list a
    snapshot is projected into, and the in-place sort of that list by
    timestamp. */
module Records {

  /** A JSON field value. `Undefined` is the JavaScript `undefined` a record
      can carry before it is written (the store refuses it). */
  datatype Value = Str(s: string) | Num(n: int) | Undefined

  /** A record, either stored or displayed: field name to value. */
  type Record = map<string, Value>

  /** One child of a store location: its key and its value. */
  datatype Child = Child(key: string, value: Record)

  /** What `snapshot.val()` gives: `null` for a location with no data,
      otherwise its children in the order `Object.entries` lists them. */
  datatype Snapshot = Null | Children(entries: seq<Child>)

  // ---------------------------------------------------------------------------
  // Projection

  /** `{ id: key, ...value }`: every field of `value` is copied after `id`, so
      a stored `id` field wins over the key. */
  function Project(key: string, value: Record): (item: Record)
    ensures item.Keys == value.Keys + {"id"}
    ensures item["id"] == if "id" in value then value["id"] else Str(key)
    ensures forall f :: f in value ==> item[f] == value[f]
  {
    map["id" := Str(key)] + value
  }

  /** `Object.entries(snapshot.val() || {}).map(([key, value]) => ({ id: key, ...value }))`:
      a null snapshot gives the empty list, otherwise one item per child, in
      order. */
  function Parse(s: Snapshot): (items: seq<Record>)
    ensures s.Null? ==> items == []
    ensures s.Children? ==> |items| == |s.entries|
    ensures s.Children? ==> forall i :: 0 <= i < |items| ==>
              items[i] == Project(s.entries[i].key, s.entries[i].value)
  {
    match s
    case Null => []
    case Children(es) => seq(|es|, i requires 0 <= i < |es| => Project(es[i].key, es[i].value))
  }

  /** When no stored value has its own `id`, the items' ids are exactly the
      snapshot's keys, in order. */
  lemma ParseIdsAreKeys(es: seq<Child>)
    requires forall i :: 0 <= i < |es| ==> "id" !in es[i].value
    ensures var items := Parse(Children(es));
            forall i :: 0 <= i < |items| ==> items[i]["id"] == Str(es[i].key)
  {
  }

  // ---------------------------------------------------------------------------
  // Ordering by timestamp

  /** The item's `timestamp` is a number, so `a.timestamp - b.timestamp` is one too. */
  predicate HasTimestamp(item: Record) {
    "timestamp" in item && item["timestamp"].Num?
  }

  function Stamp(item: Record): int
    requires HasTimestamp(item)
  {
    item["timestamp"].n
  }

  predicate AllStamped(s: seq<Record>) {
    forall i :: 0 <= i < |s| ==> HasTimestamp(s[i])
  }

  /** Non-decreasing by timestamp. */
  predicate SortedByStamp(s: seq<Record>)
    requires AllStamped(s)
  {
    forall i, j :: 0 <= i < j < |s| ==> Stamp(s[i]) <= Stamp(s[j])
  }

  /** A snapshot whose stored values all carry a numeric timestamp projects to
      a list whose items all do: the projection only adds `id`. */
  lemma ParseKeepsStamps(es: seq<Child>)
    requires forall i :: 0 <= i < |es| ==> HasTimestamp(es[i].value)
    ensures AllStamped(Parse(Children(es)))
    ensures forall i :: 0 <= i < |es| ==> Stamp(Parse(Children(es))[i]) == Stamp(es[i].value)
  {
  }

  /** `a.sort((a, b) => a.timestamp - b.timestamp)`, in place: afterwards the
      array is non-decreasing by timestamp and holds the same items. The order
      of items with equal timestamps is left open. */
  method SortByTimestamp(a: array<Record>)
    requires AllStamped(a[..])
    modifies a
    ensures AllStamped(a[..]) && SortedByStamp(a[..])
    ensures multiset(a[..]) == old(multiset(a[..]))
  {
    var i := 0;
    while i < a.Length
      invariant 0 <= i <= a.Length
      invariant AllStamped(a[..]) && SortedByStamp(a[..i])
      invariant multiset(a[..]) == old(multiset(a[..]))
    {
      InsertLast(a, i);
      i := i + 1;
    }
    assert a[..a.Length] == a[..];
  }

  /** One step of insertion sort: moves `a[i]` down into the sorted prefix
      `a[..i]`, leaving `a[..i + 1]` sorted, holding the same items, and the
      rest of `a` as it was. */
  method InsertLast(a: array<Record>, i: nat)
    requires i < a.Length
    requires AllStamped(a[..]) && SortedByStamp(a[..i])
    modifies a
    ensures AllStamped(a[..]) && SortedByStamp(a[..i + 1])
    ensures multiset(a[..i + 1]) == old(multiset(a[..i + 1]))
    ensures a[i + 1..] == old(a[i + 1..])
    ensures multiset(a[..]) == old(multiset(a[..]))
  {
    SiftDown(a, i);
    SameSuffixSamePrefix(a[..], old(a[..]), i + 1);
  }

  /** The loop of the insertion step: adjacent swaps carry `a[i]` down while
      its predecessor has a larger timestamp. */
  method SiftDown(a: array<Record>, i: nat)
    requires i < a.Length
    requires AllStamped(a[..]) && SortedByStamp(a[..i])
    modifies a
    ensures AllStamped(a[..]) && SortedByStamp(a[..i + 1])
    ensures multiset(a[..]) == old(multiset(a[..]))
    ensures forall m :: i < m < a.Length ==> a[m] == old(a[m])
  {
    var j := i;
    while j > 0 && Stamp(a[j - 1]) > Stamp(a[j])
      invariant 0 <= j <= i
      invariant AllStamped(a[..]) && SortedExcept(a[..], i + 1, j)
      invariant multiset(a[..]) == old(multiset(a[..]))
      invariant forall m :: i < m < a.Length ==> a[m] == old(a[m])
    {
      SwapStep(a[..], i + 1, j);
      SwapAdjacent(a, j);
      j := j - 1;
    }
    SortedAtRest(a[..], i + 1, j);
  }

  /** `s[..n]` is in order, except perhaps between the moving item `s[j]` and
      the items before it. */
  predicate SortedExcept(s: seq<Record>, n: nat, j: nat)
    requires AllStamped(s) && n <= |s|
  {
    forall k, l :: 0 <= k < l < n && l != j ==> Stamp(s[k]) <= Stamp(s[l])
  }

  /** Swapping the moving item with a larger predecessor moves the one place
      out of order down by one. */
  lemma SwapStep(s: seq<Record>, n: nat, j: nat)
    requires AllStamped(s) && 0 < j < n <= |s|
    requires SortedExcept(s, n, j) && Stamp(s[j - 1]) > Stamp(s[j])
    ensures var t := s[j - 1 := s[j]][j := s[j - 1]];
            AllStamped(t) && SortedExcept(t, n, j - 1)
  {
  }

  /** Once the moving item is not below its predecessor, the whole prefix is
      in order. */
  lemma SortedAtRest(s: seq<Record>, n: nat, j: nat)
    requires AllStamped(s) && j < n <= |s|
    requires SortedExcept(s, n, j)
    requires j == 0 || Stamp(s[j - 1]) <= Stamp(s[j])
    ensures SortedByStamp(s[..n])
  {
    forall k, l | 0 <= k < l < n
      ensures Stamp(s[k]) <= Stamp(s[l])
    {
      if l == j && k < j - 1 {
        assert Stamp(s[k]) <= Stamp(s[j - 1]);
      }
    }
  }

  /** Exchanges `a[j - 1]` and `a[j]`, which keeps the items of `a` and
      leaves every later cell alone. */
  method SwapAdjacent(a: array<Record>, j: nat)
    requires 0 < j < a.Length
    modifies a
    ensures a[..] == old(a[..])[j - 1 := old(a[j])][j := old(a[j - 1])]
    ensures forall m :: j < m < a.Length ==> a[m] == old(a[m])
    ensures multiset(a[..]) == old(multiset(a[..]))
  {
    a[j - 1], a[j] := a[j], a[j - 1];
  }

  /** Two arrangements of the same items that agree from `n` on hold the same
      items before `n`. */
  lemma SameSuffixSamePrefix(s: seq<Record>, t: seq<Record>, n: nat)
    requires n <= |s| == |t|
    requires multiset(s) == multiset(t)
    requires forall m :: n <= m < |s| ==> s[m] == t[m]
    ensures s[n..] == t[n..]
    ensures multiset(s[..n]) == multiset(t[..n])
  {
    assert s[n..] == t[n..];
    assert s == s[..n] + s[n..];
    assert t == t[..n] + t[n..];
    assert multiset(s) == multiset(s[..n]) + multiset(s[n..]);
    assert multiset(t) == multiset(t[..n]) + multiset(t[n..]);
    assert multiset(s[..n]) == multiset(s) - multiset(s[n..]);
    assert multiset(t[..n]) == multiset(t) - multiset(t[n..]);
  }
}
