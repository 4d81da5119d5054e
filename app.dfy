/** The main page of the demo (src/App.jsx) without its rendering: the list of
    10000 items rebuilt on every render, the case-insensitive search over it, the
    first page of 50 results, and the two counters. */
module App {
  import opened Text

  /** Number of items `createExpensiveData` builds. */
  const ItemCount: nat := 10000
  /** Number of filtered items the list shows. */
  const PageSize: nat := 50

  /** One list item. `value` is `Math.random() * 1000`, a floating-point number
      the model treats as an opaque real. */
  datatype Item = Item(id: int, name: string, value: real, description: string)

  /** The text in front of the item number in an item's name. */
  const NamePrefix: string := "Item "
  /** How many times an item description repeats its sentence. */
  const DescriptionCopies: nat := 10

  /** The description of item `i`: a fixed sentence around `i`, written ten times.
      It begins with that sentence and is exactly ten sentences long. */
  function ItemDescription(i: nat): (d: string)
    ensures "这是第" + NatToString(i) + "个项目的描述信息" <= d
    ensures |d| == DescriptionCopies * |"这是第" + NatToString(i) + "个项目的描述信息"|
  {
    Repeat("这是第" + NatToString(i) + "个项目的描述信息", DescriptionCopies)
  }

  /** The item the loop pushes at index `i`, where `draw` is the value
      `Math.random()` returned for it. */
  function ExpensiveItem(i: nat, draw: real): (item: Item)
    ensures item.id == i && item.name == NamePrefix + NatToString(i)
    ensures 0.0 <= draw < 1.0 ==> 0.0 <= item.value < 1000.0
  {
    Item(i, NamePrefix + NatToString(i), draw * 1000.0, ItemDescription(i))
  }

  /** The list `createExpensiveData` returns when the `k`-th call to
      `Math.random()` returns `draws(k)`. */
  function ExpensiveData(draws: nat -> real): (data: seq<Item>)
    ensures |data| == ItemCount
    ensures forall i :: 0 <= i < ItemCount ==> data[i] == ExpensiveItem(i, draws(i))
  {
    seq(ItemCount, i requires 0 <= i => ExpensiveItem(i, draws(i)))
  }

  /** A list with the right item at every index is the generated list. */
  lemma ExpensiveDataUnique(data: seq<Item>, draws: nat -> real)
    requires |data| == ItemCount
    requires forall k :: 0 <= k < ItemCount ==> data[k] == ExpensiveItem(k, draws(k))
    ensures data == ExpensiveData(draws)
  {
  }

  /** `createExpensiveData`: a counting loop that pushes one item per index. */
  method CreateExpensiveData(draws: nat -> real) returns (data: seq<Item>)
    ensures data == ExpensiveData(draws)
  {
    data := [];
    var i := 0;
    while i < ItemCount
      invariant 0 <= i <= ItemCount
      invariant data == seq(i, k requires 0 <= k < i => ExpensiveItem(k, draws(k)))
    {
      data := data + [ExpensiveItem(i, draws(i))];
      i := i + 1;
    }
    ExpensiveDataUnique(data, draws);
  }

  /** Distinct items of the generated list have distinct ids and distinct names. */
  lemma ExpensiveDataDistinct(draws: nat -> real, i: nat, j: nat)
    requires i < ItemCount && j < ItemCount && i != j
    ensures ExpensiveData(draws)[i].id != ExpensiveData(draws)[j].id
    ensures ExpensiveData(draws)[i].name != ExpensiveData(draws)[j].name
  {
    var data := ExpensiveData(draws);
    if data[i].name == data[j].name {
      PrefixedNatInjective(NamePrefix, i, j);
    }
  }

  /** The filter's test: the lower-cased name or the lower-cased description
      includes the lower-cased search term. */
  predicate Matches(item: Item, term: string) {
    Contains(ToLower(item.name), ToLower(term)) || Contains(ToLower(item.description), ToLower(term))
  }

  /** `expensiveData.filter(...)`: the items that match, in their original order. */
  function Filter(data: seq<Item>, term: string): (r: seq<Item>)
    ensures |r| <= |data|
    ensures forall x :: x in r ==> x in data && Matches(x, term)
    decreases |data|
  {
    if data == [] then []
    else if Matches(data[0], term) then [data[0]] + Filter(data[1..], term)
    else Filter(data[1..], term)
  }

  /** `a` is obtained from `b` by deleting some of its elements. */
  predicate IsSubsequence<T(==)>(a: seq<T>, b: seq<T>)
    decreases |b|
  {
    a == [] || (b != [] && ((a[0] == b[0] && IsSubsequence(a[1..], b[1..])) || IsSubsequence(a, b[1..])))
  }

  /** The filtered list keeps the data's order: it is a subsequence of the data. */
  lemma {:induction false} FilterIsSubsequence(data: seq<Item>, term: string)
    ensures IsSubsequence(Filter(data, term), data)
    decreases |data|
  {
    if data != [] {
      FilterIsSubsequence(data[1..], term);
      var r := Filter(data, term);
      if Matches(data[0], term) {
        assert r[0] == data[0] && r[1..] == Filter(data[1..], term);
      }
    }
  }

  /** An item is in the filtered list exactly when it is in the data and matches. */
  lemma {:induction false} FilterMembership(data: seq<Item>, term: string, x: Item)
    ensures x in Filter(data, term) <==> x in data && Matches(x, term)
    decreases |data|
  {
    if data != [] {
      FilterMembership(data[1..], term, x);
      assert data == [data[0]] + data[1..];
    }
  }

  /** The filter looks at one item at a time: a single item is kept exactly when
      it matches. */
  lemma FilterSingleton(x: Item, term: string)
    ensures Filter([x], term) == if Matches(x, term) then [x] else []
  {
    assert [x][1..] == [];
  }

  /** Filtering two lists one after the other is filtering their concatenation:
      each position of the data is kept or dropped on its own. */
  lemma {:induction false} FilterConcat(a: seq<Item>, b: seq<Item>, term: string)
    ensures Filter(a + b, term) == Filter(a, term) + Filter(b, term)
    decreases |a|
  {
    if a == [] {
      assert a + b == b;
    } else {
      assert (a + b)[0] == a[0];
      assert (a + b)[1..] == a[1..] + b;
      FilterConcat(a[1..], b, term);
    }
  }

  /** The number of positions of `data` whose item matches, counted from the end. */
  function CountMatches(data: seq<Item>, term: string): (n: nat)
    ensures n <= |data|
    decreases |data|
  {
    if data == [] then 0
    else CountMatches(data[..|data| - 1], term) + (if Matches(data[|data| - 1], term) then 1 else 0)
  }

  /** The filtered list has one entry per matching position of the data, so an
      item that occurs twice and matches is kept twice. */
  lemma {:induction false} FilterLengthCountsMatches(data: seq<Item>, term: string)
    ensures |Filter(data, term)| == CountMatches(data, term)
    decreases |data|
  {
    if data != [] {
      var init, last := data[..|data| - 1], data[|data| - 1];
      assert data == init + [last];
      FilterConcat(init, [last], term);
      FilterSingleton(last, term);
      FilterLengthCountsMatches(init, term);
    }
  }

  /** When every item matches, the filter keeps the whole list. */
  lemma {:induction false} FilterAllMatch(data: seq<Item>, term: string)
    requires forall x :: x in data ==> Matches(x, term)
    ensures Filter(data, term) == data
    decreases |data|
  {
    if data != [] {
      assert data[0] in data;
      assert forall x :: x in data[1..] ==> x in data;
      FilterAllMatch(data[1..], term);
    }
  }

  /** The empty search term keeps every item. */
  lemma FilterEmptyTerm(data: seq<Item>)
    ensures Filter(data, "") == data
    ensures |Filter(data, "")| == |data|
  {
    forall x | x in data
      ensures Matches(x, "")
    {
      ContainsEmpty(ToLower(x.name));
    }
    FilterAllMatch(data, "");
  }

  /** Search terms that agree once lower-cased give the same filtered list. */
  lemma {:induction false} FilterIgnoresCase(data: seq<Item>, t1: string, t2: string)
    requires ToLower(t1) == ToLower(t2)
    ensures Filter(data, t1) == Filter(data, t2)
    decreases |data|
  {
    if data != [] {
      FilterIgnoresCase(data[1..], t1, t2);
    }
  }

  /** Searching for a lower-cased term is the same as searching for the term. */
  lemma FilterLowerCasedTerm(data: seq<Item>, term: string)
    ensures Filter(data, ToLower(term)) == Filter(data, term)
  {
    ToLowerIdempotent(term);
    FilterIgnoresCase(data, ToLower(term), term);
  }

  /** The name prefix, lower-cased, starts with "item". */
  lemma LowerNamePrefix()
    ensures "item" <= ToLower(NamePrefix)
  {
    var r := ToLower(NamePrefix);
    assert r[0] == 'i' && r[1] == 't' && r[2] == 'e' && r[3] == 'm';
  }

  /** Every generated name, lower-cased, starts with "item". */
  lemma NameIncludesItem(i: nat)
    ensures Contains(ToLower(NamePrefix + NatToString(i)), "item")
  {
    ToLowerConcat(NamePrefix, NatToString(i));
    LowerNamePrefix();
    ContainsPrefixOf(ToLower(NamePrefix), ToLower(NatToString(i)), "item");
  }

  /** Searching "ITEM" finds every generated item, through its name. */
  lemma SearchItemFindsAll(draws: nat -> real)
    ensures Filter(ExpensiveData(draws), "ITEM") == ExpensiveData(draws)
  {
    var data := ExpensiveData(draws);
    var low := ToLower("ITEM");
    assert low[0] == 'i' && low[1] == 't' && low[2] == 'e' && low[3] == 'm';
    assert low == "item";
    forall x | x in data
      ensures Matches(x, "ITEM")
    {
      var i :| 0 <= i < |data| && data[i] == x;
      NameIncludesItem(i);
    }
    FilterAllMatch(data, "ITEM");
  }

  /** `x` and `y` agree in everything but `value`. */
  predicate SameButValue(x: Item, y: Item) {
    x.id == y.id && x.name == y.name && x.description == y.description
  }

  /** Two lists that differ only in their random values filter to lists that
      differ only in their random values: re-rendering selects the same items. */
  lemma {:induction false} FilterIgnoresValues(a: seq<Item>, b: seq<Item>, term: string)
    requires |a| == |b|
    requires forall i :: 0 <= i < |a| ==> SameButValue(a[i], b[i])
    ensures |Filter(a, term)| == |Filter(b, term)|
    ensures forall k :: 0 <= k < |Filter(a, term)| ==> SameButValue(Filter(a, term)[k], Filter(b, term)[k])
    decreases |a|
  {
    if a != [] {
      FilterIgnoresValues(a[1..], b[1..], term);
      assert SameButValue(a[0], b[0]);
      assert Matches(a[0], term) == Matches(b[0], term);
    }
  }

  /** Two renders with different random draws select the same items. */
  lemma RerenderSelectsSameItems(s: AppState, d1: nat -> real, d2: nat -> real)
    ensures |FilteredData(s, d1)| == |FilteredData(s, d2)|
    ensures forall k :: 0 <= k < |FilteredData(s, d1)| ==>
      SameButValue(FilteredData(s, d1)[k], FilteredData(s, d2)[k])
  {
    FilterIgnoresValues(ExpensiveData(d1), ExpensiveData(d2), s.searchTerm);
  }

  /** `filteredData.slice(0, 50)`: the items the page renders. */
  function FirstPage(filtered: seq<Item>): (page: seq<Item>)
    ensures |page| == if |filtered| < PageSize then |filtered| else PageSize
    ensures page <= filtered
  {
    if |filtered| < PageSize then filtered else filtered[..PageSize]
  }

  /** The three state registers of the page. */
  datatype AppState = AppState(count: int, searchTerm: string, updateCounter: int)

  /** The registers' initial values: both counters 0, the search box empty. */
  function InitialAppState(): (s: AppState)
    ensures s.count == 0 && s.updateCounter == 0 && s.searchTerm == ""
  {
    AppState(0, "", 0)
  }

  /** The click counter button: `setCount(count + 1)`. */
  function CountClick(s: AppState): (t: AppState)
    ensures t.count == s.count + 1
    ensures t.searchTerm == s.searchTerm && t.updateCounter == s.updateCounter
  {
    s.(count := s.count + 1)
  }

  /** `handleItemUpdate(itemId)`: the id only goes to the console; the update
      counter goes up by one. */
  function HandleItemUpdate(s: AppState, itemId: int): (t: AppState)
    ensures t.updateCounter == s.updateCounter + 1
    ensures t.count == s.count && t.searchTerm == s.searchTerm
  {
    s.(updateCounter := s.updateCounter + 1)
  }

  /** `handleSearch(term)`: the search box's new text replaces the search term. */
  function HandleSearch(s: AppState, term: string): (t: AppState)
    ensures t.searchTerm == term
    ensures t.count == s.count && t.updateCounter == s.updateCounter
  {
    s.(searchTerm := term)
  }

  /** What one render derives from the registers: the filtered list of a freshly
      generated item list. */
  function FilteredData(s: AppState, draws: nat -> real): (r: seq<Item>)
    ensures |r| <= ItemCount
    ensures forall x :: x in r ==> x in ExpensiveData(draws) && Matches(x, s.searchTerm)
  {
    Filter(ExpensiveData(draws), s.searchTerm)
  }

  /** A user action on the page. */
  datatype AppEvent = ClickCount | UpdateItem(itemId: int) | Search(term: string)

  function Step(s: AppState, e: AppEvent): AppState {
    match e
    case ClickCount => CountClick(s)
    case UpdateItem(id) => HandleItemUpdate(s, id)
    case Search(term) => HandleSearch(s, term)
  }

  /** The registers after a series of actions, one render apart. */
  function Run(s: AppState, events: seq<AppEvent>): AppState
    decreases |events|
  {
    if events == [] then s else Run(Step(s, events[0]), events[1..])
  }

  /** The number of counter clicks in a series of actions. */
  function CountClicks(events: seq<AppEvent>): (n: nat)
    ensures n <= |events|
    decreases |events|
  {
    if events == [] then 0
    else (if events[0].ClickCount? then 1 else 0) + CountClicks(events[1..])
  }

  /** The number of item updates in a series of actions. */
  function CountItemUpdates(events: seq<AppEvent>): (n: nat)
    ensures n <= |events|
    decreases |events|
  {
    if events == [] then 0
    else (if events[0].UpdateItem? then 1 else 0) + CountItemUpdates(events[1..])
  }

  /** The search term after a series of actions: that of the last search, if any. */
  function LastSearch(term: string, events: seq<AppEvent>): string
    decreases |events|
  {
    if events == [] then term
    else LastSearch(if events[0].Search? then events[0].term else term, events[1..])
  }

  /** Over any series of actions, `count` rises by the number of counter clicks,
      `updateCounter` by the number of item updates, and the search term is that
      of the last search. */
  lemma {:induction false} RunCounts(s: AppState, events: seq<AppEvent>)
    ensures Run(s, events).count == s.count + CountClicks(events)
    ensures Run(s, events).updateCounter == s.updateCounter + CountItemUpdates(events)
    ensures Run(s, events).searchTerm == LastSearch(s.searchTerm, events)
    decreases |events|
  {
    if events != [] {
      RunCounts(Step(s, events[0]), events[1..]);
    }
  }
}
