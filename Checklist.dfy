/**
 * The checklist screen: the fetched item list sorted by name, the search
 * filter, the split into remaining and completed items for the active
 * session, the progress ratio, the displayed tab and the finish action.
 */
module Checklist {
  import opened Wrappers
  import opened Inventory
  import opened FirestoreApi

  // ---------------------------------------------------------------------
  // Sequences kept in order

  /** The elements of xs that satisfy p, in their original order (Array.prototype.filter). */
  function Keep<T(!new)>(xs: seq<T>, p: T -> bool): (r: seq<T>)
    ensures |r| <= |xs|
    ensures forall x :: x in r <==> x in xs && p(x)
  {
    if xs == [] then []
    else (if p(xs[0]) then [xs[0]] else []) + Keep(xs[1..], p)
  }

  /** a can be obtained from b by deleting elements. */
  predicate IsSubsequence<T(==)>(a: seq<T>, b: seq<T>)
    decreases |b|
  {
    if a == [] then true
    else if b == [] then false
    else if a[0] == b[0] then IsSubsequence(a[1..], b[1..])
    else IsSubsequence(a, b[1..])
  }

  /** Filtering keeps the survivors in their original order. */
  lemma {:induction false} KeepIsSubsequence<T(!new)>(xs: seq<T>, p: T -> bool)
    ensures IsSubsequence(Keep(xs, p), xs)
  {
    if xs != [] {
      KeepIsSubsequence(xs[1..], p);
      var rest := Keep(xs[1..], p);
      if p(xs[0]) {
        assert Keep(xs, p) == [xs[0]] + rest;
        assert ([xs[0]] + rest)[1..] == rest;
      } else {
        assert Keep(xs, p) == rest;
        if rest != [] {
          assert rest[0] in rest;
          assert rest[0] != xs[0];
        }
      }
    }
  }

  /** Filtering keeps every occurrence of an element that passes, and none of one that fails. */
  lemma {:induction false} KeepCounts<T(!new)>(xs: seq<T>, p: T -> bool)
    ensures forall x :: multiset(Keep(xs, p))[x] == if p(x) then multiset(xs)[x] else 0
  {
    if xs != [] {
      KeepCounts(xs[1..], p);
      assert xs == [xs[0]] + xs[1..];
    }
  }

  /** Two complementary filters split a sequence: their lengths add up to its length. */
  lemma {:induction false} KeepComplementLength<T(!new)>(xs: seq<T>, p: T -> bool, q: T -> bool)
    requires forall x :: q(x) == !p(x)
    ensures |Keep(xs, p)| + |Keep(xs, q)| == |xs|
  {
    if xs != [] {
      KeepComplementLength(xs[1..], p, q);
    }
  }

  // ---------------------------------------------------------------------
  // Search

  /** ASCII upper-case letters to lower case; every other character is kept. */
  function LowerChar(c: char): char
  {
    if 'A' <= c <= 'Z' then (c as int + 32) as char else c
  }

  function Lower(s: string): (r: string)
    ensures |r| == |s|
  {
    seq(|s|, i requires 0 <= i < |s| => LowerChar(s[i]))
  }

  predicate OccursAt(hay: string, needle: string, i: int)
  {
    0 <= i && i + |needle| <= |hay| && hay[i..i + |needle|] == needle
  }

  /** String.prototype.includes. */
  predicate Contains(hay: string, needle: string)
  {
    exists i :: 0 <= i <= |hay| - |needle| && OccursAt(hay, needle, i)
  }

  /** The item's lower-cased name contains the lower-cased term. */
  function NameMatches(term: string): Item -> bool
  {
    (x: Item) => Contains(Lower(x.doc.name), Lower(term))
  }

  /** The items the search keeps: all of them for an empty term. */
  function Filtered(items: seq<Item>, searchTerm: string): seq<Item>
  {
    if searchTerm == "" then items else Keep(items, NameMatches(searchTerm))
  }

  /**
   * The search keeps exactly the items whose lower-cased name contains the
   * lower-cased term, in their order; the empty term keeps the whole list.
   */
  lemma FilteredSpec(items: seq<Item>, searchTerm: string)
    ensures searchTerm == "" ==> Filtered(items, searchTerm) == items
    ensures forall x :: x in Filtered(items, searchTerm) <==>
      x in items && Contains(Lower(x.doc.name), Lower(searchTerm))
    ensures |Filtered(items, searchTerm)| <= |items|
    ensures IsSubsequence(Filtered(items, searchTerm), items)
    ensures forall x :: x in Filtered(items, searchTerm) ==>
      multiset(Filtered(items, searchTerm))[x] == multiset(items)[x]
  {
    if searchTerm == "" {
      forall x | x in items ensures Contains(Lower(x.doc.name), Lower(searchTerm)) {
        assert OccursAt(Lower(x.doc.name), Lower(searchTerm), 0);
      }
      SubsequenceOfSelf(items);
    } else {
      KeepIsSubsequence(items, NameMatches(searchTerm));
      KeepCounts(items, NameMatches(searchTerm));
    }
  }

  lemma {:induction false} SubsequenceOfSelf<T>(xs: seq<T>)
    ensures IsSubsequence(xs, xs)
  {
    if xs != [] {
      SubsequenceOfSelf(xs[1..]);
    }
  }

  // ---------------------------------------------------------------------
  // Partition by the active session

  function NotCountedIn(sessionId: Option<SessionId>): Item -> bool
  {
    (x: Item) => x.doc.lastCountedInSessionId != sessionId
  }

  function CountedIn(sessionId: Option<SessionId>): Item -> bool
  {
    (x: Item) => x.doc.lastCountedInSessionId == sessionId
  }

  /** remainingItems: the filtered items not yet counted in this session. */
  function Remaining(filtered: seq<Item>, sessionId: Option<SessionId>): seq<Item>
  {
    Keep(filtered, NotCountedIn(sessionId))
  }

  /** completedItems: the filtered items counted in this session. */
  function CompletedItems(filtered: seq<Item>, sessionId: Option<SessionId>): seq<Item>
  {
    Keep(filtered, CountedIn(sessionId))
  }

  /**
   * Remaining and completed split the filtered list: each item lands in
   * exactly one of them according to its marker, both keep the filtered
   * order, and their lengths add up to the filtered length.
   */
  lemma PartitionSpec(filtered: seq<Item>, sessionId: Option<SessionId>)
    ensures forall x :: x in Remaining(filtered, sessionId) <==>
      x in filtered && x.doc.lastCountedInSessionId != sessionId
    ensures forall x :: x in CompletedItems(filtered, sessionId) <==>
      x in filtered && x.doc.lastCountedInSessionId == sessionId
    ensures forall x :: !(x in Remaining(filtered, sessionId) && x in CompletedItems(filtered, sessionId))
    ensures |Remaining(filtered, sessionId)| + |CompletedItems(filtered, sessionId)| == |filtered|
    ensures IsSubsequence(Remaining(filtered, sessionId), filtered)
    ensures IsSubsequence(CompletedItems(filtered, sessionId), filtered)
  {
    KeepComplementLength(filtered, NotCountedIn(sessionId), CountedIn(sessionId));
    KeepIsSubsequence(filtered, NotCountedIn(sessionId));
    KeepIsSubsequence(filtered, CountedIn(sessionId));
  }

  /** An item whose marker is the session shows up as completed whenever the search keeps it. */
  lemma CountedItemIsCompleted(items: seq<Item>, searchTerm: string, sessionId: Option<SessionId>, x: Item)
    requires x in items && x.doc.lastCountedInSessionId == sessionId
    requires searchTerm == "" || Contains(Lower(x.doc.name), Lower(searchTerm))
    ensures x in CompletedItems(Filtered(items, searchTerm), sessionId)
    ensures x !in Remaining(Filtered(items, searchTerm), sessionId)
  {
    FilteredSpec(items, searchTerm);
    PartitionSpec(Filtered(items, searchTerm), sessionId);
  }

  // ---------------------------------------------------------------------
  // Progress and the displayed list

  /** The progress percentage: 0 for an empty list, otherwise completed over total, times 100. */
  function Progress(completedCount: nat, totalCount: nat): real
  {
    if totalCount > 0 then (completedCount as real / totalCount as real) * 100.0 else 0.0
  }

  /** Progress never divides by zero and stays within 0..100 as long as completed does not exceed the total. */
  lemma ProgressBounds(completedCount: nat, totalCount: nat)
    requires completedCount <= totalCount
    ensures totalCount == 0 ==> Progress(completedCount, totalCount) == 0.0
    ensures 0.0 <= Progress(completedCount, totalCount) <= 100.0
    ensures totalCount > 0 ==> (Progress(completedCount, totalCount) == 100.0 <==> completedCount == totalCount)
  {
    if totalCount > 0 {
      var c, t := completedCount as real, totalCount as real;
      assert c / t * t == c;
      assert c / t <= 1.0;
      assert c / t == 1.0 <==> c == t;
    }
  }

  /** The checklist's progress: completed is counted after the search, the total before it, so it lies in 0..100. */
  lemma ChecklistProgressBounds(allItems: seq<Item>, searchTerm: string, sessionId: Option<SessionId>)
    ensures var p := Progress(|CompletedItems(Filtered(allItems, searchTerm), sessionId)|, |allItems|);
      0.0 <= p <= 100.0 && (allItems == [] ==> p == 0.0)
  {
    FilteredSpec(allItems, searchTerm);
    PartitionSpec(Filtered(allItems, searchTerm), sessionId);
    ProgressBounds(|CompletedItems(Filtered(allItems, searchTerm), sessionId)|, |allItems|);
  }

  datatype Tab = RemainingTab | CompletedTab

  /** listToDisplay: the remaining items on the remaining tab, the completed ones otherwise. */
  function ListToDisplay(activeTab: Tab, remaining: seq<Item>, completed: seq<Item>): seq<Item>
  {
    if activeTab == RemainingTab then remaining else completed
  }

  /**
   * The displayed items are exactly the items that pass the search and are
   * counted in the session when, and only when, the completed tab is shown.
   */
  lemma DisplayedItemsMatchTab(allItems: seq<Item>, searchTerm: string, sessionId: Option<SessionId>, activeTab: Tab)
    ensures var filtered := Filtered(allItems, searchTerm);
      forall x :: x in ListToDisplay(activeTab, Remaining(filtered, sessionId), CompletedItems(filtered, sessionId)) ==>
        x in allItems && Contains(Lower(x.doc.name), Lower(searchTerm))
        && (x.doc.lastCountedInSessionId == sessionId <==> activeTab == CompletedTab)
    ensures var filtered := Filtered(allItems, searchTerm);
      forall x :: (&& x in allItems && (searchTerm == "" || Contains(Lower(x.doc.name), Lower(searchTerm)))
                   && (x.doc.lastCountedInSessionId == sessionId <==> activeTab == CompletedTab)) ==>
        x in ListToDisplay(activeTab, Remaining(filtered, sessionId), CompletedItems(filtered, sessionId))
  {
    FilteredSpec(allItems, searchTerm);
    PartitionSpec(Filtered(allItems, searchTerm), sessionId);
  }

  // ---------------------------------------------------------------------
  // Sorting by name

  /** A name ordering: total and transitive (locale-aware comparison is left abstract). */
  ghost predicate TotalPreorder(le: (string, string) -> bool)
  {
    && (forall x, y :: le(x, y) || le(y, x))
    && (forall x, y, z :: le(x, y) && le(y, z) ==> le(x, z))
  }

  ghost predicate SortedByName(s: seq<Item>, le: (string, string) -> bool)
  {
    forall i, j :: 0 <= i < j < |s| ==> le(s[i].doc.name, s[j].doc.name)
  }

  /** Array.prototype.sort with a name comparator: in place, sorted by name, a permutation of the input. */
  method SortByName(a: array<Item>, le: (string, string) -> bool)
    requires TotalPreorder(le)
    modifies a
    ensures SortedByName(a[..], le)
    ensures multiset(a[..]) == multiset(old(a[..]))
  {
    var i := 0;
    while i < a.Length
      invariant 0 <= i <= a.Length
      invariant SortedByName(a[..i], le)
      invariant multiset(a[..]) == multiset(old(a[..]))
    {
      InsertIntoSorted(a, i, le);
      i := i + 1;
    }
    assert a[..a.Length] == a[..];
  }

  /** Sinks a[i] into the sorted prefix a[..i], so that a[..i+1] is sorted; the rest of the array is untouched. */
  method InsertIntoSorted(a: array<Item>, i: nat, le: (string, string) -> bool)
    requires TotalPreorder(le)
    requires i < a.Length && SortedByName(a[..i], le)
    modifies a
    ensures SortedByName(a[..i + 1], le)
    ensures multiset(a[..]) == multiset(old(a[..]))
    ensures a[i + 1..] == old(a[i + 1..])
  {
    var j := i;
    while j > 0 && !le(a[j - 1].doc.name, a[j].doc.name)
      invariant 0 <= j <= i
      invariant forall p, q :: 0 <= p < q <= i && p != j && q != j ==> le(a[p].doc.name, a[q].doc.name)
      invariant forall q :: j < q <= i ==> le(a[j].doc.name, a[q].doc.name)
      invariant multiset(a[..]) == multiset(old(a[..]))
      invariant a[i + 1..] == old(a[i + 1..])
    {
      SwapWithPrevious(a, j);
      j := j - 1;
    }
    forall p, q | 0 <= p < q <= i ensures le(a[p].doc.name, a[q].doc.name) {
      if q == j && p < j - 1 {
        assert le(a[p].doc.name, a[j - 1].doc.name);
      }
    }
  }

  /** Exchanges a[j - 1] and a[j]. */
  method SwapWithPrevious(a: array<Item>, j: nat)
    requires 0 < j < a.Length
    modifies a
    ensures a[..] == old(a[..])[j - 1 := old(a[j])][j := old(a[j - 1])]
    ensures multiset(a[..]) == multiset(old(a[..]))
  {
    a[j - 1], a[j] := a[j], a[j - 1];
  }

  // ---------------------------------------------------------------------
  // The screen

  const LoadFailedMessage: string := "Failed to load inventory list."

  /** The confirmation the finish button asks for. */
  datatype FinishPrompt = ConfirmWithRemaining(count: nat) | ConfirmPlain

  class ChecklistScreen {
    var allItems: seq<Item>
    var loading: bool
    var error: Option<string>
    var activeTab: Tab
    var searchTerm: string

    /** A freshly mounted screen: nothing loaded yet, loading, remaining tab, empty search. */
    constructor ()
      ensures allItems == [] && loading && error == None
      ensures activeTab == RemainingTab && searchTerm == ""
    {
      allItems := [];
      loading := true;
      error := None;
      activeTab := RemainingTab;
      searchTerm := "";
    }

    /**
     * The fetch effect: load every item, sort the fetched array in place by
     * name and keep it; on a failed load keep the old list and show an error.
     * Loading is off again afterwards.
     */
    method FetchItems(store: Store, le: (string, string) -> bool, reachable: bool)
      requires store.Valid() && TotalPreorder(le)
      modifies this
      ensures !loading
      ensures activeTab == old(activeTab) && searchTerm == old(searchTerm)
      ensures reachable ==>
        && error == old(error)
        && SortedByName(allItems, le)
        && multiset(allItems) == multiset(AllItems(store.listing, store.items))
      ensures !reachable ==> allItems == old(allItems) && error == Some(LoadFailedMessage)
    {
      loading := true;
      var fetched := store.GetAllInventoryItems(reachable);
      if fetched.Success? {
        var items := fetched.value;
        var a := new Item[|items|](k requires 0 <= k < |items| => items[k]);
        assert a[..] == items;
        SortByName(a, le);
        allItems := a[..];
      } else {
        error := Some(LoadFailedMessage);
      }
      loading := false;
    }

    /**
     * handleFinish: ask for confirmation (quoting the number of remaining
     * items when there are any); if declined, do nothing. Otherwise finish the
     * session in the store and, once that went through, signal the caller
     * (onFinish) and turn loading off. A failed finish leaves loading on and
     * does not signal the caller.
     */
    method HandleFinish(store: Store, sessionId: Option<SessionId>, confirmed: bool, reachable: bool)
      returns (prompt: FinishPrompt, callOnFinish: bool)
      requires store.Valid()
      modifies this, store
      ensures store.Valid()
      ensures var remaining := |Remaining(Filtered(old(allItems), old(searchTerm)), sessionId)|;
        prompt == if remaining > 0 then ConfirmWithRemaining(remaining) else ConfirmPlain
      ensures allItems == old(allItems) && searchTerm == old(searchTerm)
      ensures activeTab == old(activeTab) && error == old(error)
      ensures !confirmed ==> !callOnFinish && loading == old(loading) && unchanged(store)
      ensures confirmed ==>
        (callOnFinish <==> sessionId.None? || (reachable && sessionId.value in old(store.sessions)))
      ensures callOnFinish ==> !loading
      ensures confirmed && !callOnFinish ==> loading && unchanged(store)
      ensures callOnFinish && sessionId.None? ==> unchanged(store)
      ensures callOnFinish && sessionId.Some? ==>
        && store.sessions == old(store.sessions)[sessionId.value :=
             Finished(old(store.sessions)[sessionId.value], old(store.clock))]
        && store.clock == old(store.clock) + 1
        && store.items == old(store.items)
        && store.listing == old(store.listing) && store.sessionOrder == old(store.sessionOrder)
        && store.nextSessionId == old(store.nextSessionId) && store.currentUser == old(store.currentUser)
    {
      var remaining := Remaining(Filtered(allItems, searchTerm), sessionId);
      if |remaining| > 0 {
        prompt := ConfirmWithRemaining(|remaining|);
      } else {
        prompt := ConfirmPlain;
      }
      if !confirmed {
        return prompt, false;
      }
      loading := true;
      var finished := store.FinishStockTakeSession(sessionId, reachable);
      if finished.Failure? {
        return prompt, false;
      }
      callOnFinish := true;
      loading := false;
    }
  }
}
