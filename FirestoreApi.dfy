/**
 * The store gateway: the six operations the app calls, over an in-memory
 * copy of the document store. Whether each round trip to the backend goes
 * through is an input (`reachable`); the server clock is a tick counter and
 * new session ids come from a counter.
 */
module FirestoreApi {
  import opened Wrappers
  import opened Inventory

  class Store {
    /** Item documents, addressed by collection and id. */
    var items: map<Key, ItemDoc>
    /** The order in which a collection read returns each collection's documents. */
    var listing: map<CollectionName, seq<string>>
    /** Session documents. */
    var sessions: map<SessionId, Session>
    /** The order in which a session query returns the session documents. */
    var sessionOrder: seq<SessionId>
    /** The source of fresh session ids. */
    var nextSessionId: SessionId
    /** The server clock. */
    var clock: Time
    /** The signed-in user, if any. */
    var currentUser: Option<User>

    ghost predicate Valid()
      reads this
    {
      ListingValid(listing, items) && SessionsValid(sessionOrder, sessions, nextSessionId)
    }

    constructor (items: map<Key, ItemDoc>, listing: map<CollectionName, seq<string>>,
                 sessions: map<SessionId, Session>, sessionOrder: seq<SessionId>, nextSessionId: SessionId)
      requires ListingValid(listing, items) && SessionsValid(sessionOrder, sessions, nextSessionId)
      ensures Valid()
      ensures this.items == items && this.listing == listing
      ensures this.sessions == sessions && this.sessionOrder == sessionOrder && this.nextSessionId == nextSessionId
      ensures clock == 0 && currentUser == None
    {
      this.items := items;
      this.listing := listing;
      this.sessions := sessions;
      this.sessionOrder := sessionOrder;
      this.nextSessionId := nextSessionId;
      clock := 0;
      currentUser := None;
    }

    /** getAllInventoryItems: read the three collections in turn and tag each document. */
    method GetAllInventoryItems(reachable: bool) returns (r: Result<seq<Item>, StoreError>)
      requires Valid()
      ensures r == if reachable then Success(AllItems(listing, items)) else Failure(Unavailable)
    {
      if !reachable {
        return Failure(Unavailable);
      }
      var allItems: seq<Item> := [];
      var n := 0;
      while n < |CollectionNames|
        invariant 0 <= n <= |CollectionNames|
        invariant allItems == Gather(CollectionNames[..n], listing, items)
      {
        var name := CollectionNames[n];
        var ids := listing[name];
        var i := 0;
        while i < |ids|
          invariant 0 <= i <= |ids|
          invariant allItems == Gather(CollectionNames[..n], listing, items) + Tagged(name, ids[..i], items)
        {
          assert ids[..i + 1][..i] == ids[..i];
          allItems := allItems + [Item(name, ids[i], items[Key(name, ids[i])])];
          i := i + 1;
        }
        assert ids[..i] == ids;
        assert CollectionNames[..n + 1][..n] == CollectionNames[..n];
        n := n + 1;
      }
      assert CollectionNames[..n] == CollectionNames;
      r := Success(allItems);
    }

    /** findInventoryItemById: null for an empty id, otherwise the first listed item with that id, or "not found". */
    method FindInventoryItemById(id: string, reachable: bool) returns (r: Result<Option<Item>, StoreError>)
      requires Valid()
      ensures r == LookupById(id, if reachable then Success(AllItems(listing, items)) else Failure(Unavailable))
    {
      if id == "" {
        return Success(None);
      }
      var fetched := GetAllInventoryItems(reachable);
      if fetched.Failure? {
        return Failure(fetched.error);
      }
      var allItems := fetched.value;
      var found := FindFirst(allItems, id);
      if found.None? {
        return Failure(NoSuchItem(id));
      }
      r := Success(Some(allItems[found.value]));
    }

    /**
     * updateStockCount: one update of one document that sets its stock, its
     * count time and its session marker. Fails, changing nothing, when the
     * backend is unreachable or the document does not exist.
     */
    method UpdateStockCount(collection: CollectionName, docId: string, newStockCount: int,
                            sessionId: Option<SessionId>, reachable: bool) returns (r: Result<(), StoreError>)
      requires Valid()
      modifies this
      ensures Valid()
      ensures !reachable ==> r == Failure(Unavailable)
      ensures reachable && Key(collection, docId) !in old(items) ==> r == Failure(DocumentMissing)
      ensures r.Failure? ==> unchanged(this)
      ensures r.Success? <==> reachable && Key(collection, docId) in old(items)
      ensures r.Success? ==>
        && items == old(items)[Key(collection, docId) := old(items)[Key(collection, docId)].(
             currentStock := newStockCount,
             lastCountedAt := Some(old(clock)),
             lastCountedInSessionId := sessionId)]
        && clock == old(clock) + 1
        && listing == old(listing) && sessions == old(sessions) && sessionOrder == old(sessionOrder)
        && nextSessionId == old(nextSessionId) && currentUser == old(currentUser)
    {
      var key := Key(collection, docId);
      if !reachable {
        return Failure(Unavailable);
      }
      if key !in items {
        return Failure(DocumentMissing);
      }
      items := items[key := items[key].(currentStock := newStockCount,
                                        lastCountedAt := Some(clock),
                                        lastCountedInSessionId := sessionId)];
      clock := clock + 1;
      r := Success(());
    }

    /** getActiveStockTakeSession: null when no session is in progress, otherwise the first one the query returns. */
    method GetActiveStockTakeSession(reachable: bool) returns (r: Result<Option<(SessionId, Session)>, StoreError>)
      requires Valid()
      ensures !reachable ==> r == Failure(Unavailable)
      ensures reachable ==> r.Success?
      ensures reachable && FirstInProgress(sessionOrder, sessions).None? ==> r == Success(None)
      ensures reachable && FirstInProgress(sessionOrder, sessions).Some? ==>
        var id := FirstInProgress(sessionOrder, sessions).value;
        r == Success(Some((id, sessions[id])))
    {
      if !reachable {
        return Failure(Unavailable);
      }
      var first := FirstInProgress(sessionOrder, sessions);
      if first.None? {
        return Success(None);
      }
      r := Success(Some((first.value, sessions[first.value])));
    }

    /**
     * startNewStockTakeSession: with no signed-in user, fail before touching
     * the store. Otherwise list every item, queue a marker reset for each one
     * and the creation of a fresh in-progress session in one batch, and commit
     * the batch: all of it takes effect, or (read or commit failing) none.
     * An existing in-progress session is neither looked for nor closed.
     */
    method StartNewStockTakeSession(readReachable: bool, commitReachable: bool) returns (r: Result<SessionId, StoreError>)
      requires Valid()
      modifies this
      ensures Valid()
      ensures old(currentUser).None? ==> r == Failure(NotAuthenticated)
      ensures r.Failure? ==> unchanged(this)
      ensures r.Success? <==> old(currentUser).Some? && readReachable && commitReachable
      ensures r.Success? ==>
        && r.value == old(nextSessionId) && r.value !in old(sessions)
        && items == ClearMarkers(old(items), KeysOf(AllItems(old(listing), old(items))))
        && sessions == old(sessions)[r.value := Session(old(clock), old(currentUser).value.email, InProgress, None)]
        && sessionOrder == old(sessionOrder) + [r.value]
        && nextSessionId == old(nextSessionId) + 1
        && clock == old(clock) + 1
        && listing == old(listing) && currentUser == old(currentUser)
    {
      if currentUser.None? {
        return Failure(NotAuthenticated);
      }
      var user := currentUser.value;
      var fetched := GetAllInventoryItems(readReachable);
      if fetched.Failure? {
        return Failure(fetched.error);
      }
      var batch := QueueMarkerResets(fetched.value);
      var newSessionId := nextSessionId;
      var newSession := Session(clock, user.email, InProgress, None);
      if !commitReachable {
        return Failure(Unavailable);
      }
      var newItems := ClearMarkers(items, batch);
      ListingKeepsKeys(listing, items, newItems);
      SessionAdded(sessionOrder, sessions, nextSessionId, newSession);
      items := newItems;
      sessions := sessions[newSessionId := newSession];
      sessionOrder := sessionOrder + [newSessionId];
      nextSessionId := nextSessionId + 1;
      clock := clock + 1;
      r := Success(newSessionId);
    }

    /**
     * finishStockTakeSession: nothing to do for a null id; otherwise stamp
     * that session completed now, whatever its status was. Items are not touched.
     */
    method FinishStockTakeSession(sessionId: Option<SessionId>, reachable: bool) returns (r: Result<(), StoreError>)
      requires Valid()
      modifies this
      ensures Valid()
      ensures sessionId.None? ==> r == Success(()) && unchanged(this)
      ensures sessionId.Some? && !reachable ==> r == Failure(Unavailable)
      ensures sessionId.Some? && reachable && sessionId.value !in old(sessions) ==> r == Failure(DocumentMissing)
      ensures r.Failure? ==> unchanged(this)
      ensures sessionId.Some? && r.Success? ==>
        && sessionId.value in old(sessions)
        && sessions == old(sessions)[sessionId.value := Finished(old(sessions)[sessionId.value], old(clock))]
        && clock == old(clock) + 1
        && items == old(items) && listing == old(listing) && sessionOrder == old(sessionOrder)
        && nextSessionId == old(nextSessionId) && currentUser == old(currentUser)
      ensures sessionId.Some? && reachable && sessionId.value in old(sessions) ==> r.Success?
    {
      if sessionId.None? {
        return Success(());
      }
      var id := sessionId.value;
      if !reachable {
        return Failure(Unavailable);
      }
      if id !in sessions {
        return Failure(DocumentMissing);
      }
      sessions := sessions[id := sessions[id].(status := Completed, completedAt := Some(clock))];
      clock := clock + 1;
      r := Success(());
    }
  }

  /** The batch's marker resets, one per listed item, in listing order. */
  method QueueMarkerResets(allItems: seq<Item>) returns (batch: seq<Key>)
    ensures batch == KeysOf(allItems)
  {
    batch := [];
    var i := 0;
    while i < |allItems|
      invariant 0 <= i <= |allItems|
      invariant batch == KeysOf(allItems[..i])
    {
      assert allItems[..i + 1][..i] == allItems[..i];
      batch := batch + [Key(allItems[i].collection, allItems[i].id)];
      i := i + 1;
    }
    assert allItems[..i] == allItems;
  }

  lemma ListingKeepsKeys(listing: map<CollectionName, seq<string>>, before: map<Key, ItemDoc>, after: map<Key, ItemDoc>)
    requires ListingValid(listing, before) && after.Keys == before.Keys
    ensures ListingValid(listing, after)
  {
  }

  lemma SessionAdded(order: seq<SessionId>, sessions: map<SessionId, Session>, nextId: SessionId, s: Session)
    requires SessionsValid(order, sessions, nextId)
    ensures nextId !in sessions
    ensures SessionsValid(order + [nextId], sessions[nextId := s], nextId + 1)
  {
    assert forall id :: id in order + [nextId] <==> id in order || id == nextId;
  }

  /** After a successful start, no stored item carries a session marker, and every other item field is as before. */
  lemma StartLeavesNoMarkers(listing: map<CollectionName, seq<string>>, before: map<Key, ItemDoc>, after: map<Key, ItemDoc>)
    requires ListingValid(listing, before)
    requires after == ClearMarkers(before, KeysOf(AllItems(listing, before)))
    ensures after.Keys == before.Keys
    ensures forall k :: k in after ==> after[k].lastCountedInSessionId.None?
    ensures forall k :: k in after ==> after[k].(lastCountedInSessionId := before[k].lastCountedInSessionId) == before[k]
  {
    ResetOfListingClearsAll(listing, before);
  }
}
