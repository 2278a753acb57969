/**
 * The documents of the stock-taking store: inventory items in three named
 * collections and stock-take sessions, together with the pure lookups that
 * the store gateway performs over them (listing, find-by-id, the active
 * session query and the bulk marker reset).
 */
module Inventory {
  import opened Wrappers

  /** Session document ids. The store assigns them; the model draws them from a counter. */
  type SessionId = nat

  /** Server timestamps, abstracted to the ticks of a logical clock. */
  type Time = nat

  datatype CollectionName = Components | RawMaterials | WorkshopSupplies

  /** The collections in the order in which the item listing visits them. */
  const CollectionNames: seq<CollectionName> := [Components, RawMaterials, WorkshopSupplies]

  /** Any stored method other than "weight" is counted by hand. */
  datatype StockMethod = CountMethod | WeightMethod

  /**
   * The fields of an item document. A missing, null, zero or NaN tare or unit
   * weight is None: the counting screen treats all of them alike.
   */
  datatype ItemDoc = ItemDoc(
    name: string,
    currentStock: int,
    stockTakeMethod: StockMethod,
    tareWeight: Option<real>,
    unitWeight: Option<real>,
    lastCountedAt: Option<Time>,
    lastCountedInSessionId: Option<SessionId>)

  /** The address of an item document. */
  datatype Key = Key(collection: CollectionName, id: string)

  /** An item as the listing returns it: tagged with its collection and id. */
  datatype Item = Item(collection: CollectionName, id: string, doc: ItemDoc)

  datatype Status = InProgress | Completed

  datatype Session = Session(startedAt: Time, startedBy: string, status: Status, completedAt: Option<Time>)

  datatype User = User(email: string)

  datatype StoreError =
    | Unavailable          // the backend could not be reached
    | DocumentMissing      // an update addressed a document that does not exist
    | NoSuchItem(id: string)
    | NotAuthenticated

  /**
   * The per-collection listing order names exactly the stored item documents
   * of that collection, each once.
   */
  ghost predicate ListingValid(listing: map<CollectionName, seq<string>>, docs: map<Key, ItemDoc>)
  {
    && (forall c: CollectionName :: c in listing)
    && (forall c, id :: c in listing && id in listing[c] ==> Key(c, id) in docs)
    && (forall k :: k in docs ==> k.collection in listing && k.id in listing[k.collection])
    && (forall c, i, j :: c in listing && 0 <= i < j < |listing[c]| ==> listing[c][i] != listing[c][j])
  }

  /** The session query order names exactly the stored sessions, each once, all below the next fresh id. */
  ghost predicate SessionsValid(order: seq<SessionId>, sessions: map<SessionId, Session>, nextId: SessionId)
  {
    && (forall id :: id in sessions <==> id in order)
    && (forall i, j :: 0 <= i < j < |order| ==> order[i] != order[j])
    && (forall id :: id in sessions ==> id < nextId)
  }

  /** One collection's documents, in listing order, each tagged with the collection name and its id. */
  function Tagged(c: CollectionName, ids: seq<string>, docs: map<Key, ItemDoc>): (r: seq<Item>)
    requires forall id :: id in ids ==> Key(c, id) in docs
    ensures |r| == |ids|
    ensures forall i :: 0 <= i < |ids| ==> r[i] == Item(c, ids[i], docs[Key(c, ids[i])])
  {
    if ids == [] then []
    else
      var n := |ids| - 1;
      Tagged(c, ids[..n], docs) + [Item(c, ids[n], docs[Key(c, ids[n])])]
  }

  /** The listing of the given collections, one after the other. */
  function Gather(names: seq<CollectionName>, listing: map<CollectionName, seq<string>>, docs: map<Key, ItemDoc>): seq<Item>
    requires ListingValid(listing, docs)
  {
    if names == [] then []
    else
      var n := |names| - 1;
      Gather(names[..n], listing, docs) + Tagged(names[n], listing[names[n]], docs)
  }

  /** Every item of the store: components, then raw materials, then workshop supplies. */
  function AllItems(listing: map<CollectionName, seq<string>>, docs: map<Key, ItemDoc>): seq<Item>
    requires ListingValid(listing, docs)
  {
    Gather(CollectionNames, listing, docs)
  }

  /** The listing is the three collections' listings in their fixed order. */
  lemma AllItemsOrder(listing: map<CollectionName, seq<string>>, docs: map<Key, ItemDoc>)
    requires ListingValid(listing, docs)
    ensures AllItems(listing, docs)
         == Tagged(Components, listing[Components], docs)
          + Tagged(RawMaterials, listing[RawMaterials], docs)
          + Tagged(WorkshopSupplies, listing[WorkshopSupplies], docs)
    ensures |AllItems(listing, docs)|
         == |listing[Components]| + |listing[RawMaterials]| + |listing[WorkshopSupplies]|
  {
    var names := CollectionNames;
    assert names[..2] == [Components, RawMaterials] && names[2] == WorkshopSupplies;
    assert names[..2][..1] == [Components] && names[..2][1] == RawMaterials;
    assert names[..2][..1][..0] == [] && names[..2][..1][0] == Components;
    var a := Tagged(Components, listing[Components], docs);
    var b := Tagged(RawMaterials, listing[RawMaterials], docs);
    var c := Tagged(WorkshopSupplies, listing[WorkshopSupplies], docs);
    assert Gather(names[..2][..1][..0], listing, docs) == [];
    assert Gather(names[..2][..1], listing, docs) == a;
    assert Gather(names[..2], listing, docs) == a + b;
    assert Gather(names, listing, docs) == a + b + c;
  }

  /** Each listed item carries the document stored under its own collection and id. */
  lemma {:induction false} GatherSound(names: seq<CollectionName>, listing: map<CollectionName, seq<string>>, docs: map<Key, ItemDoc>)
    requires ListingValid(listing, docs)
    ensures forall x :: x in Gather(names, listing, docs) ==>
      x.collection in names && Key(x.collection, x.id) in docs && docs[Key(x.collection, x.id)] == x.doc
  {
    if names != [] {
      var n := |names| - 1;
      GatherSound(names[..n], listing, docs);
      var t := Tagged(names[n], listing[names[n]], docs);
      forall x | x in t
        ensures x.collection in names && Key(x.collection, x.id) in docs && docs[Key(x.collection, x.id)] == x.doc
      {
        var i :| 0 <= i < |t| && t[i] == x;
      }
    }
  }

  /** Every stored item document shows up in the listing of a collection list that names its collection. */
  lemma {:induction false} GatherComplete(names: seq<CollectionName>, listing: map<CollectionName, seq<string>>, docs: map<Key, ItemDoc>, k: Key)
    requires ListingValid(listing, docs)
    requires k in docs && k.collection in names
    ensures Item(k.collection, k.id, docs[k]) in Gather(names, listing, docs)
  {
    var n := |names| - 1;
    if names[n] == k.collection {
      var ids := listing[k.collection];
      var i :| 0 <= i < |ids| && ids[i] == k.id;
      assert Tagged(names[n], ids, docs)[i] == Item(k.collection, k.id, docs[k]);
    } else {
      assert k.collection in names[..n] by {
        var j :| 0 <= j < |names| && names[j] == k.collection;
        assert names[..n][j] == k.collection;
      }
      GatherComplete(names[..n], listing, docs, k);
    }
  }

  /** The listing is exactly the stored documents, each tagged with its address. */
  lemma AllItemsExact(listing: map<CollectionName, seq<string>>, docs: map<Key, ItemDoc>)
    requires ListingValid(listing, docs)
    ensures forall x :: x in AllItems(listing, docs) ==>
      Key(x.collection, x.id) in docs && docs[Key(x.collection, x.id)] == x.doc
    ensures forall k :: k in docs ==> Item(k.collection, k.id, docs[k]) in AllItems(listing, docs)
  {
    GatherSound(CollectionNames, listing, docs);
    forall k | k in docs
      ensures Item(k.collection, k.id, docs[k]) in AllItems(listing, docs)
    {
      assert k.collection in CollectionNames by {
        match k.collection
        case Components => assert CollectionNames[0] == Components;
        case RawMaterials => assert CollectionNames[1] == RawMaterials;
        case WorkshopSupplies => assert CollectionNames[2] == WorkshopSupplies;
      }
      GatherComplete(CollectionNames, listing, docs, k);
    }
  }

  /** The position of the first item with the given id, as Array.prototype.find picks it. */
  function FindFirst(items: seq<Item>, id: string): (r: Option<nat>)
    ensures r.Some? ==> r.value < |items| && items[r.value].id == id
    ensures r.Some? ==> forall j :: 0 <= j < r.value ==> items[j].id != id
    ensures r.None? <==> forall j :: 0 <= j < |items| ==> items[j].id != id
  {
    if items == [] then None
    else if items[0].id == id then Some(0)
    else
      match FindFirst(items[1..], id)
      case None => None
      case Some(k) => Some(k + 1)
  }

  /**
   * findInventoryItemById over a listing: null for the empty id (checked
   * before the listing is fetched), a failed fetch, "not found", or the first
   * listed item with that id.
   */
  function LookupById(id: string, fetched: Result<seq<Item>, StoreError>): (r: Result<Option<Item>, StoreError>)
    ensures id == "" ==> r == Success(None)
    ensures id != "" && fetched.Failure? ==> r == Failure(fetched.error)
    ensures id != "" && fetched.Success? ==>
      (r.Failure? <==> forall x :: x in fetched.value ==> x.id != id)
    ensures id != "" && fetched.Success? && r.Failure? ==> r.error == NoSuchItem(id)
    ensures id != "" && fetched.Success? && r.Success? ==>
      exists k :: (0 <= k < |fetched.value| && r.value == Some(fetched.value[k]) && fetched.value[k].id == id
        && forall j :: 0 <= j < k ==> fetched.value[j].id != id)
  {
    if id == "" then Success(None)
    else
      match fetched
      case Failure(e) => Failure(e)
      case Success(all) =>
        match FindFirst(all, id)
        case None => Failure(NoSuchItem(id))
        case Some(k) => Success(Some(all[k]))
  }

  /** The first session in query order whose status is in-progress. */
  function FirstInProgress(order: seq<SessionId>, sessions: map<SessionId, Session>): (r: Option<SessionId>)
    requires forall id :: id in order ==> id in sessions
    ensures r.Some? ==> r.value in sessions && sessions[r.value].status == InProgress
    ensures r.Some? ==> exists k :: (0 <= k < |order| && order[k] == r.value
      && forall j :: 0 <= j < k ==> sessions[order[j]].status != InProgress)
    ensures r.None? <==> forall id :: id in order ==> sessions[id].status != InProgress
  {
    if order == [] then None
    else if sessions[order[0]].status == InProgress then Some(order[0])
    else
      var rest := FirstInProgress(order[1..], sessions);
      assert forall id :: id in order ==> id == order[0] || id in order[1..];
      if rest.Some? then
        assert exists k :: (0 <= k < |order| && order[k] == rest.value
          && forall j :: 0 <= j < k ==> sessions[order[j]].status != InProgress) by {
          var k' :| 0 <= k' < |order[1..]| && order[1..][k'] == rest.value
            && forall j :: 0 <= j < k' ==> sessions[order[1..][j]].status != InProgress;
          assert order[k' + 1] == rest.value;
          forall j | 0 <= j < k' + 1 ensures sessions[order[j]].status != InProgress {
            if j > 0 { assert order[j] == order[1..][j - 1]; }
          }
        }
        rest
      else rest
  }

  /** The addresses of the listed items, in listing order. */
  function KeysOf(items: seq<Item>): (r: seq<Key>)
    ensures |r| == |items|
    ensures forall i :: 0 <= i < |items| ==> r[i] == Key(items[i].collection, items[i].id)
  {
    if items == [] then [] else KeysOf(items[..|items| - 1]) + [Key(items[|items| - 1].collection, items[|items| - 1].id)]
  }

  /**
   * The item half of the session-start batch: each addressed document gets a
   * null session marker and keeps every other field; documents not addressed
   * are untouched and no document is added or removed.
   */
  function ClearMarkers(docs: map<Key, ItemDoc>, keys: seq<Key>): (r: map<Key, ItemDoc>)
    ensures r.Keys == docs.Keys
    ensures forall k :: k in docs && k in keys ==> r[k] == docs[k].(lastCountedInSessionId := None)
    ensures forall k :: k in docs && k !in keys ==> r[k] == docs[k]
  {
    if keys == [] then docs
    else
      var n := |keys| - 1;
      var m := ClearMarkers(docs, keys[..n]);
      assert forall k :: k in keys ==> k in keys[..n] || k == keys[n];
      if keys[n] in m then m[keys[n] := m[keys[n]].(lastCountedInSessionId := None)] else m
  }

  /** Resetting the markers of every listed item leaves no stored item with a marker. */
  lemma ResetOfListingClearsAll(listing: map<CollectionName, seq<string>>, docs: map<Key, ItemDoc>)
    requires ListingValid(listing, docs)
    ensures var r := ClearMarkers(docs, KeysOf(AllItems(listing, docs)));
      r.Keys == docs.Keys
      && forall k :: k in r ==> r[k] == docs[k].(lastCountedInSessionId := None)
  {
    AllItemsExact(listing, docs);
    var all := AllItems(listing, docs);
    var keys := KeysOf(all);
    forall k | k in docs ensures k in keys {
      var i :| 0 <= i < |all| && all[i] == Item(k.collection, k.id, docs[k]);
      assert keys[i] == k;
    }
  }

  /** A session stamped completed at time t; every other field is kept. */
  function Finished(s: Session, t: Time): (r: Session)
    ensures r.status == Completed && r.completedAt == Some(t)
    ensures r.startedAt == s.startedAt && r.startedBy == s.startedBy
  {
    s.(status := Completed, completedAt := Some(t))
  }

  /** Finishing twice leaves the session completed, stamped with the second time. */
  lemma FinishTwice(s: Session, t1: Time, t2: Time)
    ensures Finished(Finished(s, t1), t2) == Finished(s, t2)
  {
  }
}
