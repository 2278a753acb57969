/**
 * The top-level state machine: sign-in, which screen is shown, the selected
 * item and its verification by scan, the scanner, and the session
 * transitions (start, continue, finish). Handlers run one at a time; what
 * the camera decodes, whether it starts and whether each store round trip
 * goes through are inputs.
 */
module AppState {
  import opened Wrappers
  import opened Inventory
  import opened FirestoreApi
  import opened Checklist
  import opened Counting

  datatype View = SessionView | ChecklistView

  /**
   * The context the scan handler consults. The checklist's scan button hands
   * over its click event, whose mode is not "verify", so it acts like General.
   */
  datatype ScanContext = General | Verify(expectedId: string) | ClickEvent

  /** The item in the counting dialog, with the flag a matching verification scan sets. */
  datatype Selection = Selection(item: Item, isVerified: bool)

  datatype Screen = Initializing | ErrorScreen(message: string) | SessionScreen | ChecklistShown

  const AuthFailedMessage: string := "App authentication failed. Please check credentials and redeploy."

  /**
   * The selection after a decoded scan, given the context the handler
   * consults and the result the general lookup would give. In verify mode a
   * match marks the selected item verified and changes nothing else, a
   * mismatch changes nothing. Otherwise a found item becomes the selection
   * (unverified), a null result (empty text) clears it and a failed lookup
   * leaves it.
   */
  function ScanEffect(context: ScanContext, decoded: string, lookup: Result<Option<Item>, StoreError>,
                      selection: Option<Selection>): (r: Option<Selection>)
    ensures context.Verify? && decoded == context.expectedId ==>
      && (r.Some? <==> selection.Some?)
      && (r.Some? ==> r.value.item == selection.value.item && r.value.isVerified)
    ensures context.Verify? && decoded != context.expectedId ==> r == selection
    ensures !context.Verify? && lookup.Failure? ==> r == selection
    ensures !context.Verify? && lookup.Success? ==>
      && (r.Some? <==> lookup.value.Some?)
      && (r.Some? ==> r.value.item == lookup.value.value && !r.value.isVerified)
  {
    if context.Verify? then
      if decoded == context.expectedId && selection.Some? then Some(selection.value.(isVerified := true))
      else selection
    else
      match lookup
      case Failure(_) => selection
      case Success(found) => if found.Some? then Some(Selection(found.value, false)) else None
  }

  /**
   * A scan can newly verify a selection only in verify mode, with the
   * decoded text equal to the context's expected id, and it keeps the item.
   */
  lemma VerifiedOnlyByExpectedScan(context: ScanContext, decoded: string, lookup: Result<Option<Item>, StoreError>,
                                   selection: Option<Selection>)
    ensures var r := ScanEffect(context, decoded, lookup, selection);
      r.Some? && r.value.isVerified ==>
        || r == selection
        || (context.Verify? && decoded == context.expectedId && selection.Some? && r.value.item == selection.value.item)
  {
  }

  /**
   * The intended gate: when the context consulted is the one requested for
   * the current selection, the selection ends up verified exactly when it
   * already was or the decoded text is its own id.
   */
  lemma IntendedVerifyGate(selection: Selection, decoded: string, lookup: Result<Option<Item>, StoreError>)
    ensures var r := ScanEffect(Verify(selection.item.id), decoded, lookup, Some(selection));
      && r.Some? && r.value.item == selection.item
      && (r.value.isVerified <==> selection.isVerified || decoded == selection.item.id)
  {
  }

  class App {
    const store: Store
    const modal: CountingModal
    const checklist: ChecklistScreen

    var isReady: bool
    var error: Option<string>
    var currentView: View
    var activeSessionId: Option<SessionId>
    var selectedItem: Option<Selection>
    var isScanning: bool
    var refreshKey: nat
    /** The scan context state. */
    var scanContext: ScanContext
    /** The context seen by the callback the running scanner was started with. */
    var callbackContext: ScanContext
    /** Whether the scanner object exists. */
    var scannerCreated: bool
    /** Whether the scanner object is scanning (the camera is on). */
    var cameraActive: bool
    /** How many scanner objects were ever created. */
    ghost var scannersCreated: nat

    ghost predicate Valid()
      reads this, store
    {
      && store.Valid()
      && scannersCreated <= 1
      && (scannerCreated <==> scannersCreated == 1)
      && (cameraActive ==> scannerCreated)
      && isScanning == cameraActive
      && !(isReady && error.Some?)
    }

    constructor (store: Store)
      requires store.Valid()
      ensures Valid() && this.store == store && fresh(modal) && fresh(checklist)
      ensures !isReady && error == None && currentView == SessionView && activeSessionId == None
      ensures selectedItem == None && !isScanning && refreshKey == 0
      ensures scanContext == General && callbackContext == General
      ensures !scannerCreated && !cameraActive
      ensures !modal.loading && modal.error == None && modal.inputValue == ""
    {
      this.store := store;
      modal := new CountingModal();
      checklist := new ChecklistScreen();
      isReady := false;
      error := None;
      currentView := SessionView;
      activeSessionId := None;
      selectedItem := None;
      isScanning := false;
      refreshKey := 0;
      scanContext := General;
      callbackContext := General;
      scannerCreated := false;
      cameraActive := false;
      scannersCreated := 0;
    }

    /** renderCurrentView: the initializing message until ready, then the error, then the current view. */
    function CurrentScreen(): (s: Screen)
      reads this
      ensures s.ErrorScreen? ==> isReady && error == Some(s.message)
      ensures isReady && error.Some? ==> s == ErrorScreen(error.value)
      ensures !isReady <==> s == Initializing
      ensures s == ChecklistShown <==> isReady && error.None? && currentView == ChecklistView
    {
      if !isReady then Initializing
      else if error.Some? then ErrorScreen(error.value)
      else if currentView == ChecklistView then ChecklistShown
      else SessionScreen
    }

    /** renderCurrentView as evidently intended: the error is checked before readiness. */
    function IntendedScreen(): (s: Screen)
      reads this
      ensures error.Some? <==> s.ErrorScreen?
      ensures s.ErrorScreen? ==> error == Some(s.message)
      ensures s == Initializing <==> !isReady && error.None?
      ensures s == ChecklistShown <==> isReady && error.None? && currentView == ChecklistView
    {
      if error.Some? then ErrorScreen(error.value)
      else if !isReady then Initializing
      else if currentView == ChecklistView then ChecklistShown
      else SessionScreen
    }

    /**
     * The sign-in effect, run once at start-up: a signed-in user makes the
     * app ready; a failure (missing credentials or a refused sign-in) records
     * the error message.
     */
    method AuthenticateApp(signedIn: Option<User>)
      requires Valid() && !isReady && error.None?
      modifies this, store
      ensures Valid()
      ensures signedIn.Some? ==> isReady && error == None && store.currentUser == signedIn
      ensures signedIn.None? ==> !isReady && error == Some(AuthFailedMessage) && store.currentUser == old(store.currentUser)
      ensures store.items == old(store.items) && store.listing == old(store.listing)
      ensures store.sessions == old(store.sessions) && store.sessionOrder == old(store.sessionOrder)
      ensures store.nextSessionId == old(store.nextSessionId) && store.clock == old(store.clock)
      ensures currentView == old(currentView) && activeSessionId == old(activeSessionId)
      ensures selectedItem == old(selectedItem) && refreshKey == old(refreshKey)
      ensures isScanning == old(isScanning) && cameraActive == old(cameraActive) && scannerCreated == old(scannerCreated)
      ensures scanContext == old(scanContext) && callbackContext == old(callbackContext)
    {
      if signedIn.Some? {
        store.currentUser := signedIn;
        isReady := true;
      } else {
        error := Some(AuthFailedMessage);
      }
    }

    /** stopScanner: stop the camera if it is on; either way the scanner is no longer shown. */
    method StopScanner()
      requires Valid()
      modifies this
      ensures Valid()
      ensures !isScanning && !cameraActive
      ensures isReady == old(isReady) && error == old(error)
      ensures currentView == old(currentView) && activeSessionId == old(activeSessionId)
      ensures selectedItem == old(selectedItem) && refreshKey == old(refreshKey)
      ensures scanContext == old(scanContext) && callbackContext == old(callbackContext)
      ensures scannerCreated == old(scannerCreated) && scannersCreated == old(scannersCreated)
    {
      if cameraActive {
        cameraActive := false;
      }
      isScanning := false;
    }

    /**
     * startScanner: record the context, create the scanner object if there is
     * none yet, show the scanner and start the camera with the scan handler of
     * this moment, which still sees the previous context. A start that fails
     * (or is refused because a scan is running) ends in stopScanner.
     */
    method StartScanner(context: ScanContext, cameraStarts: bool)
      requires Valid()
      modifies this
      ensures Valid()
      ensures scanContext == context && scannerCreated
      ensures cameraStarts && !old(cameraActive) ==> isScanning && cameraActive && callbackContext == old(scanContext)
      ensures !(cameraStarts && !old(cameraActive)) ==> !isScanning && !cameraActive && callbackContext == old(callbackContext)
      ensures isReady == old(isReady) && error == old(error)
      ensures currentView == old(currentView) && activeSessionId == old(activeSessionId)
      ensures selectedItem == old(selectedItem) && refreshKey == old(refreshKey)
    {
      var contextSeenByHandler := scanContext;
      scanContext := context;
      if !scannerCreated {
        scannerCreated := true;
        scannersCreated := scannersCreated + 1;
      }
      if cameraStarts && !cameraActive {
        isScanning, cameraActive := true, true;
        callbackContext := contextSeenByHandler;
      } else {
        StopScanner();
      }
    }

    /** The checklist's scan button: its click event arrives as the context. */
    method RequestChecklistScan(cameraStarts: bool)
      requires Valid()
      modifies this
      ensures Valid()
      ensures scanContext == ClickEvent
      ensures cameraStarts && !old(cameraActive) ==> isScanning && callbackContext == old(scanContext)
      ensures !(cameraStarts && !old(cameraActive)) ==> !isScanning && callbackContext == old(callbackContext)
      ensures isReady == old(isReady) && error == old(error)
      ensures currentView == old(currentView) && activeSessionId == old(activeSessionId)
      ensures selectedItem == old(selectedItem) && refreshKey == old(refreshKey)
      ensures scannerCreated
    {
      StartScanner(ClickEvent, cameraStarts);
    }

    /** The dialog's verify button: a verify request carrying the selected item's id. */
    method RequestVerifyScan(cameraStarts: bool)
      requires Valid() && selectedItem.Some?
      modifies this
      ensures Valid()
      ensures scanContext == Verify(old(selectedItem).value.item.id)
      ensures cameraStarts && !old(cameraActive) ==> isScanning && callbackContext == old(scanContext)
      ensures !(cameraStarts && !old(cameraActive)) ==> !isScanning && callbackContext == old(callbackContext)
      ensures isReady == old(isReady) && error == old(error)
      ensures currentView == old(currentView) && activeSessionId == old(activeSessionId)
      ensures selectedItem == old(selectedItem) && refreshKey == old(refreshKey)
      ensures scannerCreated
    {
      StartScanner(Verify(selectedItem.value.item.id), cameraStarts);
    }

    /**
     * onScanSuccess, called by the running scanner with the decoded text:
     * stop the scanner, then act on the context the handler sees, which is
     * the one recorded before the running scan was started.
     */
    method OnScanSuccess(decoded: string, reachable: bool)
      requires Valid() && cameraActive
      modifies this
      ensures Valid()
      ensures !isScanning && !cameraActive
      ensures selectedItem == ScanEffect(old(callbackContext), decoded,
        LookupById(decoded, if reachable then Success(AllItems(store.listing, store.items)) else Failure(Unavailable)),
        old(selectedItem))
      ensures isReady == old(isReady) && error == old(error)
      ensures currentView == old(currentView) && activeSessionId == old(activeSessionId)
      ensures refreshKey == old(refreshKey)
      ensures scanContext == old(scanContext) && callbackContext == old(callbackContext)
      ensures scannerCreated == old(scannerCreated)
    {
      HandleDecoded(callbackContext, decoded, reachable);
    }

    /** onScanSuccess as evidently intended: it acts on the context recorded for the running scan. */
    method OnScanSuccessIntended(decoded: string, reachable: bool)
      requires Valid() && cameraActive
      modifies this
      ensures Valid()
      ensures !isScanning && !cameraActive
      ensures selectedItem == ScanEffect(old(scanContext), decoded,
        LookupById(decoded, if reachable then Success(AllItems(store.listing, store.items)) else Failure(Unavailable)),
        old(selectedItem))
      ensures isReady == old(isReady) && error == old(error)
      ensures currentView == old(currentView) && activeSessionId == old(activeSessionId)
      ensures refreshKey == old(refreshKey)
      ensures scanContext == old(scanContext) && callbackContext == old(callbackContext)
      ensures scannerCreated == old(scannerCreated)
    {
      HandleDecoded(scanContext, decoded, reachable);
    }

    /** The body of the scan handler, given the context it consults. */
    method HandleDecoded(context: ScanContext, decoded: string, reachable: bool)
      requires Valid()
      modifies this
      ensures Valid()
      ensures !isScanning && !cameraActive
      ensures selectedItem == ScanEffect(context, decoded,
        LookupById(decoded, if reachable then Success(AllItems(store.listing, store.items)) else Failure(Unavailable)),
        old(selectedItem))
      ensures isReady == old(isReady) && error == old(error)
      ensures currentView == old(currentView) && activeSessionId == old(activeSessionId)
      ensures refreshKey == old(refreshKey)
      ensures scanContext == old(scanContext) && callbackContext == old(callbackContext)
      ensures scannerCreated == old(scannerCreated)
    {
      StopScanner();
      if context.Verify? {
        if decoded == context.expectedId {
          if selectedItem.Some? {
            selectedItem := Some(selectedItem.value.(isVerified := true));
          }
        } else {
          // alert: wrong item scanned
        }
      } else {
        var found := store.FindInventoryItemById(decoded, reachable);
        if found.Success? {
          selectedItem := if found.value.Some? then Some(Selection(found.value.value, false)) else None;
        } else {
          // alert(err.message)
        }
      }
    }

    /** onSelectItem: tapping a listed item selects it, unverified. */
    method SelectItem(item: Item)
      requires Valid()
      modifies this
      ensures Valid()
      ensures selectedItem == Some(Selection(item, false))
      ensures isReady == old(isReady) && error == old(error)
      ensures currentView == old(currentView) && activeSessionId == old(activeSessionId)
      ensures refreshKey == old(refreshKey) && isScanning == old(isScanning) && cameraActive == old(cameraActive)
      ensures scanContext == old(scanContext) && callbackContext == old(callbackContext)
      ensures scannerCreated == old(scannerCreated)
    {
      selectedItem := Some(Selection(item, false));
    }

    /** Typing into the dialog's value field, which is shown only for a verified selection. */
    method EnterValue(value: string)
      requires Valid()
      modifies modal
      ensures old(selectedItem).Some? && old(selectedItem).value.isVerified ==> modal.inputValue == value
      ensures !(old(selectedItem).Some? && old(selectedItem).value.isVerified) ==> modal.inputValue == old(modal.inputValue)
      ensures modal.loading == old(modal.loading) && modal.error == old(modal.error)
    {
      if selectedItem.Some? && selectedItem.value.isVerified {
        modal.inputValue := value;
      }
    }

    /**
     * handleModalClose: the dialog closes and its state is discarded; the
     * refresh key moves on only when a count was written.
     */
    method HandleModalClose(wasUpdated: bool)
      requires Valid()
      modifies this, modal
      ensures Valid()
      ensures selectedItem == None
      ensures refreshKey == if wasUpdated then old(refreshKey) + 1 else old(refreshKey)
      ensures !modal.loading && modal.error == None && modal.inputValue == ""
      ensures isReady == old(isReady) && error == old(error)
      ensures currentView == old(currentView) && activeSessionId == old(activeSessionId)
      ensures isScanning == old(isScanning) && cameraActive == old(cameraActive)
      ensures scanContext == old(scanContext) && callbackContext == old(callbackContext)
      ensures scannerCreated == old(scannerCreated)
    {
      if wasUpdated {
        refreshKey := refreshKey + 1;
      }
      selectedItem := None;
      modal.loading, modal.error, modal.inputValue := false, None, "";
    }

    /**
     * The dialog's update button, rendered only for a verified selection: run
     * the update handler with the active session, and when it commits, close
     * the dialog as updated.
     */
    method PressUpdateStock(reachable: bool) returns (outcome: Option<CommitOutcome>)
      requires Valid()
      modifies this, store, modal
      ensures Valid()
      ensures !(old(selectedItem).Some? && old(selectedItem).value.isVerified) ==>
        outcome.None? && unchanged(this) && unchanged(store) && unchanged(modal)
      ensures old(selectedItem).Some? && old(selectedItem).value.isVerified ==> outcome.Some?
      ensures old(selectedItem).Some? && old(selectedItem).value.isVerified
              && Validate(old(selectedItem).value.item, old(modal.inputValue)).Accepted? && reachable
              && Key(old(selectedItem).value.item.collection, old(selectedItem).value.item.id) in old(store.items) ==>
        outcome == Some(Committed)
      ensures outcome == Some(Committed) ==>
        var item := old(selectedItem).value.item;
        var key := Key(item.collection, item.id);
        && Validate(item, old(modal.inputValue)).Accepted?
        && key in old(store.items)
        && store.items == old(store.items)[key := old(store.items)[key].(
             currentStock := Validate(item, old(modal.inputValue)).count,
             lastCountedAt := Some(old(store.clock)),
             lastCountedInSessionId := old(activeSessionId))]
        && store.clock == old(store.clock) + 1
        && store.sessions == old(store.sessions)
        && store.listing == old(store.listing) && store.sessionOrder == old(store.sessionOrder)
        && store.nextSessionId == old(store.nextSessionId) && store.currentUser == old(store.currentUser)
        && selectedItem == None && refreshKey == old(refreshKey) + 1
      ensures outcome.Some? && outcome != Some(Committed) ==>
        unchanged(store) && selectedItem == old(selectedItem) && refreshKey == old(refreshKey)
      ensures outcome == Some(AlertedEmpty) ==> modal.loading == old(modal.loading) && modal.error == old(modal.error)
      ensures outcome == Some(RejectedWeight) ==> modal.error == Some(InvalidWeightMessage) && !modal.loading
      ensures outcome == Some(RejectedQuantity) ==> modal.error == Some(InvalidQuantityMessage) && !modal.loading
      ensures outcome == Some(WriteFailed) ==> modal.error == Some(UpdateFailedMessage) && !modal.loading
      ensures outcome.Some? && outcome != Some(Committed) ==> modal.inputValue == old(modal.inputValue)
      ensures outcome == Some(Committed) ==> !modal.loading && modal.error == None && modal.inputValue == ""
      ensures isReady == old(isReady) && error == old(error)
      ensures currentView == old(currentView) && activeSessionId == old(activeSessionId)
      ensures isScanning == old(isScanning) && cameraActive == old(cameraActive)
      ensures scanContext == old(scanContext) && callbackContext == old(callbackContext) && scannerCreated == old(scannerCreated)
    {
      if !(selectedItem.Some? && selectedItem.value.isVerified) {
        return None;
      }
      var result := modal.HandleUpdateStock(store, selectedItem.value.item, activeSessionId, reachable);
      if result == Committed {
        HandleModalClose(true);
      }
      outcome := Some(result);
    }

    /** handleStartNewSession: start a session in the store and open its checklist; a failed start changes nothing. */
    method HandleStartNewSession(readReachable: bool, commitReachable: bool) returns (started: Result<SessionId, StoreError>)
      requires Valid()
      modifies this, store
      ensures Valid()
      ensures started.Success? <==> old(store.currentUser).Some? && readReachable && commitReachable
      ensures started.Success? ==>
        && activeSessionId == Some(started.value) && currentView == ChecklistView
        && started.value !in old(store.sessions)
        && store.sessions == old(store.sessions)[started.value :=
             Session(old(store.clock), old(store.currentUser).value.email, InProgress, None)]
        && store.items.Keys == old(store.items).Keys
        && (forall k :: k in store.items ==> store.items[k] == old(store.items)[k].(lastCountedInSessionId := None))
        && store.sessionOrder == old(store.sessionOrder) + [started.value]
        && store.nextSessionId == old(store.nextSessionId) + 1 && store.clock == old(store.clock) + 1
        && store.listing == old(store.listing) && store.currentUser == old(store.currentUser)
      ensures started.Failure? ==>
        unchanged(store) && activeSessionId == old(activeSessionId) && currentView == old(currentView)
      ensures isReady == old(isReady) && error == old(error)
      ensures selectedItem == old(selectedItem) && refreshKey == old(refreshKey)
      ensures isScanning == old(isScanning) && cameraActive == old(cameraActive)
      ensures scanContext == old(scanContext) && callbackContext == old(callbackContext) && scannerCreated == old(scannerCreated)
    {
      ghost var itemsBefore := store.items;
      started := store.StartNewStockTakeSession(readReachable, commitReachable);
      if started.Success? {
        StartLeavesNoMarkers(store.listing, itemsBefore, store.items);
        activeSessionId := Some(started.value);
        currentView := ChecklistView;
      }
    }

    /** handleContinueSession: open the checklist of the given session. */
    method HandleContinueSession(sessionId: SessionId)
      requires Valid()
      modifies this
      ensures Valid()
      ensures activeSessionId == Some(sessionId) && currentView == ChecklistView
      ensures isReady == old(isReady) && error == old(error)
      ensures selectedItem == old(selectedItem) && refreshKey == old(refreshKey)
      ensures isScanning == old(isScanning) && cameraActive == old(cameraActive)
      ensures scanContext == old(scanContext) && callbackContext == old(callbackContext) && scannerCreated == old(scannerCreated)
    {
      activeSessionId := Some(sessionId);
      currentView := ChecklistView;
    }

    /** handleFinishSession: finish the session in the store, then drop it and go back to the session view. */
    method HandleFinishSession(sessionId: Option<SessionId>, reachable: bool) returns (finished: Result<(), StoreError>)
      requires Valid()
      modifies this, store
      ensures Valid()
      ensures finished.Success? <==> sessionId.None? || (reachable && sessionId.value in old(store.sessions))
      ensures finished.Success? ==> activeSessionId == None && currentView == SessionView
      ensures finished.Success? && sessionId.Some? ==>
        && store.sessions == old(store.sessions)[sessionId.value :=
             Finished(old(store.sessions)[sessionId.value], old(store.clock))]
        && store.clock == old(store.clock) + 1 && store.items == old(store.items)
        && store.listing == old(store.listing) && store.sessionOrder == old(store.sessionOrder)
        && store.nextSessionId == old(store.nextSessionId) && store.currentUser == old(store.currentUser)
      ensures finished.Failure? || sessionId.None? ==> unchanged(store)
      ensures finished.Failure? ==> activeSessionId == old(activeSessionId) && currentView == old(currentView)
      ensures isReady == old(isReady) && error == old(error)
      ensures selectedItem == old(selectedItem) && refreshKey == old(refreshKey)
      ensures isScanning == old(isScanning) && cameraActive == old(cameraActive)
      ensures scanContext == old(scanContext) && callbackContext == old(callbackContext) && scannerCreated == old(scannerCreated)
    {
      finished := store.FinishStockTakeSession(sessionId, reachable);
      if finished.Success? {
        activeSessionId := None;
        currentView := SessionView;
      }
    }

    /**
     * The checklist's finish button followed by its onFinish callback: once
     * confirmed, the checklist finishes the active session itself and then
     * hands over to handleFinishSession, which finishes it a second time. The
     * session ends completed with the later timestamp.
     */
    method FinishFromChecklist(confirmed: bool, firstReachable: bool, secondReachable: bool)
      returns (prompt: FinishPrompt)
      requires Valid()
      modifies this, store, checklist
      ensures Valid()
      ensures var remaining := |Remaining(Filtered(old(checklist.allItems), old(checklist.searchTerm)), old(activeSessionId))|;
        prompt == if remaining > 0 then ConfirmWithRemaining(remaining) else ConfirmPlain
      ensures !confirmed ==> unchanged(store) && activeSessionId == old(activeSessionId) && currentView == old(currentView)
      ensures confirmed && old(activeSessionId).Some? && firstReachable && secondReachable
              && old(activeSessionId).value in old(store.sessions) ==>
        var id := old(activeSessionId).value;
        && store.sessions == old(store.sessions)[id := Finished(old(store.sessions)[id], old(store.clock) + 1)]
        && store.clock == old(store.clock) + 2
        && store.items == old(store.items)
        && store.listing == old(store.listing) && store.sessionOrder == old(store.sessionOrder)
        && store.nextSessionId == old(store.nextSessionId) && store.currentUser == old(store.currentUser)
        && activeSessionId == None && currentView == SessionView
      ensures confirmed && old(activeSessionId).Some? && firstReachable && !secondReachable
              && old(activeSessionId).value in old(store.sessions) ==>
        var id := old(activeSessionId).value;
        && store.sessions == old(store.sessions)[id := Finished(old(store.sessions)[id], old(store.clock))]
        && store.clock == old(store.clock) + 1
        && store.items == old(store.items)
        && store.listing == old(store.listing) && store.sessionOrder == old(store.sessionOrder)
        && store.nextSessionId == old(store.nextSessionId) && store.currentUser == old(store.currentUser)
        && activeSessionId == old(activeSessionId) && currentView == old(currentView)
      ensures confirmed && old(activeSessionId).Some? && !firstReachable ==>
        unchanged(store) && activeSessionId == old(activeSessionId) && currentView == old(currentView)
      ensures confirmed && old(activeSessionId).Some? && firstReachable && old(activeSessionId).value !in old(store.sessions) ==>
        unchanged(store) && activeSessionId == old(activeSessionId) && currentView == old(currentView)
      ensures confirmed && old(activeSessionId).None? ==>
        unchanged(store) && activeSessionId == None && currentView == SessionView
      ensures checklist.allItems == old(checklist.allItems) && checklist.searchTerm == old(checklist.searchTerm)
      ensures checklist.activeTab == old(checklist.activeTab) && checklist.error == old(checklist.error)
      ensures !confirmed ==> checklist.loading == old(checklist.loading)
      ensures confirmed && old(activeSessionId).Some?
              && !(firstReachable && old(activeSessionId).value in old(store.sessions)) ==>
        checklist.loading
      ensures confirmed && (old(activeSessionId).None? || (firstReachable && old(activeSessionId).value in old(store.sessions))) ==>
        !checklist.loading
      ensures isReady == old(isReady) && error == old(error)
      ensures selectedItem == old(selectedItem) && refreshKey == old(refreshKey)
      ensures isScanning == old(isScanning) && cameraActive == old(cameraActive)
      ensures scanContext == old(scanContext) && callbackContext == old(callbackContext) && scannerCreated == old(scannerCreated)
    {
      var callOnFinish;
      prompt, callOnFinish := checklist.HandleFinish(store, activeSessionId, confirmed, firstReachable);
      if callOnFinish {
        var _ := HandleFinishSession(activeSessionId, secondReachable);
      }
    }
  }

  /**
   * Select item a, ask to verify it, cancel the scan, close the dialog;
   * select item b, ask to verify it and scan a's code: b ends up verified.
   */
  method WrongItemVerifiedScenario(store: Store, a: Item, b: Item) returns (selection: Option<Selection>)
    requires store.Valid() && a.id != b.id
    ensures selection == Some(Selection(b, true))
  {
    var app := new App(store);
    app.SelectItem(a);
    app.RequestVerifyScan(true);
    app.StopScanner();
    app.HandleModalClose(false);
    app.SelectItem(b);
    app.RequestVerifyScan(true);
    app.OnScanSuccess(a.id, true);
    selection := app.selectedItem;
  }

  /** The first verification scan after start-up runs a general lookup and never verifies. */
  method FirstVerifyScanScenario(store: Store, a: Item, reachable: bool) returns (selection: Option<Selection>)
    requires store.Valid()
    ensures selection.Some? ==> !selection.value.isVerified
  {
    var app := new App(store);
    app.SelectItem(a);
    app.RequestVerifyScan(true);
    app.OnScanSuccess(a.id, reachable);
    selection := app.selectedItem;
  }

  /** A failed sign-in leaves the app on the initializing message: the error screen is never reached. */
  method FailedSignInScenario(store: Store) returns (screen: Screen)
    requires store.Valid()
    modifies store
    ensures screen == Initializing
  {
    var app := new App(store);
    app.AuthenticateApp(None);
    screen := app.CurrentScreen();
  }

  /** The run of WrongItemVerifiedScenario with the intended handler: scanning a's code leaves b unverified. */
  method WrongItemRejectedScenario(store: Store, a: Item, b: Item) returns (selection: Option<Selection>)
    requires store.Valid() && a.id != b.id
    ensures selection == Some(Selection(b, false))
  {
    var app := new App(store);
    app.SelectItem(a);
    app.RequestVerifyScan(true);
    app.StopScanner();
    app.HandleModalClose(false);
    app.SelectItem(b);
    app.RequestVerifyScan(true);
    app.OnScanSuccessIntended(a.id, true);
    selection := app.selectedItem;
  }

  /** With the intended handler the first verification scan of the selected item's own code verifies it. */
  method FirstVerifyScanIntendedScenario(store: Store, a: Item, reachable: bool) returns (selection: Option<Selection>)
    requires store.Valid()
    ensures selection == Some(Selection(a, true))
  {
    var app := new App(store);
    app.SelectItem(a);
    app.RequestVerifyScan(true);
    app.OnScanSuccessIntended(a.id, reachable);
    selection := app.selectedItem;
  }

  /** With the intended gate a failed sign-in shows its error message. */
  method FailedSignInIntendedScenario(store: Store) returns (screen: Screen)
    requires store.Valid()
    modifies store
    ensures screen == ErrorScreen(AuthFailedMessage)
  {
    var app := new App(store);
    app.AuthenticateApp(None);
    screen := app.IntendedScreen();
  }
}
