/**
 * The counting dialog: reading the typed value, the weight-to-quantity rule
 * and its guards, validation of the new count, and the commit to the store.
 */
module Counting {
  import opened Wrappers
  import opened Inventory
  import opened FirestoreApi

  // ---------------------------------------------------------------------
  // Reading numbers from the input field

  predicate IsDigit(c: char)
  {
    '0' <= c <= '9'
  }

  predicate AllDigits(s: string)
  {
    forall i :: 0 <= i < |s| ==> IsDigit(s[i])
  }

  /** The length of the longest all-digit prefix of s. */
  function DigitRun(s: string): (n: nat)
    ensures n <= |s| && AllDigits(s[..n])
    ensures n < |s| ==> !IsDigit(s[n])
  {
    if s == [] || !IsDigit(s[0]) then 0 else 1 + DigitRun(s[1..])
  }

  /** The decimal value of a digit string. */
  function DigitsValue(ds: string): nat
    requires AllDigits(ds)
  {
    if ds == [] then 0 else 10 * DigitsValue(ds[..|ds| - 1]) + (ds[|ds| - 1] as int - '0' as int)
  }

  function Pow10(m: nat): (r: nat)
    ensures r >= 1
  {
    if m == 0 then 1 else 10 * Pow10(m - 1)
  }

  /** A leading sign, as (negative, the rest). */
  function SplitSign(s: string): (bool, string)
  {
    if |s| > 0 && (s[0] == '-' || s[0] == '+') then (s[0] == '-', s[1..]) else (false, s)
  }

  /**
   * parseInt(s, 10): an optional sign and the longest run of digits after it;
   * NaN (None) when there is no digit. Anything after the digits is ignored.
   */
  function ParseInt(s: string): Option<int>
  {
    var (negative, body) := SplitSign(s);
    var n := DigitRun(body);
    if n == 0 then None
    else
      var v: int := DigitsValue(body[..n]);
      Some(if negative then -v else v)
  }

  /**
   * parseFloat(s): an optional sign, digits, and optionally a point followed
   * by digits; NaN (None) when neither part has a digit.
   */
  function ParseFloat(s: string): Option<real>
  {
    var (negative, body) := SplitSign(s);
    var n := DigitRun(body);
    var rest := body[n..];
    var m := if |rest| > 0 && rest[0] == '.' then DigitRun(rest[1..]) else 0;
    if n == 0 && m == 0 then None
    else
      var whole := DigitsValue(body[..n]) as real;
      var fraction := if m > 0 then DigitsValue(rest[1..][..m]) as real / Pow10(m) as real else 0.0;
      Some(if negative then -(whole + fraction) else whole + fraction)
  }

  function DigitChar(d: nat): char
    requires d < 10
  {
    ('0' as int + d) as char
  }

  /** The decimal numeral of n, as a number input field holds it. */
  function NatToString(n: nat): (s: string)
    ensures |s| >= 1 && AllDigits(s)
  {
    if n < 10 then [DigitChar(n)] else NatToString(n / 10) + [DigitChar(n % 10)]
  }

  lemma {:induction false} DigitsValueOfNumeral(n: nat)
    ensures DigitsValue(NatToString(n)) == n
  {
    if n >= 10 {
      var s := NatToString(n);
      assert s[..|s| - 1] == NatToString(n / 10);
      DigitsValueOfNumeral(n / 10);
    }
  }

  /** Reading back a written numeral, with or without a minus sign, gives the number. */
  lemma ParseNumeral(n: nat)
    ensures ParseInt(NatToString(n)) == Some(n)
    ensures ParseInt("-" + NatToString(n)) == Some(-(n as int))
    ensures ParseFloat(NatToString(n)) == Some(n as real)
    ensures ParseFloat("-" + NatToString(n)) == Some(-(n as real))
  {
    var s := NatToString(n);
    DigitsValueOfNumeral(n);
    assert DigitRun(s) == |s|;
    assert s[..|s|] == s;
    assert SplitSign(s) == (false, s);
    assert SplitSign("-" + s) == (true, s) by { assert ("-" + s)[1..] == s; }
    assert s[|s|..] == [];
  }

  // ---------------------------------------------------------------------
  // The weight rule

  /** Math.round: the nearest integer, halves rounded up. */
  function Round(x: real): (r: int)
    ensures x - 0.5 < r as real <= x + 0.5
  {
    (x + 0.5).Floor
  }

  datatype Quantity = NoQuantity | Invalid | Qty(n: int)

  /** A falsy tare or unit weight counts as 0. */
  function OrZero(w: Option<real>): real
  {
    if w.Some? then w.value else 0.0
  }

  /**
   * The quantity a weighing stands for: invalid for a non-positive unit
   * weight, an unreadable total or a total below the tare; otherwise the net
   * weight over the unit weight, rounded, which is never negative.
   */
  function WeightQuantity(total: Option<real>, tare: real, unit: real): (q: Quantity)
    ensures q != NoQuantity
    ensures q == Invalid <==> unit <= 0.0 || total.None? || total.value < tare
    ensures q.Qty? ==> q.n >= 0
    ensures q.Qty? ==> var x := (total.value - tare) / unit; x - 0.5 < q.n as real <= x + 0.5
  {
    if unit <= 0.0 then Invalid
    else
      match total
      case None => Invalid
      case Some(t) =>
        if t < tare then Invalid
        else
          var x := (t - tare) / unit;
          assert x >= 0.0;
          Qty(Round(x))
  }

  /** Unit 10, tare 50: a total of 550 is 50 pieces; 40 is below the tare; a zero unit weight is invalid. */
  lemma WeightExamples()
    ensures WeightQuantity(Some(550.0), 50.0, 10.0) == Qty(50)
    ensures WeightQuantity(Some(40.0), 50.0, 10.0) == Invalid
    ensures WeightQuantity(Some(550.0), 50.0, 0.0) == Invalid
  {
  }

  /**
   * calculatedQuantity: nothing unless the item is weighed and a value was
   * typed; then the weight rule on the typed total, with a missing tare or
   * unit weight taken as 0.
   */
  function CalculatedQuantity(item: Item, input: string): (q: Quantity)
    ensures q == NoQuantity <==> item.doc.stockTakeMethod != WeightMethod || input == ""
    ensures q == Invalid <==>
      && item.doc.stockTakeMethod == WeightMethod && input != ""
      && (|| OrZero(item.doc.unitWeight) <= 0.0
          || ParseFloat(input).None?
          || ParseFloat(input).value < OrZero(item.doc.tareWeight))
    ensures q.Qty? ==> q.n >= 0
    ensures q.Qty? ==> (
      && ParseFloat(input).Some?
      && var x := (ParseFloat(input).value - OrZero(item.doc.tareWeight)) / OrZero(item.doc.unitWeight);
         x - 0.5 < q.n as real <= x + 0.5)
  {
    if item.doc.stockTakeMethod != WeightMethod || input == "" then NoQuantity
    else WeightQuantity(ParseFloat(input), OrZero(item.doc.tareWeight), OrZero(item.doc.unitWeight))
  }

  // ---------------------------------------------------------------------
  // Validation and commit

  /** What the typed value amounts to before anything is written. */
  datatype StockCandidate = NoValue | WeightRejected | QuantityRejected | Accepted(count: int)

  /**
   * The checks of the update handler: an empty value is refused first; a
   * weighed item needs a numeric, non-negative calculated quantity; a counted
   * item needs parseInt to give a non-negative number.
   */
  function Validate(item: Item, input: string): (c: StockCandidate)
    ensures c == NoValue <==> input == ""
    ensures c.Accepted? ==> c.count >= 0
    ensures input != "" && item.doc.stockTakeMethod == WeightMethod ==>
      && c != QuantityRejected
      && (c.Accepted? <==> CalculatedQuantity(item, input).Qty?)
      && (c.Accepted? ==> c.count == CalculatedQuantity(item, input).n)
    ensures input != "" && item.doc.stockTakeMethod == CountMethod ==>
      && c != WeightRejected
      && (c.Accepted? <==> ParseInt(input).Some? && ParseInt(input).value >= 0)
      && (c.Accepted? ==> c.count == ParseInt(input).value)
  {
    if input == "" then NoValue
    else if item.doc.stockTakeMethod == WeightMethod then
      match CalculatedQuantity(item, input)
      case Qty(n) => if n < 0 then WeightRejected else Accepted(n)
      case _ => WeightRejected
    else
      match ParseInt(input)
      case None => QuantityRejected
      case Some(n) => if n < 0 then QuantityRejected else Accepted(n)
  }

  /** A counted item with "232" typed is accepted as 232; a weighed one at 550 g (tare 50, unit 10) as 50. */
  lemma ValidateExamples(item: Item)
    ensures item.doc.stockTakeMethod == CountMethod ==> Validate(item, "232") == Accepted(232)
    ensures item.doc == item.doc.(stockTakeMethod := WeightMethod, tareWeight := Some(50.0), unitWeight := Some(10.0))
      ==> Validate(item, "550") == Accepted(50)
  {
    ParseNumeral(232);
    assert NatToString(232) == "232";
    ParseNumeral(550);
    assert NatToString(550) == "550";
    WeightExamples();
  }

  const EnterValueAlert: string := "Please enter a value."
  const InvalidWeightMessage: string := "Invalid weight calculation. Please check the value."
  const InvalidQuantityMessage: string := "Invalid quantity. Please enter a valid number."
  const UpdateFailedMessage: string := "Failed to update stock in the database."

  /** How the update handler ended; Committed is the one that calls onClose(true). */
  datatype CommitOutcome = AlertedEmpty | RejectedWeight | RejectedQuantity | WriteFailed | Committed

  class CountingModal {
    var loading: bool
    var error: Option<string>
    var inputValue: string

    /** A freshly opened dialog: idle, no error, nothing typed. */
    constructor ()
      ensures !loading && error == None && inputValue == ""
    {
      loading := false;
      error := None;
      inputValue := "";
    }

    /**
     * handleUpdateStock: refuse an empty value with an alert and no change;
     * otherwise turn loading on, clear the error, work out the new count and
     * refuse an invalid one with an error message and no write; else write
     * the count, the time and the session to the item, and on success signal
     * onClose(true), on failure show an error. Loading is off at every exit
     * after it was turned on.
     */
    method HandleUpdateStock(store: Store, item: Item, sessionId: Option<SessionId>, reachable: bool)
      returns (outcome: CommitOutcome)
      requires store.Valid()
      modifies this, store
      ensures store.Valid()
      ensures inputValue == old(inputValue)
      ensures match Validate(item, old(inputValue))
        case NoValue => outcome == AlertedEmpty
        case WeightRejected => outcome == RejectedWeight
        case QuantityRejected => outcome == RejectedQuantity
        case Accepted(_) =>
          outcome == if reachable && Key(item.collection, item.id) in old(store.items) then Committed else WriteFailed
      ensures outcome == AlertedEmpty ==> loading == old(loading) && error == old(error)
      ensures outcome != AlertedEmpty ==> !loading
      ensures outcome == RejectedWeight ==> error == Some(InvalidWeightMessage)
      ensures outcome == RejectedQuantity ==> error == Some(InvalidQuantityMessage)
      ensures outcome == WriteFailed ==> error == Some(UpdateFailedMessage)
      ensures outcome == Committed ==> error == None
      ensures outcome != Committed ==> unchanged(store)
      ensures outcome == Committed ==>
        var key := Key(item.collection, item.id);
        && key in old(store.items)
        && store.items == old(store.items)[key := old(store.items)[key].(
             currentStock := Validate(item, old(inputValue)).count,
             lastCountedAt := Some(old(store.clock)),
             lastCountedInSessionId := sessionId)]
        && store.clock == old(store.clock) + 1
        && store.sessions == old(store.sessions) && store.listing == old(store.listing)
        && store.sessionOrder == old(store.sessionOrder) && store.nextSessionId == old(store.nextSessionId)
        && store.currentUser == old(store.currentUser)
    {
      if inputValue == "" {
        // alert(EnterValueAlert)
        return AlertedEmpty;
      }
      loading := true;
      error := None;
      var newStockCount: Option<int> := Some(0);
      if item.doc.stockTakeMethod == WeightMethod {
        var qty := CalculatedQuantity(item, inputValue);
        if !qty.Qty? || qty.n < 0 {
          error := Some(InvalidWeightMessage);
          loading := false;
          return RejectedWeight;
        }
        newStockCount := Some(qty.n);
      } else {
        newStockCount := ParseInt(inputValue);
      }
      if newStockCount.None? || newStockCount.value < 0 {
        error := Some(InvalidQuantityMessage);
        loading := false;
        return RejectedQuantity;
      }
      var written := store.UpdateStockCount(item.collection, item.id, newStockCount.value, sessionId, reachable);
      if written.Success? {
        outcome := Committed;
      } else {
        error := Some(UpdateFailedMessage);
        outcome := WriteFailed;
      }
      loading := false;
    }
  }
}
