/**
  The backoffice wire types with hand-written JSON codecs: the integer-coded
  enumerations, `NumericBool`, and the two lenient payment-method decoders.
  A decoder is given the receiver's current value and the document, and
  yields the receiver afterwards with the error it returns.
 */
module BackofficeTypes {
  import opened Wrappers
  import opened Errors
  import opened Json

  /** What an `UnmarshalJSON` leaves behind: the receiver and the returned error. */
  datatype Decoded<T> = Decoded(receiver: T, err: Option<Error>)

  // ---------------------------------------------------------------- TransactionType

  type TransactionType = string

  const TransactionTypeWinning: TransactionType := "winning"
  const TransactionTypeBet: TransactionType := "bet"
  const TransactionTypeCorrectionUp: TransactionType := "correctionUp"
  const TransactionTypeCorrectionDown: TransactionType := "correctionDown"
  const TransactionTypeDeposit: TransactionType := "deposit"
  const TransactionTypeUnknown: TransactionType := "unknown"

  /** The `switch id` of `TransactionType.UnmarshalJSON`. */
  function TransactionTypeOf(id: int): TransactionType {
    if id == 15 then TransactionTypeWinning
    else if id == 10 then TransactionTypeBet
    else if id == 301 then TransactionTypeCorrectionUp
    else if id == 302 then TransactionTypeCorrectionDown
    else if id == 3 then TransactionTypeDeposit
    else TransactionTypeUnknown
  }

  /** The code of each named transaction type: the table read backwards. */
  function TransactionTypeID(t: TransactionType): Option<int> {
    if t == TransactionTypeWinning then Some(15)
    else if t == TransactionTypeBet then Some(10)
    else if t == TransactionTypeCorrectionUp then Some(301)
    else if t == TransactionTypeCorrectionDown then Some(302)
    else if t == TransactionTypeDeposit then Some(3)
    else None
  }

  /** `(*TransactionType).UnmarshalJSON`: a non-integer is an error and leaves the receiver alone. */
  function UnmarshalTransactionType(receiver: TransactionType, j: Json): (d: Decoded<TransactionType>)
    ensures d.err.Some? <==> DecodeInt(j).None?
    ensures d.err.Some? ==> d.receiver == receiver
    ensures d.err.None? ==> d.receiver == TransactionTypeOf(DecodeInt(j).value)
  {
    match DecodeInt(j)
    case None => Decoded(receiver, Some(Decoding))
    case Some(id) => Decoded(TransactionTypeOf(id), None)
  }

  /**
    The decoding table is a bijection between the five codes and the five
    named types; every other code decodes to `unknown`, which has no code.
   */
  lemma TransactionTypeRoundTrip(id: int, t: TransactionType)
    ensures TransactionTypeID(TransactionTypeOf(id)) == (if id in {15, 10, 301, 302, 3} then Some(id) else None)
    ensures TransactionTypeID(t).Some? ==> TransactionTypeOf(TransactionTypeID(t).value) == t
    ensures TransactionTypeOf(id) == TransactionTypeUnknown <==> id !in {15, 10, 301, 302, 3}
  {
  }

  // ---------------------------------------------------------------- WithdrawalStatus

  type WithdrawalStatus = string

  const WithdrawalStatusPending: WithdrawalStatus := "pending"
  const WithdrawalStatusPaid: WithdrawalStatus := "paid"
  const WithdrawalStatusRejected: WithdrawalStatus := "rejected"
  const WithdrawalStatusCancelled: WithdrawalStatus := "cancelled"
  const WithdrawalStatusUnknown: WithdrawalStatus := "unknown"

  function WithdrawalStatusOf(id: int): WithdrawalStatus {
    if id == 0 then WithdrawalStatusPending
    else if id == 3 then WithdrawalStatusPaid
    else if id == -2 then WithdrawalStatusRejected
    else if id == -1 then WithdrawalStatusCancelled
    else WithdrawalStatusUnknown
  }

  function WithdrawalStatusID(w: WithdrawalStatus): Option<int> {
    if w == WithdrawalStatusPending then Some(0)
    else if w == WithdrawalStatusPaid then Some(3)
    else if w == WithdrawalStatusRejected then Some(-2)
    else if w == WithdrawalStatusCancelled then Some(-1)
    else None
  }

  /** `(*WithdrawalStatus).UnmarshalJSON`. */
  function UnmarshalWithdrawalStatus(receiver: WithdrawalStatus, j: Json): (d: Decoded<WithdrawalStatus>)
    ensures d.err.Some? <==> DecodeInt(j).None?
    ensures d.err.Some? ==> d.receiver == receiver
    ensures d.err.None? ==> d.receiver == WithdrawalStatusOf(DecodeInt(j).value)
  {
    match DecodeInt(j)
    case None => Decoded(receiver, Some(Decoding))
    case Some(id) => Decoded(WithdrawalStatusOf(id), None)
  }

  /** As for transaction types, over the codes 0, 3, -2 and -1. */
  lemma WithdrawalStatusRoundTrip(id: int, w: WithdrawalStatus)
    ensures WithdrawalStatusID(WithdrawalStatusOf(id)) == (if id in {0, 3, -2, -1} then Some(id) else None)
    ensures WithdrawalStatusID(w).Some? ==> WithdrawalStatusOf(WithdrawalStatusID(w).value) == w
    ensures WithdrawalStatusOf(id) == WithdrawalStatusUnknown <==> id !in {0, 3, -2, -1}
  {
  }

  /** `null` leaves the Go `int` at zero, so a `null` state reads as pending. */
  lemma NullWithdrawalStatusIsPending(receiver: WithdrawalStatus)
    ensures UnmarshalWithdrawalStatus(receiver, JNull) == Decoded(WithdrawalStatusPending, None)
  {
  }

  // ---------------------------------------------------------------- SportBetStatus

  type SportBetStatus = string

  const SportBetStatusPending: SportBetStatus := "pending"
  const SportBetStatusUnknown: SportBetStatus := "unknown"

  /** `SportBetStatus.MarshalJSON`: only `pending` has a code. */
  function MarshalSportBetStatus(s: SportBetStatus): (r: Result<Json, Error>)
    ensures r.Success? <==> s == SportBetStatusPending
    ensures r.Success? ==> r.value == JInt(1)
    ensures r.Failure? ==> r.error == UnknownSportBetStatus(s)
  {
    if s == SportBetStatusPending then Success(JInt(1)) else Failure(UnknownSportBetStatus(s))
  }

  /** `(*SportBetStatus).UnmarshalJSON`: 1 is pending, any other integer unknown. */
  function UnmarshalSportBetStatus(receiver: SportBetStatus, j: Json): (d: Decoded<SportBetStatus>)
    ensures d.err.Some? <==> DecodeInt(j).None?
    ensures d.err.Some? ==> d.receiver == receiver
    ensures d.err.None? ==> (d.receiver == SportBetStatusPending <==> DecodeInt(j).value == 1)
    ensures d.err.None? ==> d.receiver in {SportBetStatusPending, SportBetStatusUnknown}
  {
    match DecodeInt(j)
    case None => Decoded(receiver, Some(Decoding))
    case Some(id) => Decoded(if id == 1 then SportBetStatusPending else SportBetStatusUnknown, None)
  }

  /** Whatever encodes decodes back to itself. */
  lemma SportBetStatusRoundTrip(s: SportBetStatus, receiver: SportBetStatus)
    requires MarshalSportBetStatus(s).Success?
    ensures UnmarshalSportBetStatus(receiver, MarshalSportBetStatus(s).value) == Decoded(s, None)
  {
  }

  // ---------------------------------------------------------------- NumericBool

  /** `NumericBool.MarshalJSON`: true is 1, false is 0. */
  function MarshalNumericBool(b: bool): (j: Json)
    ensures j.JInt? && (j.i == 1 || j.i == 0) && (b <==> j.i == 1)
  {
    JInt(if b then 1 else 0)
  }

  /** `(*NumericBool).UnmarshalJSON`: any non-zero integer is true. */
  function UnmarshalNumericBool(receiver: bool, j: Json): (d: Decoded<bool>)
    ensures d.err.Some? <==> DecodeInt(j).None?
    ensures d.err.Some? ==> d.receiver == receiver
    ensures d.err.None? ==> (d.receiver <==> DecodeInt(j).value != 0)
  {
    match DecodeInt(j)
    case None => Decoded(receiver, Some(Decoding))
    case Some(v) => Decoded(v != 0, None)
  }

  /** Encoding then decoding gives the value back; decoding an integer then encoding normalises it to 0 or 1. */
  lemma NumericBoolRoundTrip(b: bool, receiver: bool, i: int)
    ensures UnmarshalNumericBool(receiver, MarshalNumericBool(b)) == Decoded(b, None)
    ensures MinInt64 <= i <= MaxInt64 ==>
      MarshalNumericBool(UnmarshalNumericBool(receiver, JInt(i)).receiver) == JInt(if i == 0 then 0 else 1)
  {
  }

  // ---------------------------------------------------------------- PaymentMethodGroupIDs

  /**
    `(*PaymentMethodGroupIDs).UnmarshalJSON`: an array is accepted and leaves
    the receiver as it was; a string resets it to empty; anything else is an
    error.
   */
  function UnmarshalGroupIDs(receiver: seq<int>, j: Json): (d: Decoded<seq<int>>)
    ensures d.err.None? <==> j.JArray? || j.JString?
    ensures d.err.Some? ==> d == Decoded(receiver, Some(InvalidPaymentMethodGroupIDs))
    ensures j.JString? ==> d.receiver == []
    ensures j.JArray? ==> d.receiver == receiver
  {
    match j
    case JArray(_) => Decoded(receiver, None)
    case JString(_) => Decoded([], None)
    case _ => Decoded(receiver, Some(InvalidPaymentMethodGroupIDs))
  }

  // ---------------------------------------------------------------- PaymentMethodConfigFieldOptions

  /** `PaymentMethodConfigFieldOption{Value, Label}`. */
  datatype FieldOption = FieldOption(value: string, text: string)

  /** A string member for the standard decoder: missing and `null` leave `""`. */
  function LenientString(j: Json): Option<string> {
    match j
    case JNull => Some("")
    case JString(s) => Some(s)
    case _ => None
  }

  /** An element of the array form, decoded by the standard decoder. */
  function DecodeArrayOption(j: Json): (r: Option<FieldOption>)
    ensures j.JObject? && LenientString(Member(j.fields, "value")).Some? && LenientString(Member(j.fields, "text")).Some? ==> r.Some?
    ensures r.Some? ==> j.JNull? || j.JObject?
  {
    match j
    case JNull => Some(FieldOption("", ""))
    case JObject(fields) =>
      var value := LenientString(Member(fields, "value"));
      var text := LenientString(Member(fields, "text"));
      if value.Some? && text.Some? then Some(FieldOption(value.value, text.value)) else None
    case _ => None
  }

  /** `json.Unmarshal(b, &opts)` into a slice: `null`, or an array whose every element decodes. */
  function DecodeArrayForm(j: Json): (r: Option<seq<FieldOption>>)
    ensures r.Some? <==> j.JNull? || (j.JArray? && forall i :: 0 <= i < |j.items| ==> DecodeArrayOption(j.items[i]).Some?)
    ensures r.Some? && j.JArray? ==> |r.value| == |j.items|
    ensures r.Some? && j.JArray? ==> forall i :: 0 <= i < |j.items| ==> r.value[i] == DecodeArrayOption(j.items[i]).value
  {
    match j
    case JNull => Some([])
    case JArray(items) => DecodeAll(items)
    case _ => None
  }

  function DecodeAll(items: seq<Json>): (r: Option<seq<FieldOption>>)
    ensures r.Some? <==> forall i :: 0 <= i < |items| ==> DecodeArrayOption(items[i]).Some?
    ensures r.Some? ==> |r.value| == |items| && forall i :: 0 <= i < |items| ==> r.value[i] == DecodeArrayOption(items[i]).value
  {
    if items == [] then Some([])
    else
      var head := DecodeArrayOption(items[0]);
      var tail := DecodeAll(items[1..]);
      if head.Some? && tail.Some? then Some([head.value] + tail.value)
      else
        assert head.None? ==> DecodeArrayOption(items[0]).None?;
        assert tail.None? ==> exists i :: 0 <= i < |items| - 1 && DecodeArrayOption(items[1..][i]).None?;
        None
  }

  /**
    One member of the object form: an object must carry string `value` and
    `text` (missing or `null` is an error here); any other member is skipped.
   */
  function ObjectMemberOption(j: Json): (r: Result<Option<FieldOption>, Error>)
    ensures r.Failure? ==> r.error == InvalidPaymentMethodConfigFieldOption
    ensures r.Failure? <==> j.JObject? && !(Member(j.fields, "value").JString? && Member(j.fields, "text").JString?)
    ensures r.Success? ==> (r.value.Some? <==> j.JObject?)
    ensures r.Success? && r.value.Some? ==> r.value.value == FieldOption(Member(j.fields, "value").s, Member(j.fields, "text").s)
  {
    match j
    case JObject(fields) =>
      var value := Member(fields, "value");
      var text := Member(fields, "text");
      if value.JString? && text.JString? then Success(Some(FieldOption(value.s, text.s)))
      else Failure(InvalidPaymentMethodConfigFieldOption)
    case _ => Success(None)
  }

  /** A member whose value makes the object form fail. */
  predicate BadMember(fields: map<string, Json>, k: string) {
    k in fields && ObjectMemberOption(fields[k]).Failure?
  }

  /** The options collected from the members in iteration order `order`; the first bad member stops the loop. */
  function Collect(fields: map<string, Json>, order: seq<string>): (r: Result<seq<FieldOption>, Error>)
    requires forall k :: k in order ==> k in fields
    ensures r.Failure? <==> exists i :: 0 <= i < |order| && BadMember(fields, order[i])
    ensures r.Failure? ==> r.error == InvalidPaymentMethodConfigFieldOption
    ensures r.Success? ==> forall x :: x in r.value <==>
      exists i :: 0 <= i < |order| && ObjectMemberOption(fields[order[i]]) == Success(Some(x))
    decreases |order|
  {
    if order == [] then Success([])
    else
      var last := order[|order| - 1];
      var init := order[..|order| - 1];
      assert forall i :: 0 <= i < |init| ==> init[i] == order[i];
      match Collect(fields, init)
      case Failure(e) => Failure(e)
      case Success(opts) =>
        match ObjectMemberOption(fields[last])
        case Failure(e) => Failure(e)
        case Success(None) => Success(opts)
        case Success(Some(opt)) => Success(opts + [opt])
  }

  /** The `for _, value := range m` loop: append each object member's option, stop at the first bad one. */
  method CollectOptions(fields: map<string, Json>, order: seq<string>) returns (r: Result<seq<FieldOption>, Error>)
    requires forall k :: k in order ==> k in fields
    ensures r == Collect(fields, order)
  {
    var opts: seq<FieldOption> := [];
    var i := 0;
    while i < |order|
      invariant 0 <= i <= |order|
      invariant Collect(fields, order[..i]) == Success(opts)
    {
      assert order[..i + 1][..i] == order[..i];
      var m := ObjectMemberOption(fields[order[i]]);
      if m.Failure? {
        assert Collect(fields, order[..i + 1]).Failure?;
        CollectStopsAtFailure(fields, order, i + 1);
        return Failure(m.error);
      }
      if m.value.Some? {
        opts := opts + [m.value.value];
      }
      i := i + 1;
    }
    assert order[..|order|] == order;
    return Success(opts);
  }

  /** Once a prefix of the iteration fails, the whole iteration fails with the same error. */
  lemma {:induction false} CollectStopsAtFailure(fields: map<string, Json>, order: seq<string>, n: nat)
    requires forall k :: k in order ==> k in fields
    requires n <= |order| && Collect(fields, order[..n]).Failure?
    ensures Collect(fields, order) == Collect(fields, order[..n])
    decreases |order| - n
  {
    if n < |order| {
      assert order[..n + 1][..n] == order[..n];
      CollectStopsAtFailure(fields, order, n + 1);
    } else {
      assert order[..n] == order;
    }
  }

  /** `order` lists the keys of `fields`, each once: the order a Go map range happened to take. */
  predicate IsIterationOrder(fields: map<string, Json>, order: seq<string>) {
    (forall k :: k in fields ==> k in order) && (forall k :: k in order ==> k in fields) && (forall i, j :: 0 <= i < j < |order| ==> order[i] != order[j])
  }

  /**
    Whether the object form fails, and which options it collects, does not
    depend on the order the map is ranged in.
   */
  lemma CollectOrderIndependent(fields: map<string, Json>, o1: seq<string>, o2: seq<string>)
    requires IsIterationOrder(fields, o1) && IsIterationOrder(fields, o2)
    ensures Collect(fields, o1).Failure? <==> Collect(fields, o2).Failure?
    ensures Collect(fields, o1).Success? ==> forall x :: x in Collect(fields, o1).value <==> x in Collect(fields, o2).value
  {
    var r1 := Collect(fields, o1);
    var r2 := Collect(fields, o2);
    if r1.Failure? {
      var i :| 0 <= i < |o1| && BadMember(fields, o1[i]);
      var k := o1[i];
      assert k in o2;
      var j :| 0 <= j < |o2| && o2[j] == k;
    }
    if r2.Failure? {
      var j :| 0 <= j < |o2| && BadMember(fields, o2[j]);
      var k := o2[j];
      assert k in o1;
      var i :| 0 <= i < |o1| && o1[i] == k;
    }
    if r1.Success? && r2.Success? {
      forall x ensures x in r1.value <==> x in r2.value {
        if x in r1.value {
          var i :| 0 <= i < |o1| && ObjectMemberOption(fields[o1[i]]) == Success(Some(x));
          assert o1[i] in o2;
          var j :| 0 <= j < |o2| && o2[j] == o1[i];
        }
        if x in r2.value {
          var j :| 0 <= j < |o2| && ObjectMemberOption(fields[o2[j]]) == Success(Some(x));
          assert o2[j] in o1;
          var i :| 0 <= i < |o1| && o1[i] == o2[j];
        }
      }
    }
  }

  /**
    `(*PaymentMethodConfigFieldOptions).UnmarshalJSON` as written: the array
    form is assigned; the object form is validated and its options collected,
    but the receiver is never assigned.
   */
  function UnmarshalFieldOptionsAsWritten(receiver: seq<FieldOption>, j: Json, order: seq<string>): (d: Decoded<seq<FieldOption>>)
    requires j.JObject? ==> IsIterationOrder(j.fields, order)
    ensures DecodeArrayForm(j).Some? ==> d == Decoded(DecodeArrayForm(j).value, None)
    ensures DecodeArrayForm(j).None? ==> d.receiver == receiver
    ensures DecodeArrayForm(j).None? && !j.JObject? ==> d.err == Some(InvalidPaymentMethodConfigFieldOption)
    ensures j.JObject? ==> (d.err.Some? <==> exists k :: BadMember(j.fields, k))
  {
    match DecodeArrayForm(j)
    case Some(opts) => Decoded(opts, None)
    case None =>
      if j.JObject? then
        var collected := Collect(j.fields, order);
        assert collected.Failure? ==> exists k :: BadMember(j.fields, k);
        assert (exists k :: BadMember(j.fields, k)) ==> collected.Failure? by {
          if k :| BadMember(j.fields, k) {
            assert k in order;
          }
        }
        Decoded(receiver, if collected.Failure? then Some(collected.error) else None)
      else Decoded(receiver, Some(InvalidPaymentMethodConfigFieldOption))
  }

  /**
    The same decoder with the collected options assigned, as the loop that
    builds them evidently intends.
   */
  function UnmarshalFieldOptions(receiver: seq<FieldOption>, j: Json, order: seq<string>): (d: Decoded<seq<FieldOption>>)
    requires j.JObject? ==> IsIterationOrder(j.fields, order)
    ensures d.err == UnmarshalFieldOptionsAsWritten(receiver, j, order).err
    ensures d.err.Some? ==> d.receiver == receiver
    ensures DecodeArrayForm(j).Some? ==> d == Decoded(DecodeArrayForm(j).value, None)
    ensures j.JObject? && d.err.None? ==> forall x :: x in d.receiver <==>
      exists k :: k in j.fields && ObjectMemberOption(j.fields[k]) == Success(Some(x))
  {
    match DecodeArrayForm(j)
    case Some(opts) => Decoded(opts, None)
    case None =>
      if j.JObject? then
        match Collect(j.fields, order)
        case Failure(e) => Decoded(receiver, Some(e))
        case Success(opts) =>
          assert forall x :: (exists k :: k in j.fields && ObjectMemberOption(j.fields[k]) == Success(Some(x))) ==> x in opts by {
            forall x | exists k :: k in j.fields && ObjectMemberOption(j.fields[k]) == Success(Some(x)) ensures x in opts {
              var k :| k in j.fields && ObjectMemberOption(j.fields[k]) == Success(Some(x));
              assert k in order;
              var i :| 0 <= i < |order| && order[i] == k;
            }
          }
          Decoded(opts, None)
      else Decoded(receiver, Some(InvalidPaymentMethodConfigFieldOption))
  }

  /**
    The object form `{"a": {"value": "v", "text": "t"}}` decodes without
    error, yet the decoder as written leaves an empty receiver empty; the
    corrected one yields the option.
   */
  lemma ObjectFormDropped()
    ensures var j := JObject(map["a" := JObject(map["value" := JString("v"), "text" := JString("t")])]);
      && UnmarshalFieldOptionsAsWritten([], j, ["a"]) == Decoded([], None)
      && UnmarshalFieldOptions([], j, ["a"]) == Decoded([FieldOption("v", "t")], None)
  {
    var inner := JObject(map["value" := JString("v"), "text" := JString("t")]);
    var j := JObject(map["a" := inner]);
    assert ObjectMemberOption(inner) == Success(Some(FieldOption("v", "t")));
    var order := ["a"];
    assert order[..|order| - 1] == [] && order[|order| - 1] == "a";
    assert Collect(j.fields, []) == Success([]);
    assert j.fields["a"] == inner;
    assert Collect(j.fields, order) == Success([] + [FieldOption("v", "t")]);
    assert [] + [FieldOption("v", "t")] == [FieldOption("v", "t")];
    assert DecodeArrayForm(j).None?;
  }
}
