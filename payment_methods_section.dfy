/** The saved-payment-method list on the account page: adding a card from the form (with
    field validation and derived last four digits and expiry), choosing the default card,
    and deleting a card. The save is local: no provider or database call is made. */
module PaymentMethodsSection {
  import opened Common

  datatype SavedPaymentMethod = SavedPaymentMethod(
    id: string,
    brand: string,
    last4: string,
    expMonth: int,
    expYear: int,
    cardLabel: Option<string>,
    isDefault: Option<bool>)

  /** The four inputs of the add-card form. */
  datatype FormField = LabelField | CardNumberField | ExpField | CvcField

  const MISSING_CARD_ERROR := "カード情報を入力してください。"

  /** The list the section starts with. */
  const INITIAL_METHODS: seq<SavedPaymentMethod> := [
    SavedPaymentMethod("pm_1", "Visa", "4242", 4, 2028, Some("メインカード"), Some(true)),
    SavedPaymentMethod("pm_2", "Mastercard", "4444", 11, 2027, Some("仕事用"), Some(false))
  ]

  /** `cardNumber.slice(-4)`: the last four characters, or the whole string when shorter. */
  function Last4(cardNumber: string): (r: string)
    ensures |r| == if |cardNumber| < 4 then |cardNumber| else 4
    ensures forall i :: 0 <= i < |r| ==> r[i] == cardNumber[|cardNumber| - |r| + i]
  {
    if |cardNumber| < 4 then cardNumber else cardNumber[|cardNumber| - 4..]
  }

  /** `const [mm, yy] = exp.split("/")`: the first piece, and the second if there is one. */
  function ExpParts(exp: string): (Option<string>, Option<string>) {
    var parts := Split(exp, '/');
    (Some(parts[0]), if |parts| > 1 then Some(parts[1]) else None)
  }

  /** `Number(s) || fallback`: a missing piece, a piece that is not a number, and 0 all give
      the fallback. */
  function NumberOr(s: Option<string>, fallback: nat): (r: nat)
    ensures r == fallback || r > 0
    ensures s.Some? && ParseNumber(s.value).Some? && ParseNumber(s.value).value != 0 ==>
              r == ParseNumber(s.value).value
    ensures !(s.Some? && ParseNumber(s.value).Some? && ParseNumber(s.value).value != 0) ==> r == fallback
  {
    match s
    case None => fallback
    case Some(t) =>
      match ParseNumber(t)
      case Some(v) => if v != 0 then v else fallback
      case None => fallback
  }

  /** `Number(mm) || 1` */
  function ExpMonth(exp: string): (m: int)
    ensures m >= 1
  {
    NumberOr(ExpParts(exp).0, 1)
  }

  /** `2000 + (Number(yy) || 30)` */
  function ExpYear(exp: string): (y: int)
    ensures y > 2000
  {
    2000 + NumberOr(ExpParts(exp).1, 30)
  }

  /** `label || "New card"` */
  function LabelOrDefault(cardLabel: string): (r: string)
    ensures r != ""
    ensures cardLabel != "" ==> r == cardLabel
  {
    if cardLabel != "" then cardLabel else "New card"
  }

  /** The record `handleAddMethod` builds; `nowMs` is `Date.now()`. */
  function NewMethod(methods: seq<SavedPaymentMethod>, cardLabel: string, cardNumber: string, exp: string, nowMs: nat): SavedPaymentMethod {
    SavedPaymentMethod(
      "local_" + NatToString(nowMs),
      "Card",
      Last4(cardNumber),
      ExpMonth(exp),
      ExpYear(exp),
      Some(LabelOrDefault(cardLabel)),
      Some(|methods| == 0))
  }

  /** The validation of `handleAddMethod`: every card field is filled in. */
  predicate CardFieldsFilled(cardNumber: string, exp: string, cvc: string) {
    |cardNumber| > 0 && |exp| > 0 && |cvc| > 0
  }

  /** `handleSetDefault(id)`'s update of the list. */
  function WithDefault(methods: seq<SavedPaymentMethod>, id: string): seq<SavedPaymentMethod> {
    seq(|methods|, k requires 0 <= k < |methods| => methods[k].(isDefault := Some(methods[k].id == id)))
  }

  /** `handleDelete(id)`'s update of the list. */
  function WithoutMethod(methods: seq<SavedPaymentMethod>, id: string): seq<SavedPaymentMethod> {
    Filter(methods, (m: SavedPaymentMethod) => m.id != id)
  }

  predicate IsDefault(m: SavedPaymentMethod) {
    m.isDefault == Some(true)
  }

  predicate IdsDistinct(methods: seq<SavedPaymentMethod>) {
    forall i, j :: 0 <= i < j < |methods| ==> methods[i].id != methods[j].id
  }

  // ---------------------------------------------------------------------------
  // The new record

  /** An expiry typed as "MM/YY" in digits splits into exactly those two pieces. */
  lemma {:induction false} SplitExpiry(mm: string, yy: string)
    requires '/' !in mm && '/' !in yy
    ensures Split(mm + "/" + yy, '/') == [mm, yy]
  {
    var s := mm + "/" + yy;
    assert s[|mm|] == '/';
    assert forall i :: 0 <= i < |mm| ==> s[i] == mm[i];
    assert IndexOf(s, '/') == Some(|mm|) by {
      IndexOfFirst(s, '/', |mm|);
    }
    assert s[..|mm|] == mm;
    assert s[|mm| + 1..] == yy;
  }

  /** `IndexOf` finds the first occurrence. */
  lemma {:induction false} IndexOfFirst(s: string, c: char, i: nat)
    requires i < |s| && s[i] == c && forall j :: 0 <= j < i ==> s[j] != c
    ensures IndexOf(s, c) == Some(i)
  {
    match IndexOf(s, c)
    case None =>
    case Some(k) =>
  }

  /** An expiry "MM/YY" gives the month MM and the year 2000 + YY, where a piece that is not
      a number, or is 0, falls back to month 1 and year 30. */
  lemma {:induction false} ExpiryRoundTrip(mm: string, yy: string)
    requires '/' !in mm && '/' !in yy
    ensures AllDigits(mm) && DigitsValue(mm) != 0 ==> ExpMonth(mm + "/" + yy) == DigitsValue(mm)
    ensures !(AllDigits(mm) && DigitsValue(mm) != 0) ==> ExpMonth(mm + "/" + yy) == 1
    ensures AllDigits(yy) && DigitsValue(yy) != 0 ==> ExpYear(mm + "/" + yy) == 2000 + DigitsValue(yy)
    ensures !(AllDigits(yy) && DigitsValue(yy) != 0) ==> ExpYear(mm + "/" + yy) == 2030
  {
    SplitExpiry(mm, yy);
  }

  /** An expiry without a slash is all month, and the year falls back to 2030. */
  lemma {:induction false} ExpiryWithoutSlash(exp: string)
    requires '/' !in exp
    ensures AllDigits(exp) && DigitsValue(exp) != 0 ==> ExpMonth(exp) == DigitsValue(exp)
    ensures !(AllDigits(exp) && DigitsValue(exp) != 0) ==> ExpMonth(exp) == 1
    ensures ExpYear(exp) == 2030
  {
    assert IndexOf(exp, '/') == None;
    assert Split(exp, '/') == [exp];
  }

  /** A two-digit piece has the value its digits spell. */
  lemma {:induction false} TwoDigitsValue(s: string)
    requires |s| == 2 && AllDigits(s)
    ensures DigitsValue(s) == 10 * DigitValue(s[0]) + DigitValue(s[1])
  {
    assert s[..1][..0] == [];
    assert DigitsValue(s[..1]) == DigitValue(s[0]);
  }

  /** The form's own example "04/28" gives April 2028. */
  lemma {:induction false} ExpiryExample()
    ensures ExpMonth("04/28") == 4 && ExpYear("04/28") == 2028
  {
    assert "04" + "/" + "28" == "04/28";
    assert '/' !in "04" && '/' !in "28";
    TwoDigitsValue("04");
    TwoDigitsValue("28");
    ExpiryRoundTrip("04", "28");
  }

  /** A zero month "00/28" falls back to month 1. */
  lemma {:induction false} ExpiryZeroMonth()
    ensures ExpMonth("00/28") == 1 && ExpYear("00/28") == 2028
  {
    assert "00" + "/" + "28" == "00/28";
    assert '/' !in "00" && '/' !in "28";
    TwoDigitsValue("00");
    TwoDigitsValue("28");
    ExpiryRoundTrip("00", "28");
  }

  /** Letters in both pieces fall back to January 2030. */
  lemma {:induction false} ExpiryPlaceholderFallsBack()
    ensures ExpMonth("MM/YY") == 1 && ExpYear("MM/YY") == 2030
  {
    assert "MM" + "/" + "YY" == "MM/YY";
    assert '/' !in "MM" && '/' !in "YY";
    assert !IsDigit("MM"[0]) && !IsDigit("YY"[0]);
    ExpiryRoundTrip("MM", "YY");
  }

  /** A month and a year written in decimal as "M/Y" come back as the card's expiry month
      and 2000 plus the year. */
  lemma {:induction false} ExpiryOfNumbers(month: nat, year: nat)
    requires month >= 1 && year >= 1
    ensures ExpMonth(NatToString(month) + "/" + NatToString(year)) == month
    ensures ExpYear(NatToString(month) + "/" + NatToString(year)) == 2000 + year
  {
    var mm, yy := NatToString(month), NatToString(year);
    assert '/' !in mm && '/' !in yy by {
      assert forall i :: 0 <= i < |mm| ==> IsDigit(mm[i]);
      assert forall i :: 0 <= i < |yy| ==> IsDigit(yy[i]);
    }
    ExpiryRoundTrip(mm, yy);
    ParseNatToString(month);
    ParseNatToString(year);
  }

  /** The record built from the form: last four digits, parsed expiry with fallbacks, the
      cardLabel or "New card", the "Card" brand, and default exactly when the list is empty. */
  lemma NewMethodFields(methods: seq<SavedPaymentMethod>, cardLabel: string, cardNumber: string, exp: string, nowMs: nat)
    ensures var m := NewMethod(methods, cardLabel, cardNumber, exp, nowMs);
            && m.brand == "Card"
            && m.last4 == Last4(cardNumber) && |m.last4| <= 4
            && m.expMonth == ExpMonth(exp) && m.expYear == ExpYear(exp)
            && m.expMonth >= 1 && m.expYear > 2000
            && (cardLabel == "" ==> m.cardLabel == Some("New card"))
            && (cardLabel != "" ==> m.cardLabel == Some(cardLabel))
            && (IsDefault(m) <==> methods == [])
            && StartsWith(m.id, "local_")
  {
    var m := NewMethod(methods, cardLabel, cardNumber, exp, nowMs);
    assert m.id[..6] == "local_";
  }

  // ---------------------------------------------------------------------------
  // Default and delete

  /** After `handleSetDefault(id)` a method is default exactly when its id is `id`; no other
      field of any method changes and the order is kept. */
  lemma SetDefaultExact(methods: seq<SavedPaymentMethod>, id: string)
    ensures |WithDefault(methods, id)| == |methods|
    ensures forall k :: 0 <= k < |methods| ==>
              (IsDefault(WithDefault(methods, id)[k]) <==> methods[k].id == id) &&
              WithDefault(methods, id)[k].(isDefault := methods[k].isDefault) == methods[k]
  {
  }

  /** After `handleSetDefault(id)` the number of default methods is the number of methods
      with that id. */
  lemma {:induction false} SetDefaultCount(methods: seq<SavedPaymentMethod>, id: string)
    ensures Count(WithDefault(methods, id), IsDefault) == Count(methods, (m: SavedPaymentMethod) => m.id == id)
  {
    if methods != [] {
      assert WithDefault(methods, id)[1..] == WithDefault(methods[1..], id);
      SetDefaultCount(methods[1..], id);
    }
  }

  /** In a list with distinct ids, a present id occurs exactly once. */
  lemma {:induction false} CountDistinctId(methods: seq<SavedPaymentMethod>, id: string, k: nat)
    requires IdsDistinct(methods) && k < |methods| && methods[k].id == id
    ensures Count(methods, (m: SavedPaymentMethod) => m.id == id) == 1
  {
    var hasId := (m: SavedPaymentMethod) => m.id == id;
    if k == 0 {
      var rest := methods[1..];
      forall x | x in rest ensures !hasId(x) {
        var j :| 0 <= j < |rest| && rest[j] == x;
        assert methods[j + 1] == x;
      }
      FilterKeepingNone(rest, hasId);
    } else {
      CountDistinctId(methods[1..], id, k - 1);
      assert methods[0].id != id by {
        assert methods[0].id != methods[k].id;
      }
    }
  }

  /** Choosing a method that is in a list with distinct ids leaves exactly one default. */
  lemma ExactlyOneDefault(methods: seq<SavedPaymentMethod>, k: nat)
    requires IdsDistinct(methods) && k < |methods|
    ensures Count(WithDefault(methods, methods[k].id), IsDefault) == 1
  {
    SetDefaultCount(methods, methods[k].id);
    CountDistinctId(methods, methods[k].id, k);
  }

  /** `handleDelete(id)` removes exactly the methods with that id and keeps the rest in order. */
  lemma DeleteExact(methods: seq<SavedPaymentMethod>, id: string)
    ensures forall m :: m in WithoutMethod(methods, id) <==> m in methods && m.id != id
    ensures IsSubsequence(WithoutMethod(methods, id), methods)
  {
    FilterIsSubsequence(methods, (m: SavedPaymentMethod) => m.id != id);
  }

  /** The section's state: the list and the add-card form. */
  class PaymentMethods {
    var methods: seq<SavedPaymentMethod>
    var cardLabel: string
    var cardNumber: string
    var exp: string
    var cvc: string
    var isSaving: bool
    var error: Option<string>

    constructor ()
      ensures methods == INITIAL_METHODS
      ensures cardLabel == "" && cardNumber == "" && exp == "" && cvc == ""
      ensures !isSaving && error == None
    {
      methods := INITIAL_METHODS;
      cardLabel, cardNumber, exp, cvc := "", "", "", "";
      isSaving := false;
      error := None;
    }

    /** An input's `onChange`: the field takes the typed value. */
    method TypeInto(field: FormField, value: string)
      modifies this
      ensures cardLabel == (if field == LabelField then value else old(cardLabel))
      ensures cardNumber == (if field == CardNumberField then value else old(cardNumber))
      ensures exp == (if field == ExpField then value else old(exp))
      ensures cvc == (if field == CvcField then value else old(cvc))
      ensures methods == old(methods) && isSaving == old(isSaving) && error == old(error)
    {
      match field
      case LabelField => cardLabel := value;
      case CardNumberField => cardNumber := value;
      case ExpField => exp := value;
      case CvcField => cvc := value;
    }

    /** `handleAddMethod`; `nowMs` is `Date.now()`. A form with an empty card number, expiry
        or CVC sets the error and changes nothing else; otherwise the new record is appended
        and the form is reset. */
    method HandleAddMethod(nowMs: nat)
      modifies this
      ensures !CardFieldsFilled(old(cardNumber), old(exp), old(cvc)) ==>
                error == Some(MISSING_CARD_ERROR) &&
                methods == old(methods) && cardLabel == old(cardLabel) && cardNumber == old(cardNumber) &&
                exp == old(exp) && cvc == old(cvc) && isSaving == old(isSaving)
      ensures CardFieldsFilled(old(cardNumber), old(exp), old(cvc)) ==>
                error == None &&
                methods == old(methods) + [NewMethod(old(methods), old(cardLabel), old(cardNumber), old(exp), nowMs)] &&
                cardLabel == "" && cardNumber == "" && exp == "" && cvc == "" && !isSaving
    {
      if !CardFieldsFilled(cardNumber, exp, cvc) {
        error := Some(MISSING_CARD_ERROR);
      } else {
        var newMethod := NewMethod(methods, cardLabel, cardNumber, exp, nowMs);
        methods, cardLabel, cardNumber, exp, cvc, isSaving, error := methods + [newMethod], "", "", "", "", false, None;
      }
    }

    /** `handleSetDefault(id)` */
    method HandleSetDefault(id: string)
      modifies this`methods
      ensures methods == WithDefault(old(methods), id)
      ensures IdsDistinct(old(methods)) && (exists k :: 0 <= k < |old(methods)| && old(methods)[k].id == id) ==>
                Count(methods, IsDefault) == 1
    {
      if IdsDistinct(methods) && (exists k :: 0 <= k < |methods| && methods[k].id == id) {
        var k :| 0 <= k < |methods| && methods[k].id == id;
        ExactlyOneDefault(methods, k);
      }
      methods := WithDefault(methods, id);
    }

    /** `handleDelete(id)` */
    method HandleDelete(id: string)
      modifies this`methods
      ensures methods == WithoutMethod(old(methods), id)
      ensures forall m :: m in methods <==> m in old(methods) && m.id != id
    {
      DeleteExact(methods, id);
      methods := WithoutMethod(methods, id);
    }
  }
}
