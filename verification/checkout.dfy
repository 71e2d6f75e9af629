/**
 * The checkout page script: the input filter on the sender-phone field, the
 * two blur validators and the place-order check, and how its rules relate
 * to the server's `validate_fields`. JavaScript measures strings in UTF-16
 * code units; an empty string is the only falsy string value.
 */
module Checkout {
  import opened Common
  import Settings
  import Gateway

  // ---------------------------------------------------------------------
  // The phone input filter
  // ---------------------------------------------------------------------

  /** `value.replace(/\D/g, '')`: drop every character that is not a
      decimal digit. */
  function StripNonDigits(s: string): (r: string)
    ensures AllDigits(r)
    ensures |r| <= |s|
  {
    if s == [] then []
    else (if IsDigit(s[0]) then [s[0]] else []) + StripNonDigits(s[1..])
  }

  /** Every digit survives the filter as often as it was typed, and nothing
      else does. */
  lemma {:induction false} StripNonDigitsKeepsDigits(s: string)
    ensures forall c :: IsDigit(c) ==> multiset(StripNonDigits(s))[c] == multiset(s)[c]
    ensures forall c :: !IsDigit(c) ==> multiset(StripNonDigits(s))[c] == 0
  {
    if s != [] {
      assert s == [s[0]] + s[1..];
      StripNonDigitsKeepsDigits(s[1..]);
    }
  }

  /** Filtering text typed in two pieces is filtering each piece: the digits
      keep their order. */
  lemma {:induction false} StripNonDigitsAppend(a: string, b: string)
    ensures StripNonDigits(a + b) == StripNonDigits(a) + StripNonDigits(b)
  {
    if a == [] {
      assert a + b == b;
    } else {
      assert (a + b)[0] == a[0] && (a + b)[1..] == a[1..] + b;
      StripNonDigitsAppend(a[1..], b);
    }
  }

  /** The filter leaves a value alone exactly when it is all digits. */
  lemma {:induction false} StripNonDigitsIdentity(s: string)
    ensures StripNonDigits(s) == s <==> AllDigits(s)
  {
    if s != [] {
      assert AllDigits(s) ==> AllDigits(s[1..]);
      StripNonDigitsIdentity(s[1..]);
      if !IsDigit(s[0]) {
        assert |StripNonDigits(s)| < |s|;
      }
    }
  }

  /** The filter fires on every input event; a second pass changes nothing. */
  lemma StripNonDigitsIdempotent(s: string)
    ensures StripNonDigits(StripNonDigits(s)) == StripNonDigits(s)
  {
    StripNonDigitsIdentity(StripNonDigits(s));
  }

  // ---------------------------------------------------------------------
  // The blur validators
  // ---------------------------------------------------------------------

  const MinTransactionIdLength: nat := 5

  /** The phone field is marked on blur: non-empty and not `^01[0-9]{9}$`. */
  predicate PhoneBlurFlags(v: string) {
    v != "" && !Gateway.PhoneMatch(v)
  }

  /** The transaction-id field is marked on blur: non-empty and shorter
      than five code units. */
  predicate TransactionIdBlurFlags(v: string) {
    v != "" && Utf16Length(v) < MinTransactionIdLength
  }

  // ---------------------------------------------------------------------
  // Place order
  // ---------------------------------------------------------------------

  datatype Field = MethodField | PhoneField | TransactionIdField

  /** The place-order rule for each field, as a value the submission may
      carry. */
  predicate FieldPasses(f: Field, choice: string, phone: string, trx: string) {
    match f
    case MethodField => choice != ""
    case PhoneField => phone != "" && Gateway.PhoneMatch(phone)
    case TransactionIdField => trx != "" && Utf16Length(trx) >= MinTransactionIdLength
  }

  /** The `checkout_place_order_rapid_pay` handler: each of the three checks
      runs and marks its field, whatever the others found; the submission
      goes ahead only when none was marked. */
  method PlaceOrder(choice: string, phone: string, trx: string) returns (isValid: bool, marked: set<Field>)
    ensures forall f :: f in marked <==> !FieldPasses(f, choice, phone, trx)
    ensures isValid <==> marked == {}
    ensures isValid <==>
      (choice != "" && phone != "" && Gateway.PhoneMatch(phone)
       && trx != "" && Utf16Length(trx) >= MinTransactionIdLength)
  {
    isValid := true;
    marked := {};
    if choice == "" {
      marked := marked + {MethodField};
      isValid := false;
    }
    if phone == "" || !Gateway.PhoneMatch(phone) {
      marked := marked + {PhoneField};
      isValid := false;
    }
    if trx == "" || Utf16Length(trx) < MinTransactionIdLength {
      marked := marked + {TransactionIdField};
      isValid := false;
    }
    assert !isValid ==> marked != {} by {
      if !isValid {
        assert MethodField in marked || PhoneField in marked || TransactionIdField in marked;
      }
    }
  }

  /** A field the blur check marks is also marked on place order; the
      converse fails only for the empty field, which blur leaves alone. */
  lemma BlurFlagsAgreeWithPlaceOrder(phone: string, trx: string)
    ensures PhoneBlurFlags(phone) <==> phone != "" && !FieldPasses(PhoneField, "", phone, trx)
    ensures TransactionIdBlurFlags(trx) <==> trx != "" && !FieldPasses(TransactionIdField, "", phone, trx)
  {
  }

  // ---------------------------------------------------------------------
  // Client and server rules
  // ---------------------------------------------------------------------

  /** The phone rules agree on every string: "0", which PHP calls empty,
      fails the pattern anyway. */
  lemma PhoneRulesAgree(phone: string, settings: Settings.StoredSettings, post: Gateway.CheckoutPost, cartTotal: int)
    requires post.senderPhone == phone
    ensures FieldPasses(PhoneField, "", phone, "") <==>
      !Gateway.Fails(Gateway.NoSenderPhone, settings, post, cartTotal)
      && !Gateway.Fails(Gateway.InvalidSenderPhone, settings, post, cartTotal)
  {
    if Gateway.PhoneMatch(phone) {
      Gateway.PhoneMatchNotEmpty(phone);
    }
  }

  /** On ASCII text the transaction-id rules agree: five code units are five
      bytes, and "0" is too short for both. */
  lemma TransactionIdRulesAgreeOnAscii(trx: string, settings: Settings.StoredSettings, post: Gateway.CheckoutPost, cartTotal: int)
    requires post.transactionId == trx && IsAscii(trx)
    ensures FieldPasses(TransactionIdField, "", "", trx) <==>
      !Gateway.Fails(Gateway.NoTransactionId, settings, post, cartTotal)
      && !Gateway.Fails(Gateway.ShortTransactionId, settings, post, cartTotal)
  {
    AsciiLengths(trx);
    Gateway.TransactionIdRule(trx);
  }

  /** On any text, an id the client lets through the server accepts too,
      since a string has at least as many UTF-8 bytes as UTF-16 units. */
  lemma ClientTransactionIdPassesServer(trx: string, settings: Settings.StoredSettings, post: Gateway.CheckoutPost, cartTotal: int)
    requires post.transactionId == trx
    requires FieldPasses(TransactionIdField, "", "", trx)
    ensures !Gateway.Fails(Gateway.NoTransactionId, settings, post, cartTotal)
    ensures !Gateway.Fails(Gateway.ShortTransactionId, settings, post, cartTotal)
  {
    Utf16NotLongerThanUtf8(trx);
    Gateway.TransactionIdRule(trx);
  }

  /** The converse fails off ASCII: three two-byte letters are six bytes
      for `strlen` but three code units for `length`. */
  lemma TransactionIdRulesDivergeOffAscii()
    ensures var trx := "ééé";
      && Utf8Length(trx) == 6 && Utf16Length(trx) == 3
      && !FieldPasses(TransactionIdField, "", "", trx)
  {
    var trx := "ééé";
    assert trx[1..][1..][1..] == [];
  }

  /** A checkout the server accepts passes the client's place-order check:
      the client never blocks what the server would take. */
  lemma ServerAcceptedPassesClient(settings: Settings.StoredSettings, post: Gateway.CheckoutPost, cartTotal: int)
    requires Gateway.ValidateFields(settings, post, cartTotal) == Gateway.Accepted
    requires IsAscii(post.transactionId)
    ensures forall f :: FieldPasses(f, post.paymentMethod, post.senderPhone, post.transactionId)
  {
    assert !Gateway.Fails(Gateway.NoMethod, settings, post, cartTotal);
    PhoneRulesAgree(post.senderPhone, settings, post, cartTotal);
    TransactionIdRulesAgreeOnAscii(post.transactionId, settings, post, cartTotal);
  }
}
