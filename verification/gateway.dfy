/**
 * `Rapid_Pay_Gateway`: the server-side checkout validation and the effect of
 * placing an order with the gateway. Notices become the reported error.
 */
module Gateway {
  import opened Common
  import opened Records
  import Settings
  import OrderHandler

  // ---------------------------------------------------------------------
  // The phone pattern `^01[0-9]{9}$`
  // ---------------------------------------------------------------------

  /** One position of an anchored pattern without repetition operators. */
  datatype CharClass = Literal(c: char) | Digit

  predicate Accepts(k: CharClass, c: char) {
    match k
    case Literal(l) => c == l
    case Digit => IsDigit(c)
  }

  /** The whole string matches the pattern, position by position. */
  predicate MatchesAll(pattern: seq<CharClass>, s: string) {
    if pattern == [] then s == []
    else s != [] && Accepts(pattern[0], s[0]) && MatchesAll(pattern[1..], s[1..])
  }

  function Digits(n: nat): (p: seq<CharClass>)
    ensures |p| == n
    ensures forall i :: 0 <= i < n ==> p[i] == Digit
  {
    seq(n, _ => Digit)
  }

  /** `^01[0-9]{9}$`, with `{9}` written out. */
  function PhonePattern(): seq<CharClass> {
    [Literal('0'), Literal('1')] + Digits(9)
  }

  /** `preg_match('/^01[0-9]{9}$/', s)` and `/^01[0-9]{9}$/.test(s)`. The
      PCRE `$` would also accept one final line break, which cannot reach
      the match: `sanitize_text_field` removes line breaks first. */
  predicate PhoneMatch(s: string) {
    MatchesAll(PhonePattern(), s)
  }

  lemma {:induction false} DigitsMatch(n: nat, s: string)
    ensures MatchesAll(Digits(n), s) <==> |s| == n && AllDigits(s)
  {
    if n > 0 {
      assert Digits(n)[1..] == Digits(n - 1);
      if s != [] {
        DigitsMatch(n - 1, s[1..]);
        assert forall i :: 1 <= i < |s| ==> s[i] == s[1..][i - 1];
      }
    }
  }

  /** A phone passes exactly when it has 11 characters, begins with "01"
      and the other nine are decimal digits. */
  lemma PhoneMatchShape(s: string)
    ensures PhoneMatch(s) <==> |s| == 11 && s[..2] == "01" && AllDigits(s[2..])
  {
    var p := PhonePattern();
    assert p[0] == Literal('0') && p[1..][0] == Literal('1');
    assert p[1..][1..] == Digits(9);
    if |s| >= 2 {
      assert s[1..][1..] == s[2..];
      DigitsMatch(9, s[2..]);
      assert MatchesAll(p, s) <==> s[0] == '0' && MatchesAll(p[1..], s[1..]);
      assert MatchesAll(p[1..], s[1..]) <==> s[1] == '1' && MatchesAll(Digits(9), s[2..]);
      assert s[..2] == "01" <==> s[0] == '0' && s[1] == '1' by {
        assert s[..2] == [s[0], s[1]];
      }
    } else if s != [] {
      assert MatchesAll(p, s) ==> MatchesAll(p[1..], s[1..]);
      assert s[1..] == [];
    }
  }

  /** A matching phone is never PHP-empty, so the "missing" check never
      hides a well-formed number. */
  lemma PhoneMatchNotEmpty(s: string)
    requires PhoneMatch(s)
    ensures !PhpEmpty(s)
  {
    PhoneMatchShape(s);
  }

  // ---------------------------------------------------------------------
  // validate_fields
  // ---------------------------------------------------------------------

  /** The three posted checkout fields; a field not posted is "". Values are
      taken after `sanitize_text_field`. */
  datatype CheckoutPost = CheckoutPost(paymentMethod: string, senderPhone: string, transactionId: string)

  /** The checks of `validate_fields`, one per error notice. */
  datatype CheckoutError =
    | NoMethod | InvalidMethod
    | NoSenderPhone | InvalidSenderPhone
    | NoTransactionId | ShortTransactionId
    | BelowMinimum | AboveMaximum

  datatype Verdict = Accepted | Rejected(error: CheckoutError)

  const MinTransactionIdLength: nat := 5

  /** The position of each check in the source's sequence of guards. */
  function Rank(e: CheckoutError): nat {
    match e
    case NoMethod => 0
    case InvalidMethod => 1
    case NoSenderPhone => 2
    case InvalidSenderPhone => 3
    case NoTransactionId => 4
    case ShortTransactionId => 5
    case BelowMinimum => 6
    case AboveMaximum => 7
  }

  /** Check `e` fails on this input. The method must be in the stored list
      (all four when none was stored); a bound of 0 is no bound; the
      transaction id is measured in bytes, as `strlen` does. */
  predicate Fails(e: CheckoutError, settings: Settings.StoredSettings, post: CheckoutPost, cartTotal: int) {
    match e
    case NoMethod => PhpEmpty(post.paymentMethod)
    case InvalidMethod => post.paymentMethod !in Settings.EnabledMethods(settings)
    case NoSenderPhone => PhpEmpty(post.senderPhone)
    case InvalidSenderPhone => !PhoneMatch(post.senderPhone)
    case NoTransactionId => PhpEmpty(post.transactionId)
    case ShortTransactionId => Utf8Length(post.transactionId) < MinTransactionIdLength
    case BelowMinimum =>
      var min := Settings.MinAmount(settings);
      min > 0 && cartTotal < min
    case AboveMaximum =>
      var max := Settings.MaxAmount(settings);
      max > 0 && cartTotal > max
  }

  /** `validate_fields`: the guards in source order; the first that fails
      is reported. The order is accepted only when no check fails. */
  function ValidateFields(settings: Settings.StoredSettings, post: CheckoutPost, cartTotal: int): (v: Verdict)
    ensures v == Accepted <==> forall e :: !Fails(e, settings, post, cartTotal)
    ensures v.Rejected? ==> Fails(v.error, settings, post, cartTotal)
    ensures v.Rejected? ==> forall e :: Rank(e) < Rank(v.error) ==> !Fails(e, settings, post, cartTotal)
  {
    if Fails(NoMethod, settings, post, cartTotal) then Rejected(NoMethod)
    else if Fails(InvalidMethod, settings, post, cartTotal) then Rejected(InvalidMethod)
    else if Fails(NoSenderPhone, settings, post, cartTotal) then Rejected(NoSenderPhone)
    else if Fails(InvalidSenderPhone, settings, post, cartTotal) then Rejected(InvalidSenderPhone)
    else if Fails(NoTransactionId, settings, post, cartTotal) then Rejected(NoTransactionId)
    else if Fails(ShortTransactionId, settings, post, cartTotal) then Rejected(ShortTransactionId)
    else if Fails(BelowMinimum, settings, post, cartTotal) then Rejected(BelowMinimum)
    else if Fails(AboveMaximum, settings, post, cartTotal) then Rejected(AboveMaximum)
    else Accepted
  }

  /** An accepted checkout, spelled out: a non-empty enabled method, a
      well-formed phone, a transaction id of at least five bytes, and a
      total within the bounds that are set (both bounds inclusive). */
  lemma AcceptedMeans(settings: Settings.StoredSettings, post: CheckoutPost, cartTotal: int)
    ensures ValidateFields(settings, post, cartTotal) == Accepted <==>
      && !PhpEmpty(post.paymentMethod)
      && post.paymentMethod in Settings.EnabledMethods(settings)
      && |post.senderPhone| == 11 && post.senderPhone[..2] == "01" && AllDigits(post.senderPhone[2..])
      && Utf8Length(post.transactionId) >= MinTransactionIdLength
      && (Settings.MinAmount(settings) <= 0 || cartTotal >= Settings.MinAmount(settings))
      && (Settings.MaxAmount(settings) <= 0 || cartTotal <= Settings.MaxAmount(settings))
  {
    PhoneMatchShape(post.senderPhone);
    TransactionIdRule(post.transactionId);
    if PhoneMatch(post.senderPhone) {
      PhoneMatchNotEmpty(post.senderPhone);
    }
    var v := ValidateFields(settings, post, cartTotal);
    if v != Accepted {
      assert Fails(v.error, settings, post, cartTotal);
    }
  }

  /** The transaction-id checks together: "" and "0" are under five bytes,
      so the id passes both exactly when it has at least five bytes. */
  lemma TransactionIdRule(s: string)
    ensures !PhpEmpty(s) && Utf8Length(s) >= MinTransactionIdLength <==> Utf8Length(s) >= MinTransactionIdLength
  {
  }

  /** Before any settings are saved, each of the four methods is accepted
      by the method checks and no amount bound applies. */
  lemma UnsavedSettingsAcceptEveryMethod(post: CheckoutPost, cartTotal: int)
    requires post.paymentMethod in ValidMethods
    ensures !Fails(NoMethod, Settings.Unsaved, post, cartTotal)
    ensures !Fails(InvalidMethod, Settings.Unsaved, post, cartTotal)
    ensures !Fails(BelowMinimum, Settings.Unsaved, post, cartTotal)
    ensures !Fails(AboveMaximum, Settings.Unsaved, post, cartTotal)
  {
  }

  // ---------------------------------------------------------------------
  // process_payment
  // ---------------------------------------------------------------------

  /** `process_payment`: attach the three posted fields to the order, set
      it on hold, and sync its row. The order must exist. */
  method ProcessPayment(store: OrderHandler.PaymentStore, orderId: int, post: CheckoutPost, now: int)
    requires store.Valid() && orderId in store.orders
    modifies store
    ensures store.Valid()
    ensures store.orders == old(store.orders)[orderId := old(store.orders)[orderId].(
      paymentMethod := post.paymentMethod, senderPhone := post.senderPhone,
      transactionId := post.transactionId, status := OnHold)]
    ensures store.rows == Synced(old(store.rows), orderId, store.orders[orderId], now)
    ensures var k := IndexOf(store.rows, orderId);
      k.Some? && Mirrors(store.rows[k.value], orderId, store.orders[orderId])
      && store.rows[k.value].status == OnHold
  {
    var order := store.orders[orderId];
    order := order.(paymentMethod := post.paymentMethod, senderPhone := post.senderPhone,
                    transactionId := post.transactionId);
    order := order.(status := OnHold);
    store.orders := store.orders[orderId := order];
    ghost var rows0 := store.rows;
    if IndexOf(rows0, orderId).Some? {
      SyncedUpdates(rows0, orderId, order, now);
    } else {
      SyncedInserts(rows0, orderId, order, now);
    }
    store.SaveOrder(orderId, now);
  }
}
