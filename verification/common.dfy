/**
 * Shared vocabulary of the plugin: an option type, PHP's notion of an empty
 * string, the status and payment-method names, character and length rules as
 * PHP and JavaScript apply them, and day arithmetic on integer timestamps.
 */
module Common {

  datatype Option<+T> = None | Some(value: T) {
    /** The wrapped value, or `default` when there is none. */
    function GetOr(default: T): T {
      match this
      case Some(v) => v
      case None => default
    }
  }

  /** PHP's `empty()` on a string: "" and "0" are empty. A request field that
      was not submitted at all is modelled as "". */
  predicate PhpEmpty(s: string) {
    s == "" || s == "0"
  }

  // Order statuses the plugin names (WooCommerce has others, e.g. "processing").
  const Completed: string := "completed"
  const Refunded: string := "refunded"
  const Cancelled: string := "cancelled"
  const Pending: string := "pending"
  const OnHold: string := "on-hold"

  /** The five statuses the dashboard may set. */
  const KnownStatuses: set<string> := {Completed, Refunded, Cancelled, Pending, OnHold}

  /** The four mobile-payment services, in the order the plugin lists them. */
  const ValidMethods: seq<string> := ["bkash", "nagad", "rocket", "upay"]

  // ---------------------------------------------------------------------
  // Characters and lengths
  // ---------------------------------------------------------------------

  /** `[0-9]` in both PCRE and JavaScript regular expressions. */
  predicate IsDigit(c: char) {
    '0' <= c <= '9'
  }

  predicate AllDigits(s: string) {
    forall i :: 0 <= i < |s| ==> IsDigit(s[i])
  }

  predicate IsAscii(s: string) {
    forall i :: 0 <= i < |s| ==> s[i] as int < 0x80
  }

  /** Bytes PHP's `strlen` counts for one character of a UTF-8 string. */
  function Utf8Width(c: char): (n: nat)
    ensures 1 <= n <= 4
    ensures n == 1 <==> c as int < 0x80
  {
    var v := c as int;
    if v < 0x80 then 1 else if v < 0x800 then 2 else if v < 0x1_0000 then 3 else 4
  }

  /** Code units JavaScript's `String.length` counts for one character. */
  function Utf16Width(c: char): (n: nat)
    ensures 1 <= n <= 2
    ensures n <= Utf8Width(c)
  {
    if c as int < 0x1_0000 then 1 else 2
  }

  /** PHP `strlen`: the number of UTF-8 bytes. */
  function Utf8Length(s: string): nat {
    if s == [] then 0 else Utf8Width(s[0]) + Utf8Length(s[1..])
  }

  /** JavaScript `length`: the number of UTF-16 code units. */
  function Utf16Length(s: string): nat {
    if s == [] then 0 else Utf16Width(s[0]) + Utf16Length(s[1..])
  }

  /** On ASCII text, both languages measure the number of characters. */
  lemma {:induction false} AsciiLengths(s: string)
    requires IsAscii(s)
    ensures Utf8Length(s) == |s| && Utf16Length(s) == |s|
  {
    if s != [] {
      assert IsAscii(s[1..]) by {
        forall i | 0 <= i < |s[1..]| ensures s[1..][i] as int < 0x80 {
          assert s[1..][i] == s[i + 1];
        }
      }
      AsciiLengths(s[1..]);
    }
  }

  /** A string is never longer in UTF-16 code units than in UTF-8 bytes. */
  lemma {:induction false} Utf16NotLongerThanUtf8(s: string)
    ensures Utf16Length(s) <= Utf8Length(s)
    ensures |s| <= Utf16Length(s)
  {
    if s != [] {
      Utf16NotLongerThanUtf8(s[1..]);
    }
  }

  // ---------------------------------------------------------------------
  // Days on a single clock of integer seconds
  // ---------------------------------------------------------------------

  const SecondsPerDay: int := 86400
  const SecondsPerHour: int := 3600

  /** `Y-m-d 00:00:00` of day number `d` (days since the epoch). */
  function DayStart(d: int): int {
    d * SecondsPerDay
  }

  /** `Y-m-d 23:59:59` of day number `d`. */
  function DayEnd(d: int): int {
    d * SecondsPerDay + SecondsPerDay - 1
  }

  /** The day a timestamp falls on. */
  function DayOf(t: int): (d: int)
    ensures DayStart(d) <= t <= DayEnd(d)
  {
    t / SecondsPerDay
  }

  /** The windows `[DayStart(d), DayEnd(d)]` partition the timeline: a
      timestamp lies in the window of exactly one day. */
  lemma DayWindowUnique(t: int, d: int)
    ensures DayStart(d) <= t <= DayEnd(d) <==> d == DayOf(t)
  {
  }
}
