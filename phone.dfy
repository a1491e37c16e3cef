/**
 * The MSISDN rewrite the M-Pesa STK push route applies to the customer's
 * phone number before it calls the gateway: keep the decimal digits, turn a
 * leading trunk `0` into the country code `254`, drop a leading `+`, and
 * prefix `254` when the number still does not start with it.
 */
module Phone {

  predicate IsDigit(c: char) {
    '0' <= c <= '9'
  }

  predicate AllDigits(s: string) {
    forall i :: 0 <= i < |s| ==> IsDigit(s[i])
  }

  predicate StartsWith(s: string, prefix: string) {
    |prefix| <= |s| && s[..|prefix|] == prefix
  }

  /** `s.slice(1)`: everything after the first character (empty stays empty). */
  function Tail(s: string): (r: string)
    ensures s != [] ==> r == s[1..]
    ensures s == [] ==> r == []
  {
    if s == [] then [] else s[1..]
  }

  /** `s.replace(/\D/g, '')`: the decimal digits of `s`, in order. */
  function DigitsOf(s: string): (r: string)
    ensures AllDigits(r)
    ensures |r| <= |s|
    ensures AllDigits(s) ==> r == s
  {
    if s == [] then []
    else (if IsDigit(s[0]) then [s[0]] else []) + DigitsOf(s[1..])
  }

  /** One character is kept exactly when it is a digit. */
  lemma DigitsOfChar(c: char)
    ensures DigitsOf([c]) == if IsDigit(c) then [c] else []
  {
    assert [c][1..] == [];
  }

  /** The filter works character by character, so every digit is kept in its place. */
  lemma {:induction false} DigitsOfAppend(a: string, b: string)
    ensures DigitsOf(a + b) == DigitsOf(a) + DigitsOf(b)
  {
    if a == [] {
      assert a + b == b;
    } else {
      assert (a + b)[0] == a[0];
      assert (a + b)[1..] == a[1..] + b;
      DigitsOfAppend(a[1..], b);
    }
  }

  /**
   * What the route sends to the gateway, stated without the rewrite of a
   * leading `+`: the number is in international `254` form and made of digits.
   */
  function Normalised(phone: string): (r: string)
    ensures AllDigits(r)
    ensures StartsWith(r, "254")
  {
    var d := DigitsOf(phone);
    if StartsWith(d, "0") then "254" + d[1..]
    else if StartsWith(d, "254") then d
    else "254" + d
  }

  /** The route's three successive rewrites of `formattedPhone`. */
  method FormatPhone(phone: string) returns (formatted: string)
    ensures formatted == Normalised(phone)
    ensures AllDigits(formatted) && StartsWith(formatted, "254")
  {
    PlusBranchUnreachable(phone);
    formatted := DigitsOf(phone);
    if StartsWith(formatted, "0") {
      formatted := "254" + Tail(formatted);
    }
    if StartsWith(formatted, "+") {
      formatted := Tail(formatted);
    }
    if !StartsWith(formatted, "254") {
      formatted := "254" + formatted;
    }
  }

  /** A local number `0…` becomes `254` followed by the number without its `0`. */
  lemma LeadingZero(s: string)
    requires AllDigits(s) && StartsWith(s, "0")
    ensures Normalised(s) == "254" + s[1..]
  {
  }

  /** A number already in `254…` form is sent as it is. */
  lemma AlreadyInternational(s: string)
    requires AllDigits(s) && StartsWith(s, "254")
    ensures Normalised(s) == s
  {
  }

  /** Any other digit string gets the country code in front. */
  lemma PrefixedOtherwise(s: string)
    requires AllDigits(s) && !StartsWith(s, "0") && !StartsWith(s, "254")
    ensures Normalised(s) == "254" + s
  {
  }

  /** Normalising a normalised number changes nothing. */
  lemma NormalisedIdempotent(phone: string)
    ensures Normalised(Normalised(phone)) == Normalised(phone)
  {
    var r := Normalised(phone);
    assert r[..1] == "2";
    assert !StartsWith(r, "0");
  }

  /**
   * The `+` rewrite never fires: after the non-digits are stripped, neither
   * the stripped number nor its trunk-prefix rewrite can start with `+`.
   */
  lemma PlusBranchUnreachable(phone: string)
    ensures !StartsWith(DigitsOf(phone), "+")
    ensures StartsWith(DigitsOf(phone), "0") ==> !StartsWith("254" + DigitsOf(phone)[1..], "+")
  {
    var d := DigitsOf(phone);
    assert d != [] ==> IsDigit(d[0]);
  }
}
