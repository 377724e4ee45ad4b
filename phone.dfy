/**
 * The phone-number rule applied by `send_sms` before a message is handed to
 * the gateway: a number already in international form (leading '+') is kept,
 * any other number loses its leading zeros and gets the Indian country code.
 */
module Phone {

  const CountryCode: string := "+91"

  predicate StartsWithPlus(s: string) {
    |s| > 0 && s[0] == '+'
  }

  predicate AllZeros(s: string) {
    forall i :: 0 <= i < |s| ==> s[i] == '0'
  }

  /** Python's `s.lstrip('0')`. */
  function StripLeadingZeros(s: string): (r: string)
    ensures |r| <= |s| && r == s[|s| - |r|..]
    ensures AllZeros(s[..|s| - |r|])
    ensures r == [] || r[0] != '0'
  {
    if |s| > 0 && s[0] == '0' then StripLeadingZeros(s[1..]) else s
  }

  /** The number the gateway is asked to deliver to. */
  function Normalise(phone: string): (r: string)
    ensures StartsWithPlus(r)
    ensures StartsWithPlus(phone) ==> r == phone
  {
    if StartsWithPlus(phone) then phone else CountryCode + StripLeadingZeros(phone)
  }

  /** Splitting a string into a run of zeros and a rest that does not start
      with '0' can be done in one way only. */
  lemma {:induction false} ZeroSplitUnique(zeros: string, rest: string, zeros': string, rest': string)
    requires AllZeros(zeros) && (rest == [] || rest[0] != '0')
    requires AllZeros(zeros') && (rest' == [] || rest'[0] != '0')
    requires zeros + rest == zeros' + rest'
    ensures rest == rest'
  {
    if |zeros| > 0 && |zeros'| > 0 {
      assert (zeros + rest)[1..] == zeros[1..] + rest;
      assert (zeros' + rest')[1..] == zeros'[1..] + rest';
      ZeroSplitUnique(zeros[1..], rest, zeros'[1..], rest');
    } else {
      // One split has no zeros, so its rest is the whole string; that string
      // does not start with '0', hence the other split has no zeros either.
      if zeros == [] {
        assert zeros + rest == rest;
      }
      if zeros' == [] {
        assert zeros' + rest' == rest';
      }
    }
  }

  /** A domestic number `zeros + rest` is sent to "+91" followed by `rest`,
      the number without its leading zeros. */
  lemma NormaliseDomestic(phone: string, zeros: string, rest: string)
    requires !StartsWithPlus(phone)
    requires phone == zeros + rest && AllZeros(zeros) && (rest == [] || rest[0] != '0')
    ensures Normalise(phone) == CountryCode + rest
  {
    var r := StripLeadingZeros(phone);
    assert phone == phone[..|phone| - |r|] + r;
    ZeroSplitUnique(zeros, rest, phone[..|phone| - |r|], r);
  }

  /** Normalising an already normalised number changes nothing. */
  lemma NormaliseIdempotent(phone: string)
    ensures Normalise(Normalise(phone)) == Normalise(phone)
  {
  }

  /** Leading zeros of a domestic number never reach the gateway. */
  lemma LeadingZeroIgnored(phone: string)
    requires !StartsWithPlus(phone)
    ensures Normalise("0" + phone) == Normalise(phone)
  {
    assert ("0" + phone)[1..] == phone;
  }
}
