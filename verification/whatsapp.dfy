/** The phone normaliser of the WhatsApp service (src/services/whatsapp.js):
    a number is reduced to its digits and given the Kenyan country code 254. */
module WhatsApp {
  import opened Common

  const CountryCode := "254"

  /** Whether the normaliser adds or keeps the country code for these
      digits: they already start with it, or with the trunk prefix 0, or with
      the mobile prefix 7. */
  predicate KenyanLocal(c: string) {
    StartsWith(c, CountryCode) || StartsWith(c, "0") || StartsWith(c, "7")
  }

  /** `formatPhoneNumber(phone)`: the digits of `phone`, with a leading 0
      replaced by 254 and 254 put in front of a leading 7. */
  function FormatPhoneNumber(phone: string): (r: string)
    ensures AllDigits(r)
    ensures StartsWith(r, CountryCode) <==> KenyanLocal(Digits(phone))
    ensures !KenyanLocal(Digits(phone)) ==> r == Digits(phone)
    ensures KenyanLocal(Digits(phone)) ==> |Digits(phone)| <= |r| <= |Digits(phone)| + 3
  {
    var cleaned := Digits(phone);
    if StartsWith(cleaned, CountryCode) then cleaned
    else if StartsWith(cleaned, "0") then CountryCode + cleaned[1..]
    else if StartsWith(cleaned, "7") then CountryCode + cleaned
    else cleaned
  }

  /** The number that follows the country code is what the caller typed
      after dropping a trunk 0. */
  lemma NationalPart(phone: string)
    ensures var c := Digits(phone);
            var r := FormatPhoneNumber(phone);
            (StartsWith(c, CountryCode) ==> r == c) &&
            (StartsWith(c, "0") ==> r[3..] == c[1..]) &&
            (StartsWith(c, "7") ==> r[3..] == c)
  {
    var c := Digits(phone);
    var r := FormatPhoneNumber(phone);
    if StartsWith(c, "0") {
      assert !StartsWith(c, CountryCode) by {
        assert c[0] == '0';
      }
      assert r == CountryCode + c[1..];
    } else if StartsWith(c, "7") {
      assert !StartsWith(c, CountryCode) by {
        assert c[0] == '7';
      }
      assert r == CountryCode + c;
    }
  }

  /** Normalising a normalised number changes nothing. */
  lemma FormatPhoneIdempotent(phone: string)
    ensures FormatPhoneNumber(FormatPhoneNumber(phone)) == FormatPhoneNumber(phone)
  {
    var r := FormatPhoneNumber(phone);
    FilterKeepsAll(r, IsDigit);
    assert Digits(r) == r;
  }

  lemma DigitsInternational(t: string)
    requires AllDigits(t)
    ensures Digits("+" + CountryCode + t) == CountryCode + t
  {
    var x := CountryCode + t;
    assert AllDigits(x);
    FilterKeepsAll(x, IsDigit);
    var s := "+" + CountryCode + t;
    assert s[0] == '+' && s[1..] == x;
  }

  lemma DigitsTrunk(t: string)
    requires AllDigits(t)
    ensures Digits("0" + t) == "0" + t
  {
    FilterKeepsAll("0" + t, IsDigit);
  }

  /** A number that passes the admin forms' Kenyan pattern normalises to 254
      followed by its nine subscriber digits. */
  lemma KenyanPhoneNormalises(s: string)
    requires IsKenyanPhone(s)
    ensures FormatPhoneNumber(s) == CountryCode + s[|s| - 9..]
    ensures |FormatPhoneNumber(s)| == 12
  {
    var t := s[|s| - 9..];
    if StartsWith(s, "+254") && KenyanSubscriber(s[4..]) {
      assert s == "+" + CountryCode + t;
      DigitsInternational(t);
    } else {
      assert s == "0" + t;
      DigitsTrunk(t);
      var c := Digits(s);
      assert !StartsWith(c, CountryCode) by {
        assert c[0] == '0';
      }
      assert c[1..] == t;
    }
  }
}
