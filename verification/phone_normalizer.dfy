/** The phone normalizer of src/api/utils.js: any entered phone string becomes
    the digit string sent to the backend. */
module PhoneNormalizer {
  import opened JsText

  /** The canonical server representation: eleven digits starting with 7. */
  predicate IsCanonical(s: string) {
    |s| == 11 && s[0] == '7' && AllDigits(s)
  }

  /** `extractPhoneForServer(phone)`: strip non-digits, then apply the first
      matching rule (11 digits from 8: the 8 becomes 7; 11 digits from 7: as is;
      12 digits from 7: drop the first digit; 10 digits: prefix 7; otherwise
      the digits as they are). */
  function ExtractPhoneForServer(phone: string): (r: string)
    ensures phone == "" ==> r == ""
    ensures AllDigits(r)
    ensures |r| <= |Digits(phone)| + 1
    ensures var d := Digits(phone);
            (phone != "" && |d| != 10 && !(|d| == 11 && (d[0] == '7' || d[0] == '8'))
             && !(|d| == 12 && d[0] == '7')) ==> r == d
  {
    if phone == "" then ""
    else
      var cleaned := Digits(phone);
      if |cleaned| == 11 && cleaned[0] == '8' then "7" + cleaned[1..]
      else if |cleaned| == 11 && cleaned[0] == '7' then cleaned
      else if |cleaned| == 12 && cleaned[0] == '7' then cleaned[1..]
      else if |cleaned| == 10 then "7" + cleaned
      else cleaned
  }

  /** Whatever the shape, the last ten digits entered are the last ten digits
      sent: only the country-code position is ever rewritten. */
  lemma SubscriberDigitsKept(phone: string)
    requires |Digits(phone)| >= 10
    ensures var r := ExtractPhoneForServer(phone);
            var d := Digits(phone);
            |r| >= 10 && r[|r| - 10..] == d[|d| - 10..]
  {
    var d := Digits(phone);
    var r := ExtractPhoneForServer(phone);
    assert phone != "";
    if |d| == 11 && d[0] == '8' {
      assert r == "7" + d[1..];
      assert r[1..] == d[1..];
    } else if |d| == 12 && d[0] == '7' {
      assert r == d[1..];
    } else if |d| == 10 && !(|d| == 11) {
      assert r == "7" + d;
      assert r[1..] == d;
    } else {
      assert r == d;
    }
  }

  /** Ten digits, whatever else surrounds them, get 7 in front. */
  lemma {:induction false} TenDigitsGetSeven(phone: string)
    requires |Digits(phone)| == 10
    ensures ExtractPhoneForServer(phone) == "7" + Digits(phone)
  {
    assert phone != "";
  }

  /** Exactly which inputs come out canonical. */
  lemma {:induction false} CanonicalIff(phone: string)
    ensures var d := Digits(phone);
            IsCanonical(ExtractPhoneForServer(phone)) <==>
              (|d| == 10 || (|d| == 11 && (d[0] == '7' || d[0] == '8'))
               || (|d| == 12 && d[0] == '7' && d[1] == '7'))
  {
    if phone == "" {
      assert Digits(phone) == "";
    }
  }

  /** A canonical number is sent as it is. */
  lemma {:induction false} CanonicalIsFixed(s: string)
    requires IsCanonical(s)
    ensures ExtractPhoneForServer(s) == s
  {
    DigitsOfDigits(s);
  }

  /** Normalizing twice gives the same result as normalizing once, except for
      twelve digits `7 8 …`: the first pass leaves `8 …` (eleven digits) and
      the second pass turns that 8 into 7. */
  lemma {:induction false} IdempotentIff(phone: string)
    ensures var d := Digits(phone);
            ExtractPhoneForServer(ExtractPhoneForServer(phone)) == ExtractPhoneForServer(phone)
            <==> !(|d| == 12 && d[0] == '7' && d[1] == '8')
  {
    var r := ExtractPhoneForServer(phone);
    DigitsOfDigits(r);
    if phone != "" {
      var d := Digits(phone);
      if |d| == 12 && d[0] == '7' && d[1] == '8' {
        assert r == d[1..];
        assert ExtractPhoneForServer(r)[0] == '7' != r[0];
      }
    }
  }

  /** The digits of a digit string are the string itself, so all five rules
      apply to the input directly: 11 digits from 8 get 7, 11 digits from 7
      and anything no rule matches pass unchanged, 12 digits from 7 lose the
      first digit, and 10 digits get 7 in front. */
  lemma {:induction false} RulesOnDigits(s: string)
    requires AllDigits(s) && s != ""
    ensures |s| == 11 && s[0] == '8' ==> ExtractPhoneForServer(s) == "7" + s[1..]
    ensures |s| == 12 && s[0] == '7' ==> ExtractPhoneForServer(s) == s[1..]
    ensures |s| == 11 && s[0] == '7' ==> ExtractPhoneForServer(s) == s
    ensures |s| == 10 ==> ExtractPhoneForServer(s) == "7" + s
    ensures |s| != 10 && !(|s| == 11 && (s[0] == '7' || s[0] == '8')) && !(|s| == 12 && s[0] == '7') ==>
              ExtractPhoneForServer(s) == s
  {
    DigitsOfDigits(s);
  }

  /** A national 8 prefix becomes 7. */
  lemma {:induction false} EightPrefixExample(phone: string)
    requires phone == "89991234567"
    ensures ExtractPhoneForServer(phone) == "79991234567"
  {
    RulesOnDigits(phone);
  }

  /** A ten-digit national number gets 7 in front. */
  lemma {:induction false} TenDigitExample(phone: string)
    requires phone == "9991234567"
    ensures ExtractPhoneForServer(phone) == "79991234567"
  {
    RulesOnDigits(phone);
  }

  /** Twelve digits from 7 lose their first digit whatever follows it, so the
      result can start with 8 and a second pass still changes it. */
  lemma {:induction false} TwelveDigitExample(phone: string)
    requires phone == "789161234567"
    ensures ExtractPhoneForServer(phone) == "89161234567"
  {
    RulesOnDigits(phone);
  }
}
