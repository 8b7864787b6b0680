/** The keystroke mask `+7 (XXX) XXX-XX-XX` of the phone fields. The standard
    mask is the `handlePhoneChange` of src/components/auth/RegisterForm.jsx,
    repeated verbatim in ProfilePage, OrderForm, both ApplicationForm files and
    src/components/auth/EditApplicationForm.jsx; the variant is the one of
    src/components/applications/EditApplicationForm.jsx. */
module PhoneMask {
  import opened JsText
  import opened PhoneNormalizer

  /** `if (value.length > 0 && value[0] !== '7') value = '7' + value`. */
  function PrefixSeven(d: string): (r: string)
    ensures d == "" ==> r == ""
    ensures d != "" ==> r != "" && r[0] == '7' && r[1..] == (if d[0] == '7' then d[1..] else d)
  {
    if |d| > 0 && d[0] != '7' then "7" + d else d
  }

  /** The variant rewrite: a leading 8 becomes 7 at any length, otherwise 7
      goes in front only of exactly ten digits. */
  function VariantDigits(d: string): (r: string)
    ensures d != "" && d[0] == '8' ==> r == "7" + d[1..]
    ensures (d == "" || d[0] != '8') && |d| == 10 ==> r == "7" + d
    ensures (d == "" || d[0] != '8') && |d| != 10 ==> r == d
  {
    if |d| > 0 && d[0] == '8' then "7" + d[1..]
    else if |d| == 10 then "7" + d
    else d
  }

  /** The digits `d[lo..hi]`, clamped to the length of `d`. */
  function Cut(d: string, lo: nat, hi: nat): string
    requires lo <= hi
  {
    d[Min(lo, |d|)..Min(hi, |d|)]
  }

  /** One segment of the layout: emitted only when more than `lo` digits exist. */
  function Segment(d: string, sep: string, lo: nat, hi: nat): string
    requires lo <= hi
  {
    if |d| > lo then sep + Substring(d, lo, hi) else ""
  }

  /** The five segments "+d0", " (d1..d3", ") d4..d6", "-d7d8", "-d9d10". */
  function Layout(d: string): (r: string)
    ensures |r| <= 18
    ensures r == "" <==> d == ""
  {
    Segment(d, "+", 0, 1) + Segment(d, " (", 1, 4) + Segment(d, ") ", 4, 7)
    + Segment(d, "-", 7, 9) + Segment(d, "-", 9, 11)
  }

  /** The standard mask: strip non-digits, make the first digit 7, lay out. */
  function StandardMask(input: string): string {
    Layout(PrefixSeven(Digits(input)))
  }

  /** The variant mask of the applications edit form. */
  function VariantMask(input: string): string {
    Layout(VariantDigits(Digits(input)))
  }

  lemma {:induction false} SegmentDigits(d: string, sep: string, lo: nat, hi: nat)
    requires lo <= hi && AllDigits(d) && Digits(sep) == ""
    ensures Digits(Segment(d, sep, lo, hi)) == Cut(d, lo, hi)
  {
    if |d| > lo {
      DigitsAppend(sep, Substring(d, lo, hi));
      DigitsOfDigits(Substring(d, lo, hi));
    }
  }

  /** The digits of a layout are the first eleven digits laid out. */
  lemma {:induction false} LayoutDigits(d: string)
    requires AllDigits(d)
    ensures Digits(Layout(d)) == d[..Min(11, |d|)]
  {
    var s0, s1, s2, s3, s4 := Segment(d, "+", 0, 1), Segment(d, " (", 1, 4), Segment(d, ") ", 4, 7),
      Segment(d, "-", 7, 9), Segment(d, "-", 9, 11);
    assert Digits("+") == "" && Digits(" (") == "" && Digits(") ") == "" && Digits("-") == "";
    SegmentDigits(d, "+", 0, 1);
    SegmentDigits(d, " (", 1, 4);
    SegmentDigits(d, ") ", 4, 7);
    SegmentDigits(d, "-", 7, 9);
    SegmentDigits(d, "-", 9, 11);
    DigitsAppend(s0 + s1 + s2 + s3, s4);
    DigitsAppend(s0 + s1 + s2, s3);
    DigitsAppend(s0 + s1, s2);
    DigitsAppend(s0, s1);
    var n := |d|;
    assert Cut(d, 0, 1) + Cut(d, 1, 4) == d[..Min(4, n)];
    assert d[..Min(4, n)] + Cut(d, 4, 7) == d[..Min(7, n)];
    assert d[..Min(7, n)] + Cut(d, 7, 9) == d[..Min(9, n)];
    assert d[..Min(9, n)] + Cut(d, 9, 11) == d[..Min(11, n)];
  }

  /** The layout reads only the first eleven digits. */
  lemma {:induction false} LayoutTruncates(d: string)
    ensures Layout(d) == Layout(d[..Min(11, |d|)])
  {
    var t := d[..Min(11, |d|)];
    assert Substring(d, 0, 1) == Substring(t, 0, 1);
    assert Substring(d, 1, 4) == Substring(t, 1, 4);
    assert Substring(d, 4, 7) == Substring(t, 4, 7);
    assert Substring(d, 7, 9) == Substring(t, 7, 9);
    assert Substring(d, 9, 11) == Substring(t, 9, 11);
  }

  /** The digits of the standard mask: the 7-prefixed digits, cut at eleven. */
  lemma {:induction false} StandardMaskDigits(input: string)
    ensures var p := PrefixSeven(Digits(input));
            Digits(StandardMask(input)) == p[..Min(11, |p|)]
  {
    LayoutDigits(PrefixSeven(Digits(input)));
  }

  /** The standard mask: no digits give "", otherwise the first digit shown is
      7, and at most 18 characters come out. */
  lemma {:induction false} StandardMaskShape(input: string)
    ensures StandardMask(input) == "" <==> Digits(input) == ""
    ensures |StandardMask(input)| <= 18
    ensures Digits(input) != "" ==> StandardMask(input)[..2] == "+7"
  {
  }

  /** Masking a masked value changes nothing. */
  lemma {:induction false} StandardMaskIdempotent(input: string)
    ensures StandardMask(StandardMask(input)) == StandardMask(input)
  {
    var p := PrefixSeven(Digits(input));
    var q := p[..Min(11, |p|)];
    StandardMaskDigits(input);
    assert PrefixSeven(q) == q;
    LayoutTruncates(p);
  }

  /** Digits typed after the eleventh change nothing. */
  lemma {:induction false} StandardMaskIgnoresExtraDigits(input: string, extra: string)
    requires |PrefixSeven(Digits(input))| >= 11
    ensures StandardMask(input + extra) == StandardMask(input)
  {
    assert Shown(input + extra) == Shown(input) by {
      var d, e := Digits(input), Digits(extra);
      DigitsAppend(input, extra);
      var p := PrefixSeven(d);
      assert d != "";
      assert PrefixSeven(d + e) == p + e;
      assert (p + e)[..11] == p[..11];
    }
    StandardMaskIsLayoutOfShown(input);
    StandardMaskIsLayoutOfShown(input + extra);
  }

  /** The digits a masked field shows: the 7-prefixed digits, cut at eleven. */
  function Shown(input: string): (r: string)
    ensures |r| <= 11 && AllDigits(r)
    ensures r == "" <==> Digits(input) == ""
  {
    var p := PrefixSeven(Digits(input));
    p[..Min(11, |p|)]
  }

  lemma {:induction false} StandardMaskIsLayoutOfShown(input: string)
    ensures StandardMask(input) == Layout(Shown(input))
    ensures Digits(StandardMask(input)) == Shown(input)
  {
    LayoutTruncates(PrefixSeven(Digits(input)));
    StandardMaskDigits(input);
  }

  /** Cutting at eleven before or after appending gives the same first eleven. */
  lemma {:induction false} CutAppend(p: string, e: string)
    ensures var q := p[..Min(11, |p|)];
            (q + e)[..Min(11, |q + e|)] == (p + e)[..Min(11, |p + e|)]
  {
    var q := p[..Min(11, |p|)];
    var n := Min(11, |q + e|);
    assert n == Min(11, |p + e|);
    forall i | 0 <= i < n ensures (q + e)[i] == (p + e)[i] {
      if i < |q| {
        assert (q + e)[i] == q[i] == p[i];
      } else {
        assert |q| == |p|;
      }
    }
  }

  lemma {:induction false} ShownAfterKeystroke(typed: string, c: char)
    ensures Shown(StandardMask(typed) + [c]) == Shown(typed + [c])
  {
    var d := Digits(typed);
    var p := PrefixSeven(d);
    var q := Shown(typed);
    var e := Digits([c]);
    StandardMaskIsLayoutOfShown(typed);
    DigitsAppend(StandardMask(typed), [c]);
    DigitsAppend(typed, [c]);
    assert Digits(StandardMask(typed) + [c]) == q + e;
    assert Digits(typed + [c]) == d + e;
    if d == "" {
      assert q + e == e && d + e == e;
    } else {
      assert PrefixSeven(q + e) == q + e;
      assert PrefixSeven(d + e) == p + e;
      CutAppend(p, e);
    }
  }

  /** Typing one more character into a masked field gives what masking the
      raw keystrokes would: the field can be built keystroke by keystroke. */
  lemma {:induction false} KeystrokeConsistent(typed: string, c: char)
    ensures StandardMask(StandardMask(typed) + [c]) == StandardMask(typed + [c])
  {
    ShownAfterKeystroke(typed, c);
    StandardMaskIsLayoutOfShown(StandardMask(typed) + [c]);
    StandardMaskIsLayoutOfShown(typed + [c]);
  }

  /** Round trip: a canonical number, masked and normalized, comes back. */
  lemma {:induction false} MaskThenNormalize(d: string)
    requires IsCanonical(d)
    ensures ExtractPhoneForServer(StandardMask(d)) == d
  {
    DigitsOfDigits(d);
    StandardMaskDigits(d);
    assert StandardMask(d) != "";
  }

  /** Whenever eleven digits are on screen, the normalized value is those
      eleven digits, and it is canonical. */
  lemma {:induction false} MaskedFullNumberIsCanonical(input: string)
    requires |PrefixSeven(Digits(input))| >= 11
    ensures var p := PrefixSeven(Digits(input));
            ExtractPhoneForServer(StandardMask(input)) == p[..11]
            && IsCanonical(p[..11])
  {
    StandardMaskDigits(input);
    var p := PrefixSeven(Digits(input));
    assert StandardMask(input) != "";
    assert AllDigits(p);
  }

  /** The standard mask does not rewrite a leading 8: it puts 7 in front and
      drops the last digit, so the normalized number differs from normalizing
      the raw input. */
  lemma {:induction false} StandardMaskKeepsLeadingEight(d: string)
    requires AllDigits(d) && |d| == 11 && d[0] == '8'
    ensures ExtractPhoneForServer(StandardMask(d)) == "7" + d[..10]
    ensures ExtractPhoneForServer(d) == "7" + d[1..]
  {
    DigitsOfDigits(d);
    StandardMaskDigits(d);
    assert StandardMask(d) != "";
    assert ("7" + d)[..11] == "7" + d[..10];
  }

  /** The layout of eleven digits, segment by segment. */
  lemma {:induction false} LayoutOfEleven(d: string)
    requires |d| == 11
    ensures Layout(d) == "+" + d[..1] + " (" + d[1..4] + ") " + d[4..7] + "-" + d[7..9] + "-" + d[9..]
  {
    assert Substring(d, 0, 1) == d[..1];
    assert Substring(d, 9, 11) == d[9..];
  }

  /** A canonical number is shown as "+7 (XXX) XXX-XX-XX" over its last ten digits. */
  lemma {:induction false} CanonicalDisplay(d: string)
    requires IsCanonical(d)
    ensures StandardMask(d) == "+" + d[..1] + " (" + d[1..4] + ") " + d[4..7] + "-" + d[7..9] + "-" + d[9..]
  {
    DigitsOfDigits(d);
    StandardMaskIsLayoutOfShown(d);
    assert Shown(d) == d;
    LayoutOfEleven(d);
  }

  /** Eleven digits typed from 8 are shown with the 8 inside the area code and
      the last digit gone: "89161234567" appears as "+7 (891) 612-34-56". */
  lemma {:induction false} LeadingEightDisplay(d: string)
    requires AllDigits(d) && |d| == 11 && d[0] == '8'
    ensures StandardMask(d) == "+" + "7" + " (" + d[..3] + ") " + d[3..6] + "-" + d[6..8] + "-" + d[8..10]
  {
    DigitsOfDigits(d);
    StandardMaskIsLayoutOfShown(d);
    var q := "7" + d[..10];
    assert Shown(d) == q;
    LayoutOfEleven(q);
    assert q[..1] == "7" && q[1..4] == d[..3] && q[4..7] == d[3..6] && q[7..9] == d[6..8] && q[9..] == d[8..10];
  }

  /** The digits of the variant mask: the rewritten digits, cut at eleven. */
  lemma {:induction false} VariantMaskDigits(input: string)
    ensures var v := VariantDigits(Digits(input));
            Digits(VariantMask(input)) == v[..Min(11, |v|)]
  {
    LayoutDigits(VariantDigits(Digits(input)));
  }

  /** The variant keeps a leading digit other than 7 or 8 unless exactly ten
      digits are entered: "9" is shown as "+9". */
  lemma VariantKeepsOtherLeadingDigit()
    ensures VariantMask("9") == "+9"
  {
    assert Digits("9") == "9";
  }

  /** For 11 digits starting with 7 or 8, and for 10 digits not starting with
      8, the variant mask does not change what is sent. */
  lemma {:induction false} VariantMaskPreservesNormalized(input: string)
    requires var d := Digits(input);
             (|d| == 11 && (d[0] == '7' || d[0] == '8')) || (|d| == 10 && d[0] != '8')
    ensures ExtractPhoneForServer(VariantMask(input)) == ExtractPhoneForServer(input)
  {
    VariantMaskDigits(input);
    var v := VariantDigits(Digits(input));
    assert IsCanonical(v);
    CanonicalIsFixed(v);
    assert VariantMask(input) != "";
    assert input != "";
  }

  /** Ten digits from 8 are shown as ten digits from 7. */
  lemma {:induction false} VariantOfTenFromEight(input: string)
    requires var d := Digits(input); |d| == 10 && d[0] == '8'
    ensures Digits(VariantMask(input)) == "7" + Digits(input)[1..]
  {
    var v := VariantDigits(Digits(input));
    VariantMaskDigits(input);
    assert v[..Min(11, |v|)] == v;
  }

  /** Ten digits starting with 8 are the exception: the variant rewrites the 8
      and then the normalizer prefixes another 7. */
  lemma {:induction false} VariantTenDigitsFromEight(input: string)
    requires var d := Digits(input); |d| == 10 && d[0] == '8'
    ensures var d := Digits(input);
            ExtractPhoneForServer(VariantMask(input)) == "77" + d[1..]
            && ExtractPhoneForServer(input) == "78" + d[1..]
  {
    var d := Digits(input);
    var t := d[1..];
    assert d == "8" + t;
    VariantOfTenFromEight(input);
    TenDigitsGetSeven(VariantMask(input));
    TenDigitsGetSeven(input);
    assert "7" + ("7" + t) == "77" + t;
    assert "7" + ("8" + t) == "78" + t;
  }

  /** The variant mask is idempotent except on ten digits starting with 8,
      whose masked form has ten digits again and so gains a 7 on re-masking. */
  lemma {:induction false} VariantIdempotentIff(input: string)
    ensures var d := Digits(input);
            VariantMask(VariantMask(input)) == VariantMask(input) <==> !(|d| == 10 && d[0] == '8')
  {
    var d := Digits(input);
    var v := VariantDigits(d);
    var q := v[..Min(11, |v|)];
    VariantMaskDigits(input);
    LayoutTruncates(v);
    if |d| == 10 && d[0] == '8' {
      assert VariantDigits(q) == "7" + q;
      LayoutDigits(q);
      LayoutDigits("7" + q);
      assert |Digits(VariantMask(VariantMask(input)))| == 11 != |Digits(VariantMask(input))|;
    } else {
      assert VariantDigits(q) == q;
    }
  }
}
