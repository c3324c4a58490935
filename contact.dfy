/** The WhatsApp and telephone links the listing pages open for a seller's
    stored phone number: Senegal's country code followed by the number's
    digits, whatever separators it was typed with. */
module Contact {
  import opened Seqs
  import opened Text

  const CountryCode := "221"
  const WhatsAppBase := "https://wa.me/"
  const TelBase := "tel:+"

  /** The number dialled for a stored phone: the country code, then the digits
      of the stored text in their order. */
  function DialNumber(phone: string): (r: string)
    ensures |r| >= |CountryCode| && r[..|CountryCode|] == CountryCode
    ensures forall i :: 0 <= i < |r| ==> IsDigit(r[i])
    ensures forall c :: c in r[|CountryCode|..] <==> c in phone && IsDigit(c)
    ensures |r| <= |CountryCode| + |phone|
    ensures IsSubsequence(r[|CountryCode|..], phone)
  {
    var r := CountryCode + DigitsOnly(phone);
    assert r[|CountryCode|..] == DigitsOnly(phone);
    FilterIsSubsequence(phone, IsDigit);
    r
  }

  /** `https://wa.me/221<digits>`. */
  function WhatsAppLink(phone: string): string {
    WhatsAppBase + DialNumber(phone)
  }

  /** `tel:+221<digits>`. */
  function TelLink(phone: string): string {
    TelBase + DialNumber(phone)
  }

  /** Both links dial the same number. */
  lemma LinksDialSameNumber(phone: string)
    ensures WhatsAppLink(phone)[|WhatsAppBase|..] == TelLink(phone)[|TelBase|..] == DialNumber(phone)
  {
  }

  /** Text without digits contributes nothing to the dialled number. */
  lemma NoDigits(sep: string)
    requires forall i :: 0 <= i < |sep| ==> !IsDigit(sep[i])
    ensures DigitsOnly(sep) == []
  {
    FilterNone(sep, IsDigit);
  }

  /** Spaces, dashes, dots or brackets between digit groups do not change the
      number dialled. */
  lemma SeparatorsIgnored(a: string, sep: string, b: string)
    requires forall i :: 0 <= i < |sep| ==> !IsDigit(sep[i])
    ensures DialNumber(a + sep + b) == DialNumber(a + b)
  {
    DigitsOnlyAppend(a + sep, b);
    DigitsOnlyAppend(a, sep);
    DigitsOnlyAppend(a, b);
    NoDigits(sep);
    assert DigitsOnly(a + sep + b) == DigitsOnly(a) + DigitsOnly(sep) + DigitsOnly(b);
    assert DigitsOnly(a + sep + b) == DigitsOnly(a + b);
  }

  /** A phone stored as bare digits is dialled as is, behind the country code. */
  lemma BareDigitsDialled(phone: string)
    requires forall i :: 0 <= i < |phone| ==> IsDigit(phone[i])
    ensures DialNumber(phone) == CountryCode + phone
  {
    DigitsOnlyOfDigits(phone);
  }
}
