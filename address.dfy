/** Recipient normalisation (src/utils/formatNumber.js): turns a raw phone
    number typed by a caller into the address the WhatsApp network expects.
    Non-digits are dropped, a leading national trunk `0` becomes Indonesia's
    country code `62` (ITU-T E.164 country code; no further E.164 validation),
    anything else that does not already start with `62` is rejected, and the
    personal-chat suffix is appended. */
module Address {
  import opened Wrappers

  const CountryCode: string := "62"
  const Suffix: string := "@s.whatsapp.net"
  /** The message of the Error thrown for a number with the wrong prefix. */
  const PrefixError: string := "Nomor harus diawali dengan 62 atau 0."

  /** `\d` in a JavaScript regular expression without the `u` flag: ASCII digits only. */
  predicate IsDigit(c: char) {
    '0' <= c <= '9'
  }

  predicate AllDigits(s: string) {
    forall i :: 0 <= i < |s| ==> IsDigit(s[i])
  }

  /** `number.replace(/\D/g, '')`: keeps exactly the digits, in order. */
  function StripNonDigits(s: string): (r: string)
    ensures AllDigits(r)
    ensures |r| <= |s|
    ensures AllDigits(s) ==> r == s
  {
    if s == [] then []
    else (if IsDigit(s[0]) then [s[0]] else []) + StripNonDigits(s[1..])
  }

  /** Stripping keeps every digit as often as it occurs, and no other character. */
  lemma {:induction false} StripKeepsDigits(s: string)
    ensures forall c :: IsDigit(c) ==> multiset(StripNonDigits(s))[c] == multiset(s)[c]
    ensures forall c :: !IsDigit(c) ==> multiset(StripNonDigits(s))[c] == 0
  {
    if s != [] {
      assert s == [s[0]] + s[1..];
      StripKeepsDigits(s[1..]);
    }
  }

  /** The digit part of a canonical address: everything before the suffix. */
  function DigitsOf(a: string): string
    requires |a| >= |Suffix|
  {
    a[..|a| - |Suffix|]
  }

  /** The shape of every address `FormatNumber` produces: a digit string that
      starts with the country code, followed by the personal-chat suffix. */
  predicate IsCanonical(a: string) {
    && |a| >= |CountryCode| + |Suffix|
    && a[|a| - |Suffix|..] == Suffix
    && CountryCode <= DigitsOf(a)
    && AllDigits(DigitsOf(a))
  }

  /** A digit string led by the country code, with the suffix appended, has the canonical shape. */
  lemma SuffixedIsCanonical(d: string)
    requires AllDigits(d) && CountryCode <= d
    ensures IsCanonical(d + Suffix)
  {
    var a := d + Suffix;
    assert a[|a| - |Suffix|..] == Suffix;
    assert DigitsOf(a) == d;
  }

  /** The exported normaliser. Throwing is modelled as `Err(message)`. */
  function FormatNumber(number: string): (r: Result<string, string>)
    ensures r.Ok? ==> IsCanonical(r.value)
    ensures r.Err? ==> r.error == PrefixError
    ensures r.Err? <==> var clean := StripNonDigits(number);
                        !(clean != [] && clean[0] == '0') && !(CountryCode <= clean)
  {
    var clean := StripNonDigits(number);
    if clean != [] && clean[0] == '0' then
      var national := CountryCode + clean[1..];
      assert forall i :: 0 <= i < |national| ==> IsDigit(national[i]) by {
        forall i | 0 <= i < |national| ensures IsDigit(national[i]) {
          if i >= |CountryCode| {
            assert national[i] == clean[i - |CountryCode| + 1];
          }
        }
      }
      SuffixedIsCanonical(national);
      Ok(national + Suffix)
    else if !(CountryCode <= clean) then
      Err(PrefixError)
    else
      SuffixedIsCanonical(clean);
      Ok(clean + Suffix)
  }

  /** Stripping distributes over concatenation, so it keeps the relative order of digits. */
  lemma {:induction false} StripAppend(a: string, b: string)
    ensures StripNonDigits(a + b) == StripNonDigits(a) + StripNonDigits(b)
  {
    if a == [] {
      assert a + b == b;
    } else {
      assert (a + b)[0] == a[0];
      assert (a + b)[1..] == a[1..] + b;
      StripAppend(a[1..], b);
    }
  }

  /** A string without digits strips to the empty string. */
  lemma {:induction false} StripNoDigits(s: string)
    requires forall i :: 0 <= i < |s| ==> !IsDigit(s[i])
    ensures StripNonDigits(s) == []
  {
    if s != [] {
      StripNoDigits(s[1..]);
    }
  }

  lemma SuffixStripsToEmpty()
    ensures StripNonDigits(Suffix) == []
  {
    forall i | 0 <= i < |Suffix| ensures !IsDigit(Suffix[i]) {
    }
    StripNoDigits(Suffix);
  }

  /** The suffix holds no digit, so stripping a canonical address gives back its digits. */
  lemma StripCanonical(a: string)
    requires IsCanonical(a)
    ensures StripNonDigits(a) == DigitsOf(a)
  {
    var d := DigitsOf(a);
    assert a == d + Suffix;
    StripAppend(d, Suffix);
    SuffixStripsToEmpty();
  }

  /** Every canonical address is a fixed point of the normaliser. */
  lemma CanonicalIsFixed(a: string)
    requires IsCanonical(a)
    ensures FormatNumber(a) == Ok(a)
  {
    StripCanonical(a);
    var d := DigitsOf(a);
    assert d[0] == '6';
    assert a == d + Suffix;
  }

  /** Idempotence: normalising a normalised address returns it unchanged. */
  lemma FormatIdempotent(number: string)
    requires FormatNumber(number).Ok?
    ensures FormatNumber(FormatNumber(number).value) == FormatNumber(number)
  {
    CanonicalIsFixed(FormatNumber(number).value);
  }

  /** The digits of a successful result: a leading `0` is replaced by `62`
      (exactly that one character), digits already led by `62` are kept as
      they are; so a `0`-led digit string of length n gives n + 1 digits and a
      `62`-led one gives n. */
  lemma FormatDigits(number: string)
    requires FormatNumber(number).Ok?
    ensures var clean, a := StripNonDigits(number), FormatNumber(number).value;
            && (clean[0] == '0' ==> DigitsOf(a) == CountryCode + clean[1..] && |DigitsOf(a)| == |clean| + 1)
            && (clean[0] != '0' ==> CountryCode <= clean && DigitsOf(a) == clean && |DigitsOf(a)| == |clean|)
  {
    var clean, a := StripNonDigits(number), FormatNumber(number).value;
    if clean[0] == '0' {
      assert a == (CountryCode + clean[1..]) + Suffix;
    } else {
      assert a == clean + Suffix;
    }
  }

  /** Input whose digits already start with `62` keeps those digits unchanged. */
  lemma FormatKeepsCountryCode(number: string)
    requires CountryCode <= StripNonDigits(number)
    ensures FormatNumber(number) == Ok(StripNonDigits(number) + Suffix)
  {
  }

  /** Only the digits matter: inputs with the same digits normalise alike. */
  lemma FormatIgnoresNonDigits(x: string, y: string)
    requires StripNonDigits(x) == StripNonDigits(y)
    ensures FormatNumber(x) == FormatNumber(y)
  {
  }

  /** An input without any digit (the empty string included) is rejected. */
  lemma FormatRejectsNoDigits(number: string)
    requires forall i :: 0 <= i < |number| ==> !IsDigit(number[i])
    ensures FormatNumber(number) == Err(PrefixError)
  {
    StripNoDigits(number);
  }

  /** The national number `081234567` becomes `6281234567@s.whatsapp.net`. */
  lemma FormatNationalExample()
    ensures FormatNumber("081234567") == Ok(CountryCode + "81234567" + Suffix)
  {
    var n := "081234567";
    assert AllDigits(n);
    assert n == "0" + "81234567";
  }

  /** An address that is already canonical passes through unchanged. */
  lemma FormatCanonicalExample()
    ensures FormatNumber("6281234567@s.whatsapp.net") == Ok("6281234567@s.whatsapp.net")
  {
    assert IsCanonical("6281234567@s.whatsapp.net") by {
      assert DigitsOf("6281234567@s.whatsapp.net") == "6281234567";
    }
    CanonicalIsFixed("6281234567@s.whatsapp.net");
  }

  /** A number led by neither `0` nor `62` is refused. */
  lemma FormatForeignExample()
    ensures FormatNumber("1234") == Err(PrefixError)
  {
    assert AllDigits("1234");
  }
}
