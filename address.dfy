/** Recipient-address normalisation done by the send route before it
    forwards a message: strip every non-digit from the phone input, prefix the
    Indian country code when exactly ten digits remain, and append the
    WhatsApp user-domain suffix. A regional heuristic, not a phone-number
    standard. */
module Address {

  /** Country code prepended to a ten-digit local number. */
  const CountryCode: string := "91"
  /** Domain suffix that turns a number into a chat address. */
  const Suffix: string := "@c.us"
  /** The digit count that is taken to be a local number without country code. */
  const LocalLength: nat := 10

  /** The characters `\d` matches in a JavaScript regular expression. */
  predicate IsDigit(c: char) {
    '0' <= c <= '9'
  }

  predicate AllDigits(s: string) {
    forall i :: 0 <= i < |s| ==> IsDigit(s[i])
  }

  predicate NoDigits(s: string) {
    forall i :: 0 <= i < |s| ==> !IsDigit(s[i])
  }

  /** `s.replace(/\D/g, '')`: the digits of `s`, in order. */
  function Digits(s: string): (d: string)
    ensures AllDigits(d)
    ensures |d| <= |s|
    ensures AllDigits(s) ==> d == s
    ensures NoDigits(s) ==> d == []
  {
    if s == [] then []
    else if IsDigit(s[0]) then [s[0]] + Digits(s[1..])
    else Digits(s[1..])
  }

  /** The address the send route forwards for a phone input. */
  function NormalizeAddress(phone: string): (addr: string)
    ensures |Suffix| <= |addr| && addr[|addr| - |Suffix|..] == Suffix
    ensures AllDigits(addr[..|addr| - |Suffix|])
    ensures |Digits(phone)| == LocalLength <==> addr == CountryCode + Digits(phone) + Suffix
    ensures |Digits(phone)| != LocalLength <==> addr == Digits(phone) + Suffix
  {
    var num := Digits(phone);
    var num := if |num| == LocalLength then CountryCode + num else num;
    num + Suffix
  }

  /** Stripping non-digits distributes over concatenation. */
  lemma {:induction false} DigitsConcat(a: string, b: string)
    ensures Digits(a + b) == Digits(a) + Digits(b)
  {
    if a == [] {
      assert a + b == b;
    } else {
      assert (a + b)[0] == a[0];
      assert (a + b)[1..] == a[1..] + b;
      DigitsConcat(a[1..], b);
    }
  }

  /** A run of non-digit characters between two parts of the input is
      dropped: the digits are those of the two parts, joined. */
  lemma DigitsSkipSeparator(before: string, separator: string, after: string)
    requires NoDigits(separator)
    ensures Digits(before + separator + after) == Digits(before) + Digits(after)
  {
    DigitsConcat(before + separator, after);
    DigitsConcat(before, separator);
  }

  /** Separators inserted anywhere in the phone input do not change the
      address. */
  lemma SeparatorsIgnored(before: string, separator: string, after: string)
    requires NoDigits(separator)
    ensures NormalizeAddress(before + separator + after) == NormalizeAddress(before + after)
  {
    DigitsSkipSeparator(before, separator, after);
    DigitsConcat(before, after);
  }

  /** Normalising an address that normalisation produced gives it back: the
      suffix carries no digits and a prefixed number has twelve digits, so no
      second prefix is added. */
  lemma NormalizeIdempotent(phone: string)
    ensures NormalizeAddress(NormalizeAddress(phone)) == NormalizeAddress(phone)
  {
    var addr := NormalizeAddress(phone);
    var num := addr[..|addr| - |Suffix|];
    assert addr == num + Suffix;
    DigitsConcat(num, Suffix);
    assert NoDigits(Suffix);
  }

  /** Two phone inputs reach the same recipient exactly when they carry the
      same digits, or when one is the ten-digit local form of the other's
      twelve-digit number starting with the country code. */
  lemma SameAddressIff(p: string, q: string)
    ensures NormalizeAddress(p) == NormalizeAddress(q) <==>
      Digits(p) == Digits(q)
      || (|Digits(q)| == LocalLength && Digits(p) == CountryCode + Digits(q))
      || (|Digits(p)| == LocalLength && Digits(q) == CountryCode + Digits(p))
  {
    var dp, dq := Digits(p), Digits(q);
    var np := if |dp| == LocalLength then CountryCode + dp else dp;
    var nq := if |dq| == LocalLength then CountryCode + dq else dq;
    if NormalizeAddress(p) == NormalizeAddress(q) {
      assert np + Suffix == nq + Suffix;
      assert np == (np + Suffix)[..|np|];
      assert nq == (nq + Suffix)[..|nq|];
      assert np == nq;
      if |dp| == LocalLength && |dq| == LocalLength {
        assert dp == np[2..] && dq == nq[2..];
      }
    }
  }

  /** A ten-digit number with separators gets the country code. */
  lemma SeparatedLocalExample()
    ensures NormalizeAddress("98-765 43210") == "919876543210@c.us"
  {
    var x, y, z := "98", "765", "43210";
    assert x + "-" + y + " " + z == "98-765 43210";
    assert CountryCode + (x + y + z) + Suffix == "919876543210@c.us";
    assert AllDigits(x) && AllDigits(y) && AllDigits(z) && NoDigits("-") && NoDigits(" ");
    DigitsSkipSeparator(x, "-", y);
    DigitsSkipSeparator(x + "-" + y, " ", z);
  }

  /** A plain ten-digit number gets the country code. */
  lemma PlainLocalExample()
    ensures NormalizeAddress("1234567890") == "911234567890@c.us"
  {
    var num := "1234567890";
    assert CountryCode + num + Suffix == "911234567890@c.us";
    assert Digits(num) == num by {
      assert AllDigits(num);
    }
    assert NormalizeAddress(num) == CountryCode + num + Suffix;
  }

  /** A number written with its country code is not prefixed again. */
  lemma InternationalExample()
    ensures NormalizeAddress("+91 98765 43210") == "919876543210@c.us"
  {
    var w, x, y, z := "", "91", "98765", "43210";
    assert w + "+" + x + " " + y + " " + z == "+91 98765 43210";
    assert (x + y + z) + Suffix == "919876543210@c.us";
    assert AllDigits(x) && AllDigits(y) && AllDigits(z) && NoDigits("+") && NoDigits(" ");
    DigitsSkipSeparator(w, "+", x);
    DigitsSkipSeparator(w + "+" + x, " ", y);
    DigitsSkipSeparator(w + "+" + x + " " + y, " ", z);
  }

  /** A number of any other length is forwarded without prefix. */
  lemma ShortNumberExample()
    ensures NormalizeAddress("12345") == "12345@c.us"
  {
    var num := "12345";
    assert Digits(num) == num by {
      assert AllDigits(num);
    }
    assert num + Suffix == "12345@c.us";
  }
}
