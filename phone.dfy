/**
 * The backend's phone-number normaliser (`formatToE164`): strip everything
 * but digits and `+`, then apply an ordered rule table, first rule wins.
 */
module Phone {
  import opened Types
  import opened Text

  /** The characters `/[^\d+]/g` does not delete. */
  predicate Kept(c: char) {
    IsDigit(c) || c == '+'
  }

  predicate OnlyKept(s: string) {
    forall i :: 0 <= i < |s| ==> Kept(s[i])
  }

  /** `phone.replace(/[^\d+]/g, '')`. */
  function Clean(s: string): (r: string)
    ensures |r| <= |s| && OnlyKept(r)
    decreases |s|
  {
    if s == [] then [] else (if Kept(s[0]) then [s[0]] else []) + Clean(s[1..])
  }

  /** The market used when no rule recognises the number. */
  const DefaultCountryCode: string := "+91"

  /** `formatToE164(phone, defaultCountryCode)`; `None` stands for the source's `null`. */
  function FormatToE164(phone: string, defaultCode: string): (r: Option<string>)
    ensures r.None? <==> phone == ""
  {
    if phone == "" then None
    else
      var c := Clean(phone);
      if StartsWith(c, "+") then Some(c)
      else if StartsWith(c, "00") then Some("+" + c[2..])
      else if |c| == 10 && '6' <= c[0] <= '9' then Some("+91" + c)
      else if |c| == 10 then Some("+1" + c)
      else if |c| == 11 && StartsWith(c, "1") then Some("+" + c)
      else if |c| == 12 && StartsWith(c, "91") then Some("+" + c)
      else Some(defaultCode + c)
  }

  /** Cleaning is a per-character filter: it maps a concatenation to the concatenation of the cleaned parts. */
  lemma {:induction false} CleanAppend(a: string, b: string)
    ensures Clean(a + b) == Clean(a) + Clean(b)
    decreases |a|
  {
    if a != [] {
      assert (a + b)[0] == a[0];
      assert (a + b)[1..] == a[1..] + b;
      CleanAppend(a[1..], b);
      var head := if Kept(a[0]) then [a[0]] else [];
      calc {
        Clean(a + b);
        head + Clean(a[1..] + b);
        head + (Clean(a[1..]) + Clean(b));
        (head + Clean(a[1..])) + Clean(b);
      }
    } else {
      assert a + b == b;
    }
  }

  /** A single character survives cleaning exactly when it is a digit or `+`. */
  lemma CleanOne(c: char)
    ensures Clean([c]) == if Kept(c) then [c] else []
  {
    assert [c][1..] == [];
  }

  /** Everything cleaning leaves is a digit or `+`. */
  lemma {:induction false} CleanOnlyKept(s: string)
    ensures OnlyKept(Clean(s))
    decreases |s|
  {
    if s != [] {
      CleanOnlyKept(s[1..]);
    }
  }

  /** A string of digits and `+` is left alone by cleaning. */
  lemma {:induction false} CleanFixesKept(s: string)
    requires OnlyKept(s)
    ensures Clean(s) == s
    decreases |s|
  {
    if s != [] {
      CleanFixesKept(s[1..]);
      assert [s[0]] + s[1..] == s;
    }
  }

  predicate IsCountryCode(code: string) {
    |code| >= 1 && code[0] == '+' && AllDigits(code[1..])
  }

  /** With a `+digits` default, every non-null result starts with `+` and holds only digits and `+`. */
  lemma FormatShape(phone: string, defaultCode: string)
    requires IsCountryCode(defaultCode)
    ensures var r := FormatToE164(phone, defaultCode);
            r.Some? ==> |r.value| >= 1 && r.value[0] == '+' && OnlyKept(r.value)
  {
    if phone != "" {
      var c := Clean(phone);
      CleanOnlyKept(phone);
      var r := FormatToE164(phone, defaultCode).value;
      if StartsWith(c, "+") {
      } else if StartsWith(c, "00") {
        assert r == "+" + c[2..];
      } else {
        assert forall i :: 0 <= i < |defaultCode| ==> Kept(defaultCode[i]) by {
          forall i | 0 <= i < |defaultCode| ensures Kept(defaultCode[i]) {
            if i > 0 { assert defaultCode[i] == defaultCode[1..][i - 1]; }
          }
        }
      }
    }
  }

  /** Normalising an already normalised number returns it unchanged. */
  lemma FormatIdempotent(phone: string)
    ensures var r := FormatToE164(phone, DefaultCountryCode);
            r.Some? ==> FormatToE164(r.value, DefaultCountryCode) == r
  {
    var r := FormatToE164(phone, DefaultCountryCode);
    if r.Some? {
      FormatShape(phone, DefaultCountryCode);
      CleanFixesKept(r.value);
    }
  }

  /** The result keeps the cleaned number whole, or drops only its `00` international prefix, and adds at most three characters. */
  lemma FormatKeepsDigits(phone: string)
    requires phone != ""
    ensures var c := Clean(phone);
            var r := FormatToE164(phone, DefaultCountryCode).value;
            && |c| - 1 <= |r| <= |c| + 3
            && (if !StartsWith(c, "+") && StartsWith(c, "00") then r == "+" + c[2..]
                else |c| <= |r| && r[|r| - |c|..] == c)
  {
  }

  /** Rule 3 for any ten digits starting with 6 to 9: an Indian mobile number gets `+91`. */
  lemma FormatTenDigitMobile(c: string)
    requires |c| == 10 && AllDigits(c) && '6' <= c[0] <= '9'
    ensures FormatToE164(c, DefaultCountryCode) == Some("+91" + c)
  {
    assert OnlyKept(c);
    CleanFixesKept(c);
    assert c[..1] != "+" && c[..2] != "00" by {
      assert c[..1][0] == c[0] && c[..2][0] == c[0];
    }
  }

  lemma FormatIndianMobile()
    ensures FormatToE164("9876543210", DefaultCountryCode) == Some("+919876543210")
  {
    var c := "98765" + "43210";
    assert c == "9876543210";
    FormatTenDigitMobile(c);
    assert "+91" + c == "+919876543210";
  }

  /** Rule 1 for any cleaned number with a leading `+`: it is kept as it is. */
  lemma FormatPlusKept(c: string)
    requires |c| >= 1 && c[0] == '+' && OnlyKept(c)
    ensures FormatToE164(c, DefaultCountryCode) == Some(c)
  {
    CleanFixesKept(c);
    assert c[..1] == "+";
  }

  lemma FormatAlreadyInternational()
    ensures FormatToE164("+15551234567", DefaultCountryCode) == Some("+15551234567")
  {
    var c := "+15551234567";
    assert OnlyKept(c);
    FormatPlusKept(c);
  }

  /** Rule 2 for any digit string: a `00` international prefix becomes `+`. */
  lemma FormatInternationalPrefix(rest: string)
    requires AllDigits(rest)
    ensures FormatToE164("00" + rest, DefaultCountryCode) == Some("+" + rest)
  {
    var c := "00" + rest;
    assert OnlyKept(c) by {
      forall i | 0 <= i < |c| ensures Kept(c[i]) {
        if i >= 2 { assert c[i] == rest[i - 2]; }
      }
    }
    CleanFixesKept(c);
    assert c[..2] == "00";
    assert c[2..] == rest;
  }

  lemma FormatDoubleZero()
    ensures FormatToE164("005551234567", DefaultCountryCode) == Some("+5551234567")
  {
    FormatInternationalPrefix("5551234567");
    assert "00" + "5551234567" == "005551234567";
    assert "+" + "5551234567" == "+5551234567";
  }

  /** A three-digit input falls through to the default code and stays too short to dial. */
  lemma FormatTooShort()
    ensures FormatToE164("123", DefaultCountryCode) == Some("+91123")
  {
    var c := "123";
    assert OnlyKept(c);
    CleanFixesKept(c);
    assert c[..1] != "+" && c[..2] != "00" by {
      assert c[..1][0] == '1' && c[..2][0] == '1';
    }
    assert DefaultCountryCode + c == "+91123";
  }
}
