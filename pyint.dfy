/**
  Python's `int(s)` on a string, base 10: surrounding whitespace is ignored, one
  optional sign is allowed, and the digits may be grouped by single underscores
  (`"8_080"`), but may not start or end with one. Leading zeros are accepted
  (`int("0080") == 80`). Since Python 3.11 (and the 3.7.14, 3.8.14, 3.9.14 and
  3.10.7 security releases) a numeral of more than 4300 digits is refused as well;
  underscores and the sign do not count toward the limit, leading zeros do.
  Anything else raises `ValueError`, modelled as `None`.
*/
module PyInt {
  import opened Wrappers
  import opened Text
  import opened Numerals

  /** The default of `sys.get_int_max_str_digits()`. */
  const MaxStrDigits := 4300

  predicate IsSign(c: char) {
    c == '+' || c == '-'
  }

  predicate DigitsOrUnderscores(s: string) {
    forall k :: 0 <= k < |s| ==> IsDigit(s[k]) || s[k] == '_'
  }

  /** Digits, each underscore standing between two digits. */
  predicate DigitGroups(s: string) {
    s != [] && IsDigit(s[0]) && DigitsOrUnderscores(s) &&
    forall k :: 0 <= k < |s| && s[k] == '_' ==> k + 1 < |s| && IsDigit(s[k + 1])
  }

  /** The digits of `s` with the underscores removed. */
  function DropUnderscores(s: string): (r: string)
    requires DigitsOrUnderscores(s)
    ensures AllDigits(r) && |r| <= |s|
  {
    if s == [] then []
    else if s[0] == '_' then DropUnderscores(s[1..])
    else [s[0]] + DropUnderscores(s[1..])
  }

  function GroupsValue(s: string): (v: nat)
    requires DigitGroups(s)
  {
    DigitsValue(DropUnderscores(s))
  }

  /** Only digits and underscores, with at most a sign in front. */
  predicate IntChars(t: string) {
    forall k :: 0 <= k < |t| ==> IsDigit(t[k]) || t[k] == '_' || (k == 0 && IsSign(t[k]))
  }

  /** A numeral without its one optional leading sign. */
  function Unsigned(t: string): (u: string)
    ensures |u| <= |t| && u == t[|t| - |u|..]
    ensures t != [] && IsSign(t[0]) ==> |u| == |t| - 1
    ensures !(t != [] && IsSign(t[0])) ==> u == t
  {
    if t != [] && IsSign(t[0]) then t[1..] else t
  }

  /** Digit groups holding at most `MaxStrDigits` digits. */
  predicate WithinLimit(g: string) {
    DigitGroups(g) && |DropUnderscores(g)| <= MaxStrDigits
  }

  /**
    A stripped numeral: accepted exactly when it is an optional sign followed by
    digit groups of at most 4300 digits, so a doubled, leading or trailing
    underscore and an overlong numeral are refused.
  */
  function ParseSigned(t: string): (r: Option<int>)
    ensures r.Some? ==> t != [] && IntChars(t)
    ensures r.Some? <==> WithinLimit(Unsigned(t))
  {
    if t == [] then None
    else if IsSign(t[0]) then
      var body := t[1..];
      if WithinLimit(body) then
        assert forall k :: 1 <= k < |t| ==> t[k] == body[k - 1];
        var v: int := GroupsValue(body);
        Some(if t[0] == '-' then -v else v)
      else None
    else if WithinLimit(t) then Some(GroupsValue(t))
    else None
  }

  /** `int(s)`: the stripped string read as a signed numeral. */
  function ParseInt(s: string): (r: Option<int>)
    ensures AllSpace(s) ==> r == None
    ensures r.Some? ==> Trim(s) != [] && IntChars(Trim(s))
    ensures r.Some? <==> WithinLimit(Unsigned(Trim(s)))
  {
    ParseSigned(Trim(s))
  }

  lemma {:induction false} DropUnderscoresOfDigits(s: string)
    requires AllDigits(s)
    ensures DropUnderscores(s) == s
  {
    if s != [] {
      DropUnderscoresOfDigits(s[1..]);
      assert s == [s[0]] + s[1..];
    }
  }

  /** A stripped numeral without a sign reads as its groups' value, within the digit limit. */
  lemma ParseUnsignedNumeral(t: string)
    requires t != [] && !IsSign(t[0])
    ensures ParseSigned(t) == if WithinLimit(t) then Some(GroupsValue(t)) else None
  {
  }

  /** A plain run of digits has no whitespace to strip. */
  lemma DigitsTrimmed(s: string)
    requires s != [] && AllDigits(s)
    ensures Trim(s) == s
  {
    assert IsDigit(s[0]) && IsDigit(s[|s| - 1]);
    var e: string := [];
    assert e + s + e == s;
    TrimUnique(e, s, e);
  }

  /** A plain run of digits is a single digit group with nothing to drop. */
  lemma DigitsAreGroups(s: string)
    requires s != [] && AllDigits(s)
    ensures DigitGroups(s) && DropUnderscores(s) == s
  {
    assert DigitsOrUnderscores(s);
    assert forall k :: 0 <= k < |s| ==> s[k] != '_';
    DropUnderscoresOfDigits(s);
  }

  /**
    A plain run of ASCII digits, with or without leading zeros, parses to its
    value when it has at most 4300 digits, and is refused otherwise.
  */
  lemma ParseDigits(s: string)
    requires s != [] && AllDigits(s)
    ensures ParseInt(s) == if |s| <= MaxStrDigits then Some(DigitsValue(s)) else None
  {
    DigitsTrimmed(s);
    assert IsDigit(s[0]);
    ParseUnsignedNumeral(s);
    DigitsAreGroups(s);
  }

  /** A sign (or none) followed by digit groups neither starts nor ends with whitespace. */
  lemma SignedGroupsTrimmed(sign: string, g: string)
    requires sign == "" || sign == "+" || sign == "-"
    requires DigitGroups(g)
    ensures Trimmed(sign + g)
  {
    var t := sign + g;
    assert IsDigit(g[|g| - 1]);
    assert t[|t| - 1] == g[|g| - 1];
    assert t[0] == if sign == "" then g[0] else sign[0];
  }

  /**
    A sign (or none) followed by digit groups reads as the groups' value, negated
    under a minus, unless the groups hold more than 4300 digits.
  */
  lemma ParseSignedGroups(sign: string, g: string)
    requires sign == "" || sign == "+" || sign == "-"
    requires DigitGroups(g)
    ensures ParseSigned(sign + g) ==
      if |DropUnderscores(g)| <= MaxStrDigits then Some(if sign == "-" then -(GroupsValue(g) as int) else GroupsValue(g))
      else None
  {
    var t := sign + g;
    if sign == "" {
      assert t == g;
      assert !IsSign(t[0]);
      assert ParseSigned(t) == if WithinLimit(g) then Some(GroupsValue(g)) else None;
    } else {
      assert t[0] == sign[0] && IsSign(t[0]);
      assert t[1..] == g;
      assert (t[0] == '-') == (sign == "-");
      assert ParseSigned(t) ==
        if WithinLimit(g) then Some(if t[0] == '-' then -(GroupsValue(g) as int) else GroupsValue(g)) else None;
    }
  }

  /**
    A signed, underscored and whitespace-padded numeral parses to the value of its
    digits, negated under a minus sign, unless it holds more than 4300 digits.
  */
  lemma ParseNumeral(pre: string, sign: string, g: string, post: string)
    requires AllSpace(pre) && AllSpace(post)
    requires sign == "" || sign == "+" || sign == "-"
    requires DigitGroups(g)
    ensures ParseInt(pre + sign + g + post) ==
      if |DropUnderscores(g)| <= MaxStrDigits then Some(if sign == "-" then -(GroupsValue(g) as int) else GroupsValue(g))
      else None
  {
    SignedGroupsTrimmed(sign, g);
    assert pre + sign + g + post == pre + (sign + g) + post;
    TrimUnique(pre, sign + g, post);
    ParseSignedGroups(sign, g);
  }

  /** `int` refuses a doubled underscore. */
  lemma RefusesDoubledUnderscore()
    ensures ParseInt("80__80") == None
  {
    var s := "80__80";
    assert s[0] == '8' && s[|s| - 1] == '0' && !IsSign(s[0]);
    assert Trimmed(s);
    assert [] + s + [] == s;
    TrimUnique([], s, []);
    assert Unsigned(s) == s;
    assert s[2] == '_' && !IsDigit(s[3]);
  }

  /** `int` refuses a trailing underscore. */
  lemma RefusesTrailingUnderscore()
    ensures ParseInt("1_") == None
  {
    var s := "1_";
    assert s[0] == '1' && s[|s| - 1] == '_' && !IsSign(s[0]);
    assert Trimmed(s);
    assert [] + s + [] == s;
    TrimUnique([], s, []);
    assert Unsigned(s) == s;
    assert s[1] == '_';
  }

  /** `"8_080"` is one group separator between digits, worth 8080. */
  lemma GroupedPortValue()
    ensures DigitGroups("8_080") && GroupsValue("8_080") == 8080
  {
    var g := "8_080";
    assert g[1] == '_' && IsDigit(g[2]);
    assert forall k :: 0 <= k < |g| && g[k] == '_' ==> k == 1;
    assert DropUnderscores(g) == "8080" by {
      assert g[4..][0] == '0' && g[4..][1..] == [];
      assert DropUnderscores(g[4..]) == "0";
      assert g[3..][0] == '8' && g[3..][1..] == g[4..];
      assert DropUnderscores(g[3..]) == "80";
      assert g[2..][0] == '0' && g[2..][1..] == g[3..];
      assert DropUnderscores(g[2..]) == "080";
      assert g[1..][0] == '_' && g[1..][1..] == g[2..];
      assert DropUnderscores(g[1..]) == "080";
      assert g[0] == '8';
    }
    assert DigitsValue("8080") == 8080 by {
      var d := "8080";
      assert d[..3] == "808" && d[..3][..2] == "80" && d[..3][..2][..1] == "8" && d[..3][..2][..1][..0] == [];
    }
  }

  /** `int(" +8_080\n") == 8080`: padding, a plus sign and a group separator together. */
  lemma AcceptsPaddedGroupedPort()
    ensures ParseInt(" " + "+" + "8_080" + "\n") == Some(8080)
  {
    GroupedPortValue();
    ParseNumeral(" ", "+", "8_080", "\n");
  }

  /** `int(str(n)) == n` wherever `str(n)` itself stays within the 4300-digit limit. */
  lemma ParseDecimal(n: nat)
    ensures ParseInt(Decimal(n)) == if |Decimal(n)| <= MaxStrDigits then Some(n) else None
  {
    ParseDigits(Decimal(n));
  }
}
