/** The suburb pricing helpers of server/utils/suburbPricing.ts: the
    median-income multiplier, first-match lookups by postcode and by
    suburb name, and the bounded suburb search. The loaded suburb list is a
    parameter of every lookup. */
module SuburbPricing {
  import opened Wrappers
  import opened AsciiText
  import opened Sequences

  /** One row of the suburb income data. */
  datatype SuburbData = SuburbData(
    sscCode: int,
    suburb: string,
    postcode: int,
    medianIncome: real,
    state: string)

  // ---------------------------------------------------------------------
  // Income brackets

  /** The multiplier for a median income: 1.25 above 80000, 1.15 above
      60000, 1.05 above 40000, otherwise 1.0. */
  function IncomeMultiplier(income: real): real {
    if income > 80000.0 then 1.25
    else if income > 60000.0 then 1.15
    else if income > 40000.0 then 1.05
    else 1.0
  }

  /** The multiplier is one of the four bracket values, and each value is
      taken on exactly its own income band. */
  lemma IncomeMultiplierBrackets(income: real)
    ensures IncomeMultiplier(income) in {1.0, 1.05, 1.15, 1.25}
    ensures IncomeMultiplier(income) == 1.25 <==> income > 80000.0
    ensures IncomeMultiplier(income) == 1.15 <==> 60000.0 < income <= 80000.0
    ensures IncomeMultiplier(income) == 1.05 <==> 40000.0 < income <= 60000.0
    ensures IncomeMultiplier(income) == 1.0 <==> income <= 40000.0
  {
  }

  /** A higher income never gets a lower multiplier. */
  lemma IncomeMultiplierMonotone(income: real, income': real)
    requires income <= income'
    ensures 1.0 <= IncomeMultiplier(income) <= IncomeMultiplier(income') <= 1.25
  {
  }

  /** The thresholds are strict: an income exactly on a boundary falls in the
      lower bracket. */
  lemma ThresholdsAreStrict()
    ensures IncomeMultiplier(80000.0) == 1.15
    ensures IncomeMultiplier(60000.0) == 1.05
    ensures IncomeMultiplier(40000.0) == 1.0
  {
  }

  // ---------------------------------------------------------------------
  // parseInt

  /** The white space `parseInt` skips before the number. */
  predicate IsJsWhitespace(c: char) {
    c == ' ' || c == '\t' || c == '\n' || c == '\r' || c == '\U{B}' || c == '\U{C}'
    || c == '\U{A0}' || c == '\U{FEFF}' || c == '\U{2028}' || c == '\U{2029}'
  }

  /** The string with its leading white space removed. */
  function TrimStart(s: string): (r: string)
    ensures |r| <= |s| && r == s[|s| - |r|..]
    ensures forall i :: 0 <= i < |s| - |r| ==> IsJsWhitespace(s[i])
    ensures r == [] || !IsJsWhitespace(r[0])
  {
    if s != [] && IsJsWhitespace(s[0]) then TrimStart(s[1..]) else s
  }

  /** A string not starting with white space is left as it is. */
  lemma TrimStartKeeps(s: string)
    requires s != [] && !IsJsWhitespace(s[0])
    ensures TrimStart(s) == s
  {
  }

  /** `c` is a digit in base 10 or 16. */
  predicate IsRadixDigit(c: char, radix: nat) {
    IsDigit(c) || (radix == 16 && ('a' <= c <= 'f' || 'A' <= c <= 'F'))
  }

  function DigitValue(c: char): (v: nat)
    requires IsRadixDigit(c, 16)
    ensures v < 16 && (IsDigit(c) ==> v < 10)
  {
    if IsDigit(c) then c as nat - '0' as nat
    else if 'a' <= c <= 'f' then c as nat - 'a' as nat + 10
    else c as nat - 'A' as nat + 10
  }

  /** The length of the longest prefix of digits in base `radix`. */
  function DigitRun(s: string, radix: nat): (n: nat)
    ensures n <= |s|
    ensures forall i :: 0 <= i < n ==> IsRadixDigit(s[i], radix)
    ensures n == |s| || !IsRadixDigit(s[n], radix)
  {
    if s == [] || !IsRadixDigit(s[0], radix) then 0
    else
      var n := 1 + DigitRun(s[1..], radix);
      assert forall i :: 1 <= i < n ==> s[i] == s[1..][i - 1];
      n
  }

  /** The value of a string of digits, most significant first. */
  function DigitsValue(ds: string, radix: nat): nat
    requires forall i :: 0 <= i < |ds| ==> IsRadixDigit(ds[i], radix)
  {
    if ds == [] then 0
    else
      assert forall i :: 0 <= i < |ds| - 1 ==> ds[..|ds| - 1][i] == ds[i];
      assert IsRadixDigit(ds[|ds| - 1], radix);
      DigitsValue(ds[..|ds| - 1], radix) * radix + DigitValue(ds[|ds| - 1])
  }

  /** The longest run of digits at the start of `v`, read in base `radix`;
      NaN when there is none. */
  function ParseDigits(v: string, radix: nat): Option<nat> {
    var n := DigitRun(v, radix);
    if n == 0 then None
    else
      assert forall i :: 0 <= i < n ==> v[..n][i] == v[i];
      Some(DigitsValue(v[..n], radix))
  }

  /** `u` begins with `0x` or `0X`. */
  predicate HasHexPrefix(u: string) {
    |u| >= 2 && u[0] == '0' && (u[1] == 'x' || u[1] == 'X')
  }

  /** The number after the sign: hexadecimal after a `0x` prefix, decimal
      otherwise. */
  function ParseUnsigned(u: string): Option<nat> {
    if HasHexPrefix(u) then ParseDigits(u[2..], 16) else ParseDigits(u, 10)
  }

  /** An optional sign, then the number. */
  function ParseSigned(t: string): Option<int> {
    if t != [] && t[0] == '-' then
      match ParseUnsigned(t[1..])
      case None => None
      case Some(m) => Some(-(m as int))
    else if t != [] && t[0] == '+' then
      match ParseUnsigned(t[1..])
      case None => None
      case Some(m) => Some(m)
    else
      match ParseUnsigned(t)
      case None => None
      case Some(m) => Some(m)
  }

  /** `parseInt(s)` without a radix, as an integer or NaN (`None`): leading
      white space, an optional sign, an optional `0x` prefix selecting base
      16, then the longest run of digits; anything after the run is ignored,
      and no digits at all is NaN. */
  function ParseInt(s: string): Option<int> {
    ParseSigned(TrimStart(s))
  }

  function DigitChar(d: nat): (c: char)
    requires d < 10
    ensures IsDigit(c) && DigitValue(c) == d
  {
    ('0' as nat + d) as char
  }

  /** The decimal digits of `n`, without leading zeros. */
  function DecimalDigits(n: nat): (ds: string)
    ensures ds != [] && forall i :: 0 <= i < |ds| ==> IsDigit(ds[i])
    ensures |ds| >= 2 ==> ds[0] != '0'
  {
    if n < 10 then [DigitChar(n)] else DecimalDigits(n / 10) + [DigitChar(n % 10)]
  }

  /** How a postcode is written: an optional minus sign, then its digits. */
  function DecimalString(n: int): string {
    if n < 0 then "-" + DecimalDigits(-n) else DecimalDigits(n)
  }

  lemma {:induction false} DecimalDigitsValue(n: nat)
    ensures DigitsValue(DecimalDigits(n), 10) == n
  {
    if n >= 10 {
      var ds := DecimalDigits(n);
      assert ds[..|ds| - 1] == DecimalDigits(n / 10);
      DecimalDigitsValue(n / 10);
    }
  }

  /** A run of digits followed by something else is read up to its end. */
  lemma {:induction false} DigitRunOfDigits(ds: string, rest: string, radix: nat)
    requires forall i :: 0 <= i < |ds| ==> IsRadixDigit(ds[i], radix)
    requires rest == [] || !IsRadixDigit(rest[0], radix)
    ensures DigitRun(ds + rest, radix) == |ds|
  {
    if ds != [] {
      assert (ds + rest)[1..] == ds[1..] + rest;
      DigitRunOfDigits(ds[1..], rest, radix);
    } else {
      assert ds + rest == rest;
    }
  }

  /** A run of decimal digits without leading zeros, followed by a
      non-digit, is read back as the number it writes. */
  lemma ParseDigitsDecimal(m: nat, rest: string)
    requires rest == [] || !IsDigit(rest[0])
    ensures ParseDigits(DecimalDigits(m) + rest, 10) == Some(m)
  {
    var ds := DecimalDigits(m);
    DigitRunOfDigits(ds, rest, 10);
    assert (ds + rest)[..|ds|] == ds;
    DecimalDigitsValue(m);
  }

  /** A decimal number is never mistaken for a hexadecimal prefix, provided
      no `x` follows a lone `0`. */
  lemma ParseUnsignedDecimal(m: nat, rest: string)
    requires rest == [] || (!IsDigit(rest[0]) && (m != 0 || (rest[0] != 'x' && rest[0] != 'X')))
    ensures ParseUnsigned(DecimalDigits(m) + rest) == Some(m)
  {
    var ds := DecimalDigits(m);
    assert !HasHexPrefix(ds + rest) by {
      if |ds| >= 2 {
        assert (ds + rest)[0] == ds[0];
      } else if |ds + rest| >= 2 {
        assert m < 10 && ds == [DigitChar(m)];
        assert (ds + rest)[1] == rest[0];
      }
    }
    ParseDigitsDecimal(m, rest);
  }

  /** `parseInt` reads back the decimal form of any integer, whatever
      follows it, provided the next character is not a digit (and, after a
      lone `0`, not the `x` of a hexadecimal prefix): "2000" and "2000 NSW"
      both give 2000. */
  lemma ParseIntDecimal(n: int, rest: string)
    requires rest == [] || (!IsDigit(rest[0]) && (n != 0 || (rest[0] != 'x' && rest[0] != 'X')))
    ensures ParseInt(DecimalString(n) + rest) == Some(n)
  {
    var m: nat := if n < 0 then -n else n;
    var u := DecimalDigits(m) + rest;
    var s := DecimalString(n) + rest;
    ParseUnsignedDecimal(m, rest);
    if n < 0 {
      assert s == ['-'] + u;
      MinusSign(u);
    } else {
      assert s == u && IsDigit(s[0]);
    }
    TrimStartKeeps(s);
  }

  /** A leading minus sign negates what follows it. */
  lemma MinusSign(u: string)
    ensures ParseSigned(['-'] + u) == (if ParseUnsigned(u).Some? then Some(-(ParseUnsigned(u).value as int)) else None)
  {
    assert (['-'] + u)[1..] == u;
  }

  /** Leading zeros are skipped: a zero written before the digits of a
      number, as in the postcode "0800", does not change its value. */
  lemma {:induction false} LeadingZeroValue(ds: string, radix: nat)
    requires forall i :: 0 <= i < |ds| ==> IsRadixDigit(ds[i], radix)
    ensures DigitsValue(['0'] + ds, radix) == DigitsValue(ds, radix)
  {
    if ds != [] {
      assert (['0'] + ds)[..|ds|] == ['0'] + ds[..|ds| - 1];
      LeadingZeroValue(ds[..|ds| - 1], radix);
    } else {
      assert (['0'] + ds)[..0] == [];
    }
  }

  /** `parseInt` reads a non-negative number written with a leading zero as
      the number itself. */
  lemma ParseIntLeadingZero(m: nat)
    ensures ParseInt(['0'] + DecimalDigits(m)) == Some(m)
  {
    var ds := DecimalDigits(m);
    var s := ['0'] + ds;
    assert s[0] == '0' && !HasHexPrefix(s) by {
      assert s[1] == ds[0];
    }
    assert TrimStart(s) == s by {
      TrimStartKeeps(s);
    }
    assert ParseDigits(s, 10) == Some(m) by {
      DigitRunOfDigits(s, [], 10);
      assert s + [] == s && s[..|s|] == s;
      LeadingZeroValue(ds, 10);
      DecimalDigitsValue(m);
    }
  }

  /** A string that, after its white space, starts with neither a digit nor
      a sign is NaN: "abc" and the empty string. */
  lemma ParseIntNaN(s: string)
    requires TrimStart(s) == [] || (!IsDigit(TrimStart(s)[0]) && TrimStart(s)[0] != '-' && TrimStart(s)[0] != '+')
    ensures ParseInt(s).None?
  {
  }

  /** White space before the number changes nothing. */
  lemma ParseIntSkipsWhitespace(c: char, s: string)
    requires IsJsWhitespace(c)
    ensures ParseInt([c] + s) == ParseInt(s)
  {
    assert ([c] + s)[1..] == s;
  }

  // ---------------------------------------------------------------------
  // Lookups by postcode

  /** Entry `i` is the first with the given postcode. */
  predicate FirstWithPostcode(suburbs: seq<SuburbData>, i: int, postcode: int) {
    && 0 <= i < |suburbs| && suburbs[i].postcode == postcode
    && forall j :: 0 <= j < i ==> suburbs[j].postcode != postcode
  }

  /** The index of the first suburb with the given postcode. */
  function FindPostcode(suburbs: seq<SuburbData>, postcode: int): (r: Option<nat>)
    ensures r.None? <==> forall i :: 0 <= i < |suburbs| ==> suburbs[i].postcode != postcode
    ensures r.Some? ==> FirstWithPostcode(suburbs, r.value, postcode)
    ensures forall i :: FirstWithPostcode(suburbs, i, postcode) ==> r == Some(i)
  {
    FindFirst(suburbs, (s: SuburbData) => s.postcode == postcode)
  }

  /** The result of `getMultiplierForPostcode`. */
  datatype PostcodeMultiplier = PostcodeMultiplier(multiplier: real, found: bool, message: Option<string>)

  const InvalidPostcodeMessage := "Invalid postcode format"
  const PostcodeNotFoundMessage := "Postcode not found"

  /** `getMultiplierForPostcode`: NaN is an invalid format; otherwise the
      first suburb with the postcode sets the multiplier; neither gives 1.0. */
  function GetMultiplierForPostcode(suburbs: seq<SuburbData>, postcode: string): (r: PostcodeMultiplier)
    ensures ParseInt(postcode).None? ==> r == PostcodeMultiplier(1.0, false, Some(InvalidPostcodeMessage))
    ensures ParseInt(postcode).Some? && (forall i :: 0 <= i < |suburbs| ==> suburbs[i].postcode != ParseInt(postcode).value)
      ==> r == PostcodeMultiplier(1.0, false, Some(PostcodeNotFoundMessage))
    ensures forall i :: ParseInt(postcode).Some? && FirstWithPostcode(suburbs, i, ParseInt(postcode).value) ==>
      (r == PostcodeMultiplier(IncomeMultiplier(suburbs[i].medianIncome), true, None))
  {
    match ParseInt(postcode)
    case None => PostcodeMultiplier(1.0, false, Some(InvalidPostcodeMessage))
    case Some(n) =>
      match FindPostcode(suburbs, n)
      case None => PostcodeMultiplier(1.0, false, Some(PostcodeNotFoundMessage))
      case Some(i) => PostcodeMultiplier(IncomeMultiplier(suburbs[i].medianIncome), true, None)
  }

  /** The result of `getPostcodeInfo`; absent fields are `None`. */
  datatype PostcodeInfo = PostcodeInfo(
    found: bool,
    income: Option<real>,
    multiplier: real,
    suburb: Option<string>,
    state: Option<string>,
    message: Option<string>)

  /** `getPostcodeInfo`: as `getMultiplierForPostcode`, and a match also
      reports that suburb's income, name and state. */
  function GetPostcodeInfo(suburbs: seq<SuburbData>, postcode: string): (r: PostcodeInfo)
    ensures ParseInt(postcode).None? ==>
      r == PostcodeInfo(false, None, 1.0, None, None, Some(InvalidPostcodeMessage))
    ensures ParseInt(postcode).Some? && (forall i :: 0 <= i < |suburbs| ==> suburbs[i].postcode != ParseInt(postcode).value)
      ==> r == PostcodeInfo(false, None, 1.0, None, None, Some(PostcodeNotFoundMessage))
    ensures forall i :: ParseInt(postcode).Some? && FirstWithPostcode(suburbs, i, ParseInt(postcode).value) ==>
      (r == PostcodeInfo(true, Some(suburbs[i].medianIncome), IncomeMultiplier(suburbs[i].medianIncome),
                         Some(suburbs[i].suburb), Some(suburbs[i].state), None))
  {
    match ParseInt(postcode)
    case None => PostcodeInfo(false, None, 1.0, None, None, Some(InvalidPostcodeMessage))
    case Some(n) =>
      match FindPostcode(suburbs, n)
      case None => PostcodeInfo(false, None, 1.0, None, None, Some(PostcodeNotFoundMessage))
      case Some(i) =>
        var s := suburbs[i];
        PostcodeInfo(true, Some(s.medianIncome), IncomeMultiplier(s.medianIncome), Some(s.suburb), Some(s.state), None)
  }

  /** A postcode is found exactly when it parses and some suburb has it. */
  lemma PostcodeFoundIff(suburbs: seq<SuburbData>, postcode: string)
    ensures GetPostcodeInfo(suburbs, postcode).found <==>
      ParseInt(postcode).Some? && exists i :: 0 <= i < |suburbs| && suburbs[i].postcode == ParseInt(postcode).value
  {
    if ParseInt(postcode).Some? {
      var n := ParseInt(postcode).value;
      match FindPostcode(suburbs, n)
      case None =>
      case Some(i) => assert FirstWithPostcode(suburbs, i, n);
    }
  }

  /** The two postcode lookups agree on `found`, the multiplier and the
      message for every postcode. */
  lemma PostcodeLookupsAgree(suburbs: seq<SuburbData>, postcode: string)
    ensures var m, info := GetMultiplierForPostcode(suburbs, postcode), GetPostcodeInfo(suburbs, postcode);
      m.found == info.found && m.multiplier == info.multiplier && m.message == info.message
  {
  }

  /** A postcode written with a leading zero, as "0800" for 800, finds the
      first suburb with that postcode. */
  lemma LeadingZeroPostcode(suburbs: seq<SuburbData>, i: nat)
    requires i < |suburbs| && suburbs[i].postcode >= 0 && FirstWithPostcode(suburbs, i, suburbs[i].postcode)
    ensures var info := GetPostcodeInfo(suburbs, ['0'] + DecimalDigits(suburbs[i].postcode));
      info.found && info.suburb == Some(suburbs[i].suburb) && info.state == Some(suburbs[i].state)
  {
    ParseIntLeadingZero(suburbs[i].postcode);
  }

  // ---------------------------------------------------------------------
  // Lookups by suburb name

  /** `a.toLowerCase() === b.toLowerCase()`. */
  predicate SameName(a: string, b: string) {
    Lower(a) == Lower(b)
  }

  /** Entry `i` is the first whose name matches, ignoring case. */
  predicate FirstWithName(suburbs: seq<SuburbData>, i: int, name: string) {
    && 0 <= i < |suburbs| && SameName(suburbs[i].suburb, name)
    && forall j :: 0 <= j < i ==> !SameName(suburbs[j].suburb, name)
  }

  /** The index of the first suburb whose name matches, ignoring case. */
  function FindSuburb(suburbs: seq<SuburbData>, name: string): (r: Option<nat>)
    ensures r.None? <==> forall i :: 0 <= i < |suburbs| ==> !SameName(suburbs[i].suburb, name)
    ensures r.Some? ==> FirstWithName(suburbs, r.value, name)
    ensures forall i :: FirstWithName(suburbs, i, name) ==> r == Some(i)
  {
    FindFirst(suburbs, (s: SuburbData) => SameName(s.suburb, name))
  }

  /** `getMultiplierForSuburb`: the first matching suburb's multiplier, 1.0
      when there is none. */
  function GetMultiplierForSuburb(suburbs: seq<SuburbData>, name: string): (m: real)
    ensures (forall i :: 0 <= i < |suburbs| ==> !SameName(suburbs[i].suburb, name)) ==> m == 1.0
    ensures forall i :: FirstWithName(suburbs, i, name) ==> m == IncomeMultiplier(suburbs[i].medianIncome)
  {
    match FindSuburb(suburbs, name)
    case None => 1.0
    case Some(i) => IncomeMultiplier(suburbs[i].medianIncome)
  }

  /** The result of `getSuburbInfo`; absent fields are `None`. */
  datatype SuburbInfo = SuburbInfo(
    found: bool,
    income: Option<real>,
    multiplier: real,
    postcode: Option<int>,
    state: Option<string>)

  /** `getSuburbInfo`: the first suburb whose name matches, ignoring case,
      with its income, multiplier, postcode and state. */
  function GetSuburbInfo(suburbs: seq<SuburbData>, name: string): (r: SuburbInfo)
    ensures (forall i :: 0 <= i < |suburbs| ==> !SameName(suburbs[i].suburb, name))
      ==> r == SuburbInfo(false, None, 1.0, None, None)
    ensures forall i :: FirstWithName(suburbs, i, name) ==>
      (r == SuburbInfo(true, Some(suburbs[i].medianIncome), IncomeMultiplier(suburbs[i].medianIncome),
                       Some(suburbs[i].postcode), Some(suburbs[i].state)))
  {
    match FindSuburb(suburbs, name)
    case None => SuburbInfo(false, None, 1.0, None, None)
    case Some(i) =>
      var s := suburbs[i];
      SuburbInfo(true, Some(s.medianIncome), IncomeMultiplier(s.medianIncome), Some(s.postcode), Some(s.state))
  }

  /** A suburb is found exactly when some entry's name matches. */
  lemma SuburbFoundIff(suburbs: seq<SuburbData>, name: string)
    ensures GetSuburbInfo(suburbs, name).found <==>
      exists i :: 0 <= i < |suburbs| && SameName(suburbs[i].suburb, name)
  {
    match FindSuburb(suburbs, name)
    case None =>
    case Some(i) => assert FirstWithName(suburbs, i, name);
  }

  /** The two suburb lookups agree on the multiplier. */
  lemma SuburbLookupsAgree(suburbs: seq<SuburbData>, name: string)
    ensures GetMultiplierForSuburb(suburbs, name) == GetSuburbInfo(suburbs, name).multiplier
  {
  }

  /** Only the letters' case is ignored: a name and its lower-case form find
      the same suburb. */
  lemma SuburbLookupIgnoresCase(suburbs: seq<SuburbData>, name: string)
    ensures GetSuburbInfo(suburbs, Lower(name)) == GetSuburbInfo(suburbs, name)
  {
    LowerIdempotent(name);
    assert forall s: SuburbData :: SameName(s.suburb, Lower(name)) == SameName(s.suburb, name);
  }

  // ---------------------------------------------------------------------
  // Search

  /** The search keeps at most this many suburbs. */
  const SearchLimit := 10

  /** The suburb's lower-cased name contains the lower-cased query. */
  predicate MatchesQuery(s: SuburbData, query: string) {
    Contains(Lower(s.suburb), Lower(query))
  }

  /** Every suburb matching the query, in list order. */
  function Matching(suburbs: seq<SuburbData>, query: string): seq<SuburbData> {
    Filter(suburbs, (s: SuburbData) => MatchesQuery(s, query))
  }

  /** `searchSuburbs`: the first ten suburbs, in list order, whose name
      contains the query, ignoring case. */
  function SearchSuburbs(suburbs: seq<SuburbData>, query: string): (r: seq<SuburbData>)
    ensures |r| == if |Matching(suburbs, query)| < SearchLimit then |Matching(suburbs, query)| else SearchLimit
    ensures r == Matching(suburbs, query)[..|r|]
    ensures forall s :: s in r ==> s in suburbs && MatchesQuery(s, query)
    ensures IsSubsequence(r, suburbs)
    ensures |r| < SearchLimit ==>
      forall i :: 0 <= i < |suburbs| && MatchesQuery(suburbs[i], query) ==> suburbs[i] in r
  {
    var all := Matching(suburbs, query);
    var n := if |all| < SearchLimit then |all| else SearchLimit;
    PrefixOfSubsequence(all, suburbs, n);
    assert forall s :: s in all[..n] ==> s in all;
    assert n < SearchLimit ==> all[..n] == all;
    all[..n]
  }

  /** Every name contains the empty string, so an empty query returns the
      first ten suburbs. */
  lemma EmptyQueryListsFirstTen(suburbs: seq<SuburbData>)
    ensures SearchSuburbs(suburbs, "") == suburbs[..if |suburbs| < SearchLimit then |suburbs| else SearchLimit]
  {
    forall s: SuburbData
      ensures MatchesQuery(s, "")
    {
      EmptyIsContained(Lower(s.suburb));
    }
    FilterKeepsAll(suburbs, (s: SuburbData) => MatchesQuery(s, ""));
  }
}
