/**
 * The financial-status-report transform helpers (`FsrFormTransform::Utils`):
 * the `YYYY-M[M]` to `MM/YYYY` date reformatter, the recursive lower-camelCase
 * re-keying of nested arrays and hashes, and the lenient string-to-integer
 * parser. ActiveSupport's `camelcase(:lower)` is a parameter.
 */
module FsrUtils {
  import opened Wrappers
  import opened Json
  import opened Text

  // ---------------------------------------------------------------------------
  // sanitize_date_string

  /** The NoMethodError raised when the string has no month field. */
  datatype DateError = MissingMonth

  /** What `sanitize_date_string` answers for `date`. */
  function SanitizedDate(date: string): Result<string, DateError> {
    if |date| == 0 then Ok("")
    else
      var replaced := ReplaceAll(date, "XX", "01");
      var full := if |Split(replaced, '-')| == 2 then replaced + "-01" else replaced;
      var parts := Split(full, '-');
      if |parts| < 2 then Err(MissingMonth)
      else
        var month := if |parts[1]| == 1 then "0" + parts[1] else parts[1];
        Ok(month + "/" + parts[0])
  }

  /** `sanitize_date_string`, appending the default day in place. */
  method SanitizeDateString(date: string) returns (r: Result<string, DateError>)
    ensures r == SanitizedDate(date)
  {
    if |date| == 0 {
      return Ok("");
    }
    var dateString := ReplaceAll(date, "XX", "01");
    if |Split(dateString, '-')| == 2 {
      dateString := dateString + "-01";
    }
    var parts := Split(dateString, '-');
    if |parts| < 2 {
      return Err(MissingMonth);
    }
    var year, month := parts[0], parts[1];
    if |month| == 1 {
      month := "0" + month;
    }
    r := Ok(month + "/" + year);
  }

  /** A date field: non-empty, without `-` and without `X`. */
  predicate PlainField(s: string) {
    |s| > 0 && forall i :: 0 <= i < |s| ==> s[i] != '-' && s[i] != 'X'
  }

  lemma PlainJoinHasNoX(parts: seq<string>)
    requires |parts| >= 1 && forall k :: 0 <= k < |parts| ==> PlainField(parts[k])
    ensures forall i :: 0 <= i < |Join(parts, "-")| ==> Join(parts, "-")[i] != 'X'
    decreases |parts|
  {
    if |parts| > 1 {
      PlainJoinHasNoX(parts[1..]);
      var rest := Join(parts[1..], "-");
      assert Join(parts, "-") == parts[0] + "-" + rest;
      forall i | 0 <= i < |Join(parts, "-")| ensures Join(parts, "-")[i] != 'X' {
        if i < |parts[0]| {
          assert Join(parts, "-")[i] == parts[0][i];
        } else if i > |parts[0]| {
          assert Join(parts, "-")[i] == rest[i - |parts[0]| - 1];
        }
      }
    }
  }

  lemma SplitPlainJoin(parts: seq<string>)
    requires |parts| >= 1 && forall k :: 0 <= k < |parts| ==> PlainField(parts[k])
    ensures Split(Join(parts, "-"), '-') == parts
  {
    FieldsOfJoin(parts, '-');
  }

  /** The month written with two digits, as the reformatter pads it. */
  function TwoDigitMonth(month: string): string {
    if |month| == 1 then "0" + month else month
  }

  /** `join('-')` of two fields, a step for the split lemmas below. */
  lemma JoinTwo(a: string, b: string)
    ensures Join([a, b], "-") == a + "-" + b
  {
    assert [a, b][1..] == [b];
  }

  /** `join('-')` of three fields, a step for the split lemmas below. */
  lemma JoinThree(a: string, b: string, c: string)
    ensures Join([a, b, c], "-") == a + "-" + b + "-" + c
  {
    assert [a, b, c][1..] == [b, c];
    JoinTwo(b, c);
  }

  lemma JanuaryIsPlain()
    ensures PlainField("01")
  {
    assert "01"[0] == '0' && "01"[1] == '1';
  }

  lemma SplitYearMonth(year: string, month: string)
    requires PlainField(year) && PlainField(month)
    ensures Split(year + "-" + month, '-') == [year, month]
  {
    JoinTwo(year, month);
    SplitPlainJoin([year, month]);
  }

  lemma SplitYearMonthDefaultDay(year: string, month: string)
    requires PlainField(year) && PlainField(month)
    ensures Split(year + "-" + month + "-01", '-') == [year, month, "01"]
  {
    JoinThree(year, month, "01");
    JanuaryIsPlain();
    SplitPlainJoin([year, month, "01"]);
    assert year + "-" + month + "-01" == year + "-" + month + "-" + "01";
  }

  /** Once the `XX` markers are replaced, a `year-month` string reformats to `MM/YYYY`. */
  lemma SanitizeYearMonth(date: string, year: string, month: string)
    requires |date| > 0 && PlainField(year) && PlainField(month)
    requires ReplaceAll(date, "XX", "01") == year + "-" + month
    ensures SanitizedDate(date) == Ok(TwoDigitMonth(month) + "/" + year)
  {
    SplitYearMonth(year, month);
    SplitYearMonthDefaultDay(year, month);
  }

  /** `YYYY-M[M]` becomes `MM/YYYY`: the default day is added and dropped again. */
  lemma YearMonthBecomesMonthSlashYear(year: string, month: string)
    requires PlainField(year) && PlainField(month)
    ensures SanitizedDate(year + "-" + month) == Ok(TwoDigitMonth(month) + "/" + year)
  {
    JoinTwo(year, month);
    PlainJoinHasNoX([year, month]);
    ReplaceAllAbsent(year + "-" + month, "XX", "01");
    SanitizeYearMonth(year + "-" + month, year, month);
  }

  /** `YYYY-M[M]-DD` becomes `MM/YYYY`: the day is ignored. */
  lemma YearMonthDayBecomesMonthSlashYear(year: string, month: string, day: string)
    requires PlainField(year) && PlainField(month) && PlainField(day)
    ensures SanitizedDate(year + "-" + month + "-" + day) == Ok(TwoDigitMonth(month) + "/" + year)
  {
    var date := year + "-" + month + "-" + day;
    JoinThree(year, month, day);
    PlainJoinHasNoX([year, month, day]);
    ReplaceAllAbsent(date, "XX", "01");
    SplitPlainJoin([year, month, day]);
  }

  lemma ReplaceUnknownMonth(year: string)
    requires PlainField(year)
    ensures ReplaceAll(year + "-XX", "XX", "01") == year + "-" + "01"
  {
    assert ReplaceAll("XX", "XX", "01") == "01" by {
      assert StartsWith("XX", "XX");
      assert "XX"[2..] == "";
    }
    assert forall i :: 0 <= i < |year + "-"| ==> (year + "-")[i] != 'X';
    ReplaceAllPrefix(year + "-", "XX", "XX", "01");
    assert (year + "-") + "XX" == year + "-XX";
  }

  /** An unknown month `XX` is read as January. */
  lemma UnknownMonthIsJanuary(year: string)
    requires PlainField(year)
    ensures SanitizedDate(year + "-XX") == Ok("01/" + year)
  {
    ReplaceUnknownMonth(year);
    JanuaryIsPlain();
    SanitizeYearMonth(year + "-XX", year, "01");
    assert TwoDigitMonth("01") + "/" + year == "01/" + year;
  }

  /** A year alone has no month, and the reformatter raises. */
  lemma YearAloneRaises(year: string)
    requires PlainField(year)
    ensures SanitizedDate(year) == Err(MissingMonth)
  {
    assert Join([year], "-") == year;
    PlainJoinHasNoX([year]);
    ReplaceAllAbsent(year, "XX", "01");
    SplitPlainJoin([year]);
  }

  // ---------------------------------------------------------------------------
  // str_to_num

  /** The argument of `str_to_num`: an Integer, a String, or anything else. */
  datatype Input = Num(n: int) | Str(s: string) | Other

  predicate NumberChar(c: char) {
    IsDigit(c) || c == '.' || c == '-'
  }

  /** `gsub(/[^0-9.-]/, '')`: keeps digits, dots and minus signs, in order. */
  function KeepNumberChars(s: string): string {
    if |s| == 0 then ""
    else (if NumberChar(s[0]) then [s[0]] else []) + KeepNumberChars(s[1..])
  }

  /** The maximal run of digits at the start of `s`. */
  function LeadingDigits(s: string): (r: string)
    ensures AllDigits(r) && |r| <= |s| && r == s[..|r|]
    ensures |r| < |s| ==> !IsDigit(s[|r|])
  {
    if |s| == 0 || !IsDigit(s[0]) then "" else [s[0]] + LeadingDigits(s[1..])
  }

  /** `String#to_i` on a string without spaces or underscores: an optional `-`, then the leading digits; 0 when there are none. */
  function ToI(s: string): int {
    if |s| > 0 && s[0] == '-' then 0 - (DigitsValue(LeadingDigits(s[1..])) as int)
    else DigitsValue(LeadingDigits(s))
  }

  /** `str_to_num`. */
  function StrToNum(x: Input): int {
    match x
    case Num(n) => n
    case Str(s) => ToI(KeepNumberChars(s))
    case Other => 0
  }

  /** `Integer#to_s`. */
  function IntToString(n: int): string {
    if n < 0 then "-" + NatToString(-n) else NatToString(n)
  }

  lemma KeepNumberCharsKeeps(s: string)
    requires forall i :: 0 <= i < |s| ==> NumberChar(s[i])
    ensures KeepNumberChars(s) == s
  {
    if |s| > 0 {
      KeepNumberCharsKeeps(s[1..]);
      assert s == [s[0]] + s[1..];
    }
  }

  lemma LeadingDigitsAll(s: string)
    requires AllDigits(s)
    ensures LeadingDigits(s) == s
  {
  }

  /** A numeral, signed or not, parses back to its number. */
  lemma StrToNumOfNumeral(n: int)
    ensures StrToNum(Str(IntToString(n))) == n
  {
    var digits := NatToString(if n < 0 then -n else n);
    DigitsValueOfNatToString(if n < 0 then -n else n);
    LeadingDigitsAll(digits);
    KeepNumberCharsKeeps(IntToString(n));
    if n < 0 {
      assert IntToString(n)[1..] == digits;
    } else {
      assert digits[0] != '-';
    }
  }

  lemma KeepNumberCharsConcat(a: string, b: string)
    ensures KeepNumberChars(a + b) == KeepNumberChars(a) + KeepNumberChars(b)
  {
    if |a| > 0 {
      assert (a + b)[1..] == a[1..] + b;
      KeepNumberCharsConcat(a[1..], b);
    } else {
      assert a + b == b;
    }
  }

  lemma LeadingDigitsStop(d: string, rest: string)
    requires AllDigits(d) && |rest| > 0 && !IsDigit(rest[0])
    ensures LeadingDigits(d + rest) == d
  {
    if |d| > 0 {
      assert (d + rest)[1..] == d[1..] + rest;
      LeadingDigitsStop(d[1..], rest);
    }
  }

  lemma KeepNumberCharsKeptPrefix(t: string, s: string)
    requires forall i :: 0 <= i < |t| ==> NumberChar(t[i])
    ensures KeepNumberChars(t + s) == t + KeepNumberChars(s)
  {
    if |t| > 0 {
      assert (t + s)[1..] == t[1..] + s;
      KeepNumberCharsKeptPrefix(t[1..], s);
      assert t == [t[0]] + t[1..];
    } else {
      assert t + s == s;
    }
  }

  lemma KeepCurrencyChars(a: string, b: string, c: string)
    requires AllDigits(a) && AllDigits(b) && AllDigits(c)
    ensures KeepNumberChars("$" + (a + ("," + (b + ("." + c))))) == a + (b + ("." + c))
  {
    var tail1 := "," + (b + ("." + c));
    assert ("$" + (a + tail1))[1..] == a + tail1;
    KeepNumberCharsKeptPrefix(a, tail1);
    assert tail1[1..] == b + ("." + c);
    KeepNumberCharsKeptPrefix(b, "." + c);
    KeepNumberCharsKeptPrefix("." + c, "");
    assert ("." + c) + "" == "." + c;
  }

  /**
   * A currency amount `$a,b.c` parses to the integer part `ab`: the dollar
   * sign and the thousands separator are dropped and the fraction truncated.
   */
  lemma StrToNumOfCurrency(a: string, b: string, c: string)
    requires |a| > 0 && AllDigits(a) && AllDigits(b) && AllDigits(c)
    ensures StrToNum(Str("$" + (a + ("," + (b + ("." + c)))))) == DigitsValue(a + b)
  {
    KeepCurrencyChars(a, b, c);
    assert a + (b + ("." + c)) == (a + b) + ("." + c);
    LeadingDigitsStop(a + b, "." + c);
    assert ((a + b) + ("." + c))[0] == a[0];
  }

  /** An illustration of StrToNumOfCurrency on one amount. */
  lemma StrToNumOfDollarsExample()
    ensures StrToNum(Str("$1,234.56")) == 1234
  {
    StrToNumOfCurrency("1", "234", "56");
    assert "$" + ("1" + ("," + ("234" + ("." + "56")))) == "$1,234.56";
    assert DigitsValue("1234") == 1234 by {
      assert "1234"[..3] == "123";
      assert "123"[..2] == "12";
      assert "12"[..1] == "1";
    }
    assert "1" + "234" == "1234";
  }

  /** Numbers pass through, anything that is not a string is 0, and an empty string is 0. */
  lemma StrToNumEdges(n: int)
    ensures StrToNum(Num(n)) == n
    ensures StrToNum(Other) == 0
    ensures StrToNum(Str("")) == 0
  {
  }

  // ---------------------------------------------------------------------------
  // re_camel

  predicate IsContainer(v: Json) {
    v.JArray? || v.JObject?
  }

  /** `re_camel`: the re-keyed container; nil for anything else. */
  function Camelized(x: Json, camel: string -> string): Json
    decreases x, 2
  {
    match x
    case JArray(items) => JArray(CamelizedItems(x, |items|, camel))
    case JObject(fields) => JObject(CamelizedFields(x, |fields|, camel))
    case _ => JNull
  }

  /** A container value is re-keyed; any other value is kept. */
  function Converted(v: Json, camel: string -> string): Json
    decreases v, 3
  {
    if IsContainer(v) then Camelized(v, camel) else v
  }

  /** `re_camel_array` over the first `n` elements. */
  function CamelizedItems(x: Json, n: nat, camel: string -> string): seq<Json>
    requires x.JArray? && n <= |x.items|
    decreases x, 1, n
  {
    if n == 0 then []
    else
      assert x.items[n - 1] in x.items;
      CamelizedItems(x, n - 1, camel) + [Converted(x.items[n - 1], camel)]
  }

  /** `re_camel_hash` over the first `n` entries: a later key that camelizes the same overwrites in place. */
  function CamelizedFields(x: Json, n: nat, camel: string -> string): seq<Field>
    requires x.JObject? && n <= |x.fields|
    decreases x, 1, n
  {
    if n == 0 then []
    else
      var f := x.fields[n - 1];
      assert f in x.fields;
      Put(CamelizedFields(x, n - 1, camel), camel(f.key), Converted(f.value, camel))
  }

  /** `re_camel`. */
  method ReCamel(x: Json, camel: string -> string) returns (r: Json)
    ensures r == Camelized(x, camel)
    decreases x, 2
  {
    if x.JArray? {
      var items := ReCamelArray(x, camel);
      return JArray(items);
    }
    if x.JObject? {
      var fields := ReCamelHash(x, camel);
      return JObject(fields);
    }
    return JNull;
  }

  /** `re_camel_array`, appending each converted element to `result`. */
  method ReCamelArray(x: Json, camel: string -> string) returns (result: seq<Json>)
    requires x.JArray?
    ensures result == CamelizedItems(x, |x.items|, camel)
    decreases x, 1
  {
    result := [];
    var i := 0;
    while i < |x.items|
      invariant 0 <= i <= |x.items|
      invariant result == CamelizedItems(x, i, camel)
    {
      var el := x.items[i];
      assert el in x.items;
      if IsContainer(el) {
        var converted := ReCamel(el, camel);
        result := result + [converted];
      } else {
        result := result + [el];
      }
      i := i + 1;
    }
  }

  /** `re_camel_hash`, storing each converted value under the camelized key. */
  method ReCamelHash(x: Json, camel: string -> string) returns (result: seq<Field>)
    requires x.JObject?
    ensures result == CamelizedFields(x, |x.fields|, camel)
    decreases x, 1
  {
    result := [];
    var i := 0;
    while i < |x.fields|
      invariant 0 <= i <= |x.fields|
      invariant result == CamelizedFields(x, i, camel)
    {
      var entry := x.fields[i];
      assert entry in x.fields;
      var value := entry.value;
      if IsContainer(value) {
        value := ReCamel(entry.value, camel);
      }
      result := Put(result, camel(entry.key), value);
      i := i + 1;
    }
  }

  /** Anything that is neither an array nor a hash re-camels to nil. */
  lemma ScalarsBecomeNil(x: Json, camel: string -> string)
    requires !IsContainer(x)
    ensures Camelized(x, camel) == JNull
  {
  }

  /** An array keeps its length and order; each element is converted in place. */
  lemma {:induction false} CamelizedArrayPointwise(x: Json, n: nat, camel: string -> string)
    requires x.JArray? && n <= |x.items|
    ensures |CamelizedItems(x, n, camel)| == n
    ensures forall k :: 0 <= k < n ==> CamelizedItems(x, n, camel)[k] == Converted(x.items[k], camel)
  {
    if n > 0 {
      CamelizedArrayPointwise(x, n - 1, camel);
    }
  }

  /** `camel` keeps the keys of `fields` apart. */
  predicate CamelInjective(fields: seq<Field>, camel: string -> string) {
    forall i, j :: 0 <= i < j < |fields| ==> camel(fields[i].key) != camel(fields[j].key)
  }

  lemma CamelizedHashStep(x: Json, n: nat, camel: string -> string)
    requires x.JObject? && 0 < n <= |x.fields| && CamelInjective(x.fields, camel)
    requires |CamelizedFields(x, n - 1, camel)| == n - 1
    requires forall k :: 0 <= k < n - 1 ==> CamelizedFields(x, n - 1, camel)[k].key == camel(x.fields[k].key)
    ensures CamelizedFields(x, n, camel)
         == CamelizedFields(x, n - 1, camel) + [Field(camel(x.fields[n - 1].key), Converted(x.fields[n - 1].value, camel))]
  {
    var front := CamelizedFields(x, n - 1, camel);
    forall k | 0 <= k < n - 1 ensures front[k].key != camel(x.fields[n - 1].key) {
      assert camel(x.fields[k].key) != camel(x.fields[n - 1].key);
    }
    AbsentKey(front, camel(x.fields[n - 1].key));
  }

  /**
   * When `camel` keeps a hash's keys apart, every entry is re-keyed in place:
   * same length, same order, each value converted.
   */
  lemma {:induction false} CamelizedHashPointwise(x: Json, n: nat, camel: string -> string)
    requires x.JObject? && n <= |x.fields| && CamelInjective(x.fields, camel)
    ensures |CamelizedFields(x, n, camel)| == n
    ensures forall k :: 0 <= k < n ==>
      CamelizedFields(x, n, camel)[k] == Field(camel(x.fields[k].key), Converted(x.fields[k].value, camel))
  {
    if n > 0 {
      var front := CamelizedFields(x, n - 1, camel);
      CamelizedHashPointwise(x, n - 1, camel);
      CamelizedHashStep(x, n, camel);
      var all := CamelizedFields(x, n, camel);
      forall k | 0 <= k < n
        ensures all[k] == Field(camel(x.fields[k].key), Converted(x.fields[k].value, camel))
      {
        if k < n - 1 {
          assert all[k] == front[k];
        }
      }
    }
  }
}
