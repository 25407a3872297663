/**
 * The Ruby/ActiveSupport string operations the core relies on, over
 * `seq<char>`: `blank?`/`presence`, `compact_blank`, `join`, `last(n)`,
 * `downcase` and `casecmp?` (ASCII only), `gsub`/`sub` with a literal
 * pattern, `split` on one character, `end_with?`, and decimal digits.
 */
module Text {
  import opened Wrappers

  /** The characters Ruby's `[[:space:]]` matches in the ASCII range. */
  predicate IsSpace(c: char) {
    c == ' ' || 9 <= c as int <= 13
  }

  /** `String#blank?`: empty or only white space. */
  predicate IsBlank(s: string) {
    forall i :: 0 <= i < |s| ==> IsSpace(s[i])
  }

  /** `present?` on a possibly-nil string. */
  predicate Present(o: Option<string>) {
    o.Some? && !IsBlank(o.value)
  }

  /** `compact_blank`: drops nil and blank entries, keeps the order of the others. */
  function CompactBlank(xs: seq<Option<string>>): (r: seq<string>)
    ensures |r| <= |xs|
    ensures forall i :: 0 <= i < |r| ==> !IsBlank(r[i])
    ensures forall i :: 0 <= i < |xs| && Present(xs[i]) ==> xs[i].value in r
  {
    if |xs| == 0 then []
    else (if Present(xs[0]) then [xs[0].value] else []) + CompactBlank(xs[1..])
  }

  /** With every entry present, `compact_blank` only unwraps them. */
  lemma {:induction false} CompactBlankAllPresent(xs: seq<Option<string>>)
    requires forall i :: 0 <= i < |xs| ==> Present(xs[i])
    ensures |CompactBlank(xs)| == |xs|
    ensures forall i :: 0 <= i < |xs| ==> CompactBlank(xs)[i] == xs[i].value
  {
    if |xs| > 0 {
      CompactBlankAllPresent(xs[1..]);
    }
  }

  /** `compact_blank` works piece by piece: each part keeps its own present entries, in order. */
  lemma {:induction false} CompactBlankConcat(xs: seq<Option<string>>, ys: seq<Option<string>>)
    ensures CompactBlank(xs + ys) == CompactBlank(xs) + CompactBlank(ys)
  {
    if |xs| > 0 {
      assert (xs + ys)[0] == xs[0] && (xs + ys)[1..] == xs[1..] + ys;
      CompactBlankConcat(xs[1..], ys);
      var head := if Present(xs[0]) then [xs[0].value] else [];
      assert CompactBlank(xs + ys) == head + (CompactBlank(xs[1..]) + CompactBlank(ys));
      assert head + (CompactBlank(xs[1..]) + CompactBlank(ys)) == (head + CompactBlank(xs[1..])) + CompactBlank(ys);
    } else {
      assert xs + ys == ys;
    }
  }

  /** One entry survives `compact_blank` exactly when it is present. */
  lemma CompactBlankOne(x: Option<string>)
    ensures CompactBlank([x]) == if Present(x) then [x.value] else []
  {
    assert [x][1..] == [];
  }

  /** A further entry appends its value when present and nothing otherwise. */
  lemma CompactBlankSnoc(xs: seq<Option<string>>, x: Option<string>)
    ensures CompactBlank(xs + [x]) == CompactBlank(xs) + (if Present(x) then [x.value] else [])
  {
    CompactBlankConcat(xs, [x]);
    CompactBlankOne(x);
  }

  /** `Array#join(sep)`. */
  function Join(parts: seq<string>, sep: string): string
  {
    if |parts| == 0 then ""
    else if |parts| == 1 then parts[0]
    else parts[0] + sep + Join(parts[1..], sep)
  }

  /** `String#last(n)` and `Array#last(n)`: the last `n` elements, or all of them when fewer. */
  function Last<T>(s: seq<T>, n: nat): (r: seq<T>)
    ensures |r| == if |s| <= n then |s| else n
    ensures s == s[..|s| - |r|] + r
  {
    if |s| <= n then s else s[|s| - n..]
  }

  predicate IsDigit(c: char) {
    '0' <= c <= '9'
  }

  predicate AllDigits(s: string) {
    forall i :: 0 <= i < |s| ==> IsDigit(s[i])
  }

  /** `delete('^0-9')`: keeps only the decimal digits, in order. */
  function DigitsOnly(s: string): (r: string)
    ensures AllDigits(r)
    ensures |r| <= |s|
  {
    if |s| == 0 then []
    else (if IsDigit(s[0]) then [s[0]] else []) + DigitsOnly(s[1..])
  }

  function LowerChar(c: char): char {
    if 'A' <= c <= 'Z' then (c as int + 32) as char else c
  }

  /** `String#downcase`, on ASCII letters. */
  function Downcase(s: string): (r: string)
    ensures |r| == |s|
    ensures forall i :: 0 <= i < |s| ==> r[i] == LowerChar(s[i])
  {
    if |s| == 0 then [] else [LowerChar(s[0])] + Downcase(s[1..])
  }

  /** `a.casecmp?(b)`; Ruby answers nil (falsy) when `b` is nil. */
  predicate CaseEq(a: string, b: Option<string>) {
    b.Some? && Downcase(a) == Downcase(b.value)
  }

  predicate StartsWith(s: string, prefix: string) {
    |prefix| <= |s| && s[..|prefix|] == prefix
  }

  predicate EndsWith(s: string, suffix: string) {
    |suffix| <= |s| && s[|s| - |suffix|..] == suffix
  }

  /** `String#include?`: `pat` occurs somewhere in `s`. */
  predicate Includes(s: string, pat: string)
    decreases |s|
  {
    StartsWith(s, pat) || (|s| > 0 && Includes(s[1..], pat))
  }

  /** A string shorter than the pattern cannot hold it. */
  lemma {:induction false} ShorterExcludes(s: string, pat: string)
    requires |s| < |pat|
    ensures !Includes(s, pat)
  {
    if |s| > 0 {
      ShorterExcludes(s[1..], pat);
    }
  }

  /** `gsub(pat, rep)` with a literal pattern: non-overlapping, left to right. */
  function ReplaceAll(s: string, pat: string, rep: string): string
    requires |pat| > 0
    decreases |s|
  {
    if |s| == 0 then ""
    else if StartsWith(s, pat) then rep + ReplaceAll(s[|pat|..], pat, rep)
    else [s[0]] + ReplaceAll(s[1..], pat, rep)
  }

  /** `sub(pat, rep)` with a literal pattern: only the first occurrence. */
  function SubFirst(s: string, pat: string, rep: string): string
    requires |pat| > 0
    decreases |s|
  {
    if |s| == 0 then ""
    else if StartsWith(s, pat) then rep + s[|pat|..]
    else [s[0]] + SubFirst(s[1..], pat, rep)
  }

  /** A string replaced by ReplaceAll is unchanged when it does not hold the pattern's first character. */
  lemma {:induction false} ReplaceAllAbsent(s: string, pat: string, rep: string)
    requires |pat| > 0
    requires forall i :: 0 <= i < |s| ==> s[i] != pat[0]
    ensures ReplaceAll(s, pat, rep) == s
    decreases |s|
  {
    if |s| > 0 {
      assert !StartsWith(s, pat) by { assert s[0] != pat[0]; }
      ReplaceAllAbsent(s[1..], pat, rep);
    }
  }

  /** ReplaceAll distributes over a prefix none of whose characters starts the pattern. */
  lemma {:induction false} ReplaceAllPrefix(p: string, s: string, pat: string, rep: string)
    requires |pat| > 0
    requires forall i :: 0 <= i < |p| ==> p[i] != pat[0]
    ensures ReplaceAll(p + s, pat, rep) == p + ReplaceAll(s, pat, rep)
    decreases |p|
  {
    if |p| > 0 {
      var t := p + s;
      assert t[0] == p[0];
      assert !StartsWith(t, pat) by { assert t[0] != pat[0]; }
      assert t[1..] == p[1..] + s;
      ReplaceAllPrefix(p[1..], s, pat, rep);
      assert ReplaceAll(t, pat, rep) == [p[0]] + ReplaceAll(p[1..] + s, pat, rep);
      assert p == [p[0]] + p[1..];
      assert [p[0]] + (p[1..] + ReplaceAll(s, pat, rep)) == p + ReplaceAll(s, pat, rep);
    } else {
      assert p + s == s;
    }
  }

  /** `sub` leaves a string without the pattern's first character alone. */
  lemma {:induction false} SubFirstAbsent(s: string, pat: string, rep: string)
    requires |pat| > 0
    requires forall i :: 0 <= i < |s| ==> s[i] != pat[0]
    ensures SubFirst(s, pat, rep) == s
    decreases |s|
  {
    if |s| > 0 {
      assert !StartsWith(s, pat) by { assert s[0] != pat[0]; }
      SubFirstAbsent(s[1..], pat, rep);
    }
  }

  /** `sub` of a one-character pattern replaces its first occurrence only. */
  lemma {:induction false} SubFirstAt(a: string, c: char, b: string, rep: string)
    requires forall i :: 0 <= i < |a| ==> a[i] != c
    ensures SubFirst(a + [c] + b, [c], rep) == a + rep + b
    decreases |a|
  {
    var t := a + [c] + b;
    if |a| == 0 {
      assert t == [c] + b;
      assert StartsWith(t, [c]);
    } else {
      assert !StartsWith(t, [c]) by { assert t[0] == a[0]; }
      assert t[1..] == a[1..] + [c] + b;
      SubFirstAt(a[1..], c, b, rep);
      assert a == [a[0]] + a[1..];
    }
  }

  /** The index of the first `c` in `s`, or `|s|` when there is none. */
  function IndexOf(s: string, c: char): (i: nat)
    ensures i <= |s|
    ensures i < |s| ==> s[i] == c
    ensures forall j :: 0 <= j < i ==> s[j] != c
  {
    if |s| == 0 then 0
    else if s[0] == c then 0
    else 1 + IndexOf(s[1..], c)
  }

  /** All the `sep`-separated fields of `s`, empty ones included. */
  function Fields(s: string, sep: char): (r: seq<string>)
    ensures |r| >= 1
    decreases |s|
  {
    var i := IndexOf(s, sep);
    if i == |s| then [s] else [s[..i]] + Fields(s[i + 1..], sep)
  }

  function DropTrailingEmpty(xs: seq<string>): (r: seq<string>)
    ensures |r| <= |xs| && r == xs[..|r|]
    ensures |r| > 0 ==> r[|r| - 1] != ""
    ensures forall i :: |r| <= i < |xs| ==> xs[i] == ""
  {
    if |xs| == 0 then []
    else if xs[|xs| - 1] == "" then DropTrailingEmpty(xs[..|xs| - 1])
    else xs
  }

  /** `String#split(sep)` for a one-character separator: trailing empty fields are dropped. */
  function Split(s: string, sep: char): seq<string> {
    DropTrailingEmpty(Fields(s, sep))
  }

  /** Splitting a join recovers the parts when no part holds the separator. */
  lemma {:induction false} FieldsOfJoin(parts: seq<string>, sep: char)
    requires |parts| >= 1
    requires forall k, i :: 0 <= k < |parts| && 0 <= i < |parts[k]| ==> parts[k][i] != sep
    ensures Fields(Join(parts, [sep]), sep) == parts
    decreases |parts|
  {
    if |parts| == 1 {
      assert IndexOf(parts[0], sep) == |parts[0]|;
    } else {
      var s := Join(parts, [sep]);
      var rest := Join(parts[1..], [sep]);
      assert s == parts[0] + [sep] + rest;
      assert IndexOf(s, sep) == |parts[0]| by {
        IndexOfAfter(parts[0], rest, sep);
      }
      assert s[..|parts[0]|] == parts[0];
      assert s[|parts[0]| + 1..] == rest;
      FieldsOfJoin(parts[1..], sep);
    }
  }

  lemma {:induction false} IndexOfAfter(a: string, b: string, c: char)
    requires forall i :: 0 <= i < |a| ==> a[i] != c
    ensures IndexOf(a + [c] + b, c) == |a|
    decreases |a|
  {
    if |a| > 0 {
      assert (a + [c] + b)[1..] == a[1..] + [c] + b;
      IndexOfAfter(a[1..], b, c);
    }
  }

  function DigitChar(d: nat): char
    requires d < 10
  {
    ('0' as int + d) as char
  }

  function DigitValue(c: char): nat
    requires IsDigit(c)
  {
    c as int - '0' as int
  }

  /** The decimal numeral of `n`, without leading zeros (`Integer#to_s`). */
  function NatToString(n: nat): (r: string)
    ensures |r| >= 1 && AllDigits(r)
    decreases n
  {
    if n < 10 then [DigitChar(n)] else NatToString(n / 10) + [DigitChar(n % 10)]
  }

  /** The value of a string of decimal digits. */
  function DigitsValue(ds: string): nat
    requires AllDigits(ds)
    decreases |ds|
  {
    if |ds| == 0 then 0 else 10 * DigitsValue(ds[..|ds| - 1]) + DigitValue(ds[|ds| - 1])
  }

  /** Reading back a numeral gives the number. */
  lemma {:induction false} DigitsValueOfNatToString(n: nat)
    ensures DigitsValue(NatToString(n)) == n
    decreases n
  {
    var s := NatToString(n);
    if n >= 10 {
      DigitsValueOfNatToString(n / 10);
      assert s[..|s| - 1] == NatToString(n / 10);
    }
  }

  /** `n` written with at least `width` digits, left-padded with zeros (`%02d`, `%04d`). */
  function PadNum(n: nat, width: nat): (r: string)
    ensures AllDigits(r)
    ensures |r| == if |NatToString(n)| < width then width else |NatToString(n)|
    ensures DigitsValue(r) == n
  {
    var s := NatToString(n);
    DigitsValueOfNatToString(n);
    if |s| < width then ZerosPrefix(width - |s|, s); Zeros(width - |s|) + s else s
  }

  function Zeros(k: nat): (r: string)
    ensures |r| == k && AllDigits(r)
  {
    if k == 0 then "" else "0" + Zeros(k - 1)
  }

  lemma {:induction false} ZerosPrefix(k: nat, s: string)
    requires AllDigits(s)
    ensures AllDigits(Zeros(k) + s)
    ensures DigitsValue(Zeros(k) + s) == DigitsValue(s)
    decreases |s|
  {
    var t := Zeros(k) + s;
    if |s| == 0 {
      ZerosValue(k);
      assert t == Zeros(k);
    } else {
      assert t[..|t| - 1] == Zeros(k) + s[..|s| - 1];
      ZerosPrefix(k, s[..|s| - 1]);
    }
  }

  lemma {:induction false} ZerosValue(k: nat)
    ensures DigitsValue(Zeros(k)) == 0
  {
    if k > 0 {
      var z := Zeros(k);
      assert z == Zeros(k - 1) + "0" by { ZerosSnoc(k); }
      assert z[..|z| - 1] == Zeros(k - 1);
      ZerosValue(k - 1);
    }
  }

  lemma {:induction false} ZerosSnoc(k: nat)
    requires k > 0
    ensures Zeros(k) == Zeros(k - 1) + "0"
  {
    if k > 1 { ZerosSnoc(k - 1); }
  }
}
