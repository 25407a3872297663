/**
 * The structure of the Higher-Level Review PDF (version 2): the main form
 * holds decision dates for at most 13 contestable issues, further issues
 * call for additional pages, and the mailing address is always left to the
 * address on file.
 */
module HlrStructure {
  import opened Wrappers
  import opened Json
  import opened Text

  const MaxIssuesOnMainForm: nat := 13

  const FormTitle: string := "200996_v2"

  /** A calendar date as `Date.parse` yields it. */
  datatype Date = Date(year: nat, month: nat, day: nat)

  /** The PDF field names `issue_decision_date_fields(index)` gives for one issue. */
  datatype DateFields = DateFields(month: string, day: string, year: string)

  /** `additional_pages?`: more issues than the main form holds. */
  predicate AdditionalPages(issues: seq<Json>) {
    |issues| > MaxIssuesOnMainForm
  }

  /** `take(13)`: the issues the main form shows, in order. */
  function MainFormIssues(issues: seq<Json>): (r: seq<Json>)
    ensures |r| <= MaxIssuesOnMainForm && |r| <= |issues| && r == issues[..|r|]
    ensures AdditionalPages(issues) <==> |r| < |issues|
  {
    if |issues| > MaxIssuesOnMainForm then issues[..MaxIssuesOnMainForm] else issues
  }

  /**
   * `Date.parse(issue['attributes']['decisionDate'])`: None whenever one of
   * the reads or the parse raises. Each `[]` reads as Ruby's does (a string
   * receiver answers the key or nil); `Date.parse` raises on anything but a
   * string. `parse` stands for `Date.parse` on a string.
   */
  function DecisionDate(issue: Json, parse: string -> Option<Date>): (r: Option<Date>)
    ensures !issue.JObject? && !issue.JStr? ==> r.None?
    ensures issue.JObject? && At(issue.fields, "attributes").JObject? ==>
      var date := At(At(issue.fields, "attributes").fields, "decisionDate");
      r == if date.JStr? then parse(date.s) else None
    ensures issue.JObject? && !At(issue.fields, "attributes").JObject? && !At(issue.fields, "attributes").JStr? ==> r.None?
  {
    var attributes := Index(issue, "attributes");
    if attributes.None? then None
    else
      var date := Index(attributes.value, "decisionDate");
      if date.Some? && date.value.JStr? then parse(date.value.s) else None
  }

  /**
   * A string issue never has a date: `issue['attributes']` is the string
   * `attributes` or nil, and neither yields a `decisionDate` string.
   */
  lemma StringIssueHasNoDate(s: string, parse: string -> Option<Date>)
    ensures DecisionDate(JStr(s), parse).None?
  {
    ShorterExcludes("attributes", "decisionDate");
  }

  /** `strftime('%m')`, `('%d')` and `('%Y')` written into the issue's three fields. */
  function WriteDate(options: seq<Field>, f: DateFields, d: Date): seq<Field> {
    Put(Put(Put(options, f.month, JStr(PadNum(d.month, 2))), f.day, JStr(PadNum(d.day, 2))), f.year, JStr(PadNum(d.year, 4)))
  }

  /** `fill_contestable_issues!` from issue `i` on; None when a date cannot be read. */
  function FillFrom(options: seq<Field>, issues: seq<Json>, i: nat, fields: nat -> DateFields, parse: string -> Option<Date>)
    : (r: Option<seq<Field>>)
    requires i <= |issues|
    ensures r.Some? <==> forall j :: i <= j < |issues| ==> DecisionDate(issues[j], parse).Some?
    decreases |issues| - i
  {
    if i == |issues| then Some(options)
    else
      var d := DecisionDate(issues[i], parse);
      if d.None? then None
      else FillFrom(WriteDate(options, fields(i), d.value), issues, i + 1, fields, parse)
  }

  /** `fill_contestable_issues!`: the options extended, in place, with each main-form issue's decision date. */
  method FillContestableIssues(options: seq<Field>, issues: seq<Json>, fields: nat -> DateFields, parse: string -> Option<Date>)
    returns (r: Option<seq<Field>>)
    ensures r == FillFrom(options, MainFormIssues(issues), 0, fields, parse)
  {
    var formIssues := MainFormIssues(issues);
    var opts := options;
    var i := 0;
    while i < |formIssues|
      invariant 0 <= i <= |formIssues|
      invariant FillFrom(opts, formIssues, i, fields, parse) == FillFrom(options, formIssues, 0, fields, parse)
    {
      var date := DecisionDate(formIssues[i], parse);
      if date.None? {
        return None;
      }
      var f := fields(i);
      opts := Put(opts, f.month, JStr(PadNum(date.value.month, 2)));
      opts := Put(opts, f.day, JStr(PadNum(date.value.day, 2)));
      opts := Put(opts, f.year, JStr(PadNum(date.value.year, 4)));
      i := i + 1;
    }
    return Some(opts);
  }

  /** The three field names of one issue. */
  function Names(f: DateFields): set<string> {
    {f.month, f.day, f.year}
  }

  /** Three names in the set means three different names. */
  lemma ThreeNames(f: DateFields)
    requires |Names(f)| == 3
    ensures f.month != f.day && f.month != f.year && f.day != f.year
  {
  }

  /** `k` is not among the three fields of any issue from `i` to `n`. */
  predicate NotDateFieldFrom(k: string, fields: nat -> DateFields, i: nat, n: nat) {
    forall j :: i <= j < n ==> k !in Names(fields(j))
  }

  /** Filling leaves every entry that is not a date field of a filled issue as it was. */
  lemma {:induction false} FillKeepsOther(options: seq<Field>, issues: seq<Json>, i: nat,
                                          fields: nat -> DateFields, parse: string -> Option<Date>, k: string)
    requires i <= |issues| && FillFrom(options, issues, i, fields, parse).Some?
    requires NotDateFieldFrom(k, fields, i, |issues|)
    ensures Has(FillFrom(options, issues, i, fields, parse).value, k) <==> Has(options, k)
    ensures At(FillFrom(options, issues, i, fields, parse).value, k) == At(options, k)
    decreases |issues| - i
  {
    if i < |issues| {
      var d := DecisionDate(issues[i], parse).value;
      var f := fields(i);
      var o1 := Put(options, f.month, JStr(PadNum(d.month, 2)));
      var o2 := Put(o1, f.day, JStr(PadNum(d.day, 2)));
      PutOther(options, f.month, JStr(PadNum(d.month, 2)), k);
      PutOther(o1, f.day, JStr(PadNum(d.day, 2)), k);
      PutOther(o2, f.year, JStr(PadNum(d.year, 4)), k);
      FillKeepsOther(WriteDate(options, f, d), issues, i + 1, fields, parse, k);
    }
  }

  /** The field names of different issues, and the three of one issue, are distinct. */
  predicate DistinctFields(fields: nat -> DateFields, n: nat) {
    (forall j :: 0 <= j < n ==> |Names(fields(j))| == 3) &&
    (forall a, b :: 0 <= a < b < n ==> Names(fields(a)) !! Names(fields(b)))
  }

  /** Every later issue's fields avoid issue `j`'s fields. */
  lemma LaterFieldsDiffer(fields: nat -> DateFields, n: nat, j: nat)
    requires DistinctFields(fields, n) && j < n
    ensures forall k :: k in Names(fields(j)) ==> NotDateFieldFrom(k, fields, j + 1, n)
  {
    forall k, b | k in Names(fields(j)) && j + 1 <= b < n
      ensures k !in Names(fields(b))
    {
      assert Names(fields(j)) !! Names(fields(b));
    }
  }

  /**
   * With distinct field names, the issue at index `j` leaves its decision
   * date as a 2-digit month, a 2-digit day and a 4-digit year in its own
   * three fields.
   */
  lemma {:induction false} FillWritesDate(options: seq<Field>, issues: seq<Json>, i: nat, j: nat,
                                          fields: nat -> DateFields, parse: string -> Option<Date>)
    requires i <= j < |issues| && FillFrom(options, issues, i, fields, parse).Some?
    requires DistinctFields(fields, |issues|)
    ensures DecisionDate(issues[j], parse).Some?
    ensures var d := DecisionDate(issues[j], parse).value;
      var r := FillFrom(options, issues, i, fields, parse).value;
      && At(r, fields(j).month) == JStr(PadNum(d.month, 2))
      && At(r, fields(j).day) == JStr(PadNum(d.day, 2))
      && At(r, fields(j).year) == JStr(PadNum(d.year, 4))
    decreases |issues| - i
  {
    var d := DecisionDate(issues[i], parse).value;
    var f := fields(i);
    var next := WriteDate(options, f, d);
    if i < j {
      FillWritesDate(next, issues, i + 1, j, fields, parse);
    } else {
      var o1 := Put(options, f.month, JStr(PadNum(d.month, 2)));
      var o2 := Put(o1, f.day, JStr(PadNum(d.day, 2)));
      ThreeNames(f);
      PutOther(o1, f.day, JStr(PadNum(d.day, 2)), f.month);
      PutOther(o2, f.year, JStr(PadNum(d.year, 4)), f.month);
      PutOther(o2, f.year, JStr(PadNum(d.year, 4)), f.day);
      LaterFieldsDiffer(fields, |issues|, j);
      FillKeepsOther(next, issues, i + 1, fields, parse, f.month);
      FillKeepsOther(next, issues, i + 1, fields, parse, f.day);
      FillKeepsOther(next, issues, i + 1, fields, parse, f.year);
    }
  }

  /** The PDF field names of the mailing address. */
  datatype AddressFields = AddressFields(street: string, unit: string, city: string, state: string,
                                         country: string, zip5: string, zip4: string)

  /** The fixed address entries of `form_fill`. */
  function AddressEntries(a: AddressFields): seq<Field> {
    [Field(a.street, JStr("USE ADDRESS ON FILE")), Field(a.unit, JStr("")), Field(a.city, JStr("")),
     Field(a.state, JStr("")), Field(a.country, JStr("")), Field(a.zip5, JStr("")), Field(a.zip4, JStr(""))]
  }

  /** With distinct field names, the street reads `USE ADDRESS ON FILE` and every other address field is empty. */
  lemma AddressOnFile(a: AddressFields)
    requires UniqueKeys(AddressEntries(a))
    ensures At(AddressEntries(a), a.street) == JStr("USE ADDRESS ON FILE")
    ensures forall k :: k in [a.unit, a.city, a.state, a.country, a.zip5, a.zip4] ==> At(AddressEntries(a), k) == JStr("")
  {
    var e := AddressEntries(a);
    AtEntry(e, 0); AtEntry(e, 1); AtEntry(e, 2); AtEntry(e, 3); AtEntry(e, 4); AtEntry(e, 5); AtEntry(e, 6);
  }

  /** `insert_overlaid_pages`: nothing is overlaid. */
  function InsertOverlaidPages(formFillPath: string): (r: string)
    ensures r == formFillPath
  {
    formFillPath
  }

  /** The structure for one review, with the memoized additional-pages document. */
  class Structure {
    const issues: seq<Json>
    var additionalPagesPdf: Option<nat>

    constructor(issues: seq<Json>)
      ensures this.issues == issues && additionalPagesPdf.None?
    {
      this.issues := issues;
      additionalPagesPdf := None;
    }

    /**
     * `add_additional_pages`: nil when the issues fit the main form;
     * otherwise the document made on the first call (`newDocument`), kept
     * and returned on every later one.
     */
    method AddAdditionalPages(newDocument: nat) returns (r: Option<nat>)
      modifies this
      ensures !AdditionalPages(issues) ==> r.None? && additionalPagesPdf == old(additionalPagesPdf)
      ensures AdditionalPages(issues) ==>
        r == additionalPagesPdf && additionalPagesPdf == (if old(additionalPagesPdf).Some? then old(additionalPagesPdf) else Some(newDocument))
    {
      if !AdditionalPages(issues) {
        return None;
      }
      if additionalPagesPdf.None? {
        additionalPagesPdf := Some(newDocument);
      }
      r := additionalPagesPdf;
    }
  }
}
