/**
 * The IVC CHAMPVA uploads controller: the rendered reply for a list of
 * upload statuses, the lookup of the form id from the `form_number`
 * parameter, and the attachment ids sent along with a submission (one id
 * per generated PDF copy, then the ids of the supporting documents).
 */
module IvcUploads {
  import opened Wrappers
  import opened Json
  import opened Text

  /** `FORM_NUMBER_MAP`. */
  const FormNumberMap: map<string, string> := map[
    "10-10D" := "vha_10_10d",
    "10-7959F-1" := "vha_10_7959f_1",
    "10-7959F-2" := "vha_10_7959f_2",
    "10-7959C" := "vha_10_7959c"
  ]

  /** What the file uploader hands back as its status: nil, one code or a list. */
  datatype StatusValue = NoStatus | One(code: int) | Many(codes: seq<int>)

  /** Ruby's `Kernel#Array`: nil is the empty list, a scalar is wrapped. */
  function AsArray(status: StatusValue): (r: seq<int>)
    ensures status.NoStatus? ==> r == []
    ensures status.One? ==> r == [status.code]
    ensures status.Many? ==> r == status.codes
  {
    match status
    case NoStatus => []
    case One(c) => [c]
    case Many(cs) => cs
  }

  predicate AllAre(statuses: seq<int>, code: int) {
    forall i :: 0 <= i < |statuses| ==> statuses[i] == code
  }

  function MessageJson(msg: Option<string>): Json {
    if msg.Some? then JStr(msg.value) else JNull
  }

  /** `build_json`: the reply rendered for the upload statuses. */
  function BuildJson(statuses: seq<int>, errorMessage: Option<string>): (r: seq<Field>)
    ensures UniqueKeys(r)
    ensures Has(r, "status")
  {
    if AllAre(statuses, 200) then [Field("status", JNum(200))]
    else if AllAre(statuses, 400) then
      [Field("error_message", MessageJson(errorMessage)), Field("status", JNum(400))]
    else [Field("error_message", JStr("Partial upload failure")), Field("status", JNum(206))]
  }

  /**
   * The reply says 200 exactly when every upload succeeded (so also for no
   * uploads), 400 exactly when there were uploads and all of them failed,
   * 206 otherwise; only a 200 reply carries no error message, and a 400
   * reply carries the uploader's message.
   */
  lemma BuildJsonStatus(statuses: seq<int>, errorMessage: Option<string>)
    ensures var r := BuildJson(statuses, errorMessage);
      && (At(r, "status") == JNum(200) <==> AllAre(statuses, 200))
      && (At(r, "status") == JNum(400) <==> |statuses| > 0 && AllAre(statuses, 400))
      && (At(r, "status") == JNum(206) <==> !AllAre(statuses, 200) && !AllAre(statuses, 400))
      && (Has(r, "error_message") <==> !AllAre(statuses, 200))
      && (At(r, "status") == JNum(400) ==> At(r, "error_message") == MessageJson(errorMessage))
      && (At(r, "status") == JNum(206) ==> At(r, "error_message") == JStr("Partial upload failure"))
  {
    if |statuses| > 0 && AllAre(statuses, 400) {
      assert statuses[0] != 200;
    }
  }

  /** `submit` renders the reply for the status wrapped into a list. */
  function SubmitReply(status: StatusValue, errorMessage: Option<string>): (r: seq<Field>)
    ensures status.NoStatus? ==> At(r, "status") == JNum(200)
    ensures status.One? ==>
      (At(r, "status") == JNum(200) <==> status.code == 200) &&
      (At(r, "status") == JNum(400) <==> status.code == 400)
  {
    BuildJsonStatus(AsArray(status), errorMessage);
    BuildJson(AsArray(status), errorMessage)
  }

  datatype FormIdError = MissingFormNumber

  /**
   * `get_form_id`: a missing `form_number` raises; otherwise the first `:`
   * is removed and the result looked up, an unknown number giving nil.
   */
  function GetFormId(formNumber: Option<string>): (r: Result<Option<string>, FormIdError>)
    ensures r.Err? <==> formNumber.None?
    ensures r.Ok? && r.value.Some? ==> r.value.value in FormNumberMap.Values
  {
    if formNumber.None? then Err(MissingFormNumber)
    else
      var key := SubFirst(formNumber.value, ":", "");
      if key in FormNumberMap then Ok(Some(FormNumberMap[key])) else Ok(None)
  }

  function Lookup(key: string): Option<string> {
    if key in FormNumberMap then Some(FormNumberMap[key]) else None
  }

  predicate NoColon(s: string) {
    forall i :: 0 <= i < |s| ==> s[i] != ':'
  }

  /** A number without a colon is looked up as given. */
  lemma GetFormIdPlain(s: string)
    requires NoColon(s)
    ensures GetFormId(Some(s)) == Ok(Lookup(s))
  {
    SubFirstAbsent(s, ":", "");
  }

  /** Only the first colon is dropped: `a:b` is looked up as `ab`, later colons stay. */
  lemma GetFormIdDropsFirstColon(a: string, b: string)
    requires NoColon(a)
    ensures GetFormId(Some(a + ":" + b)) == Ok(Lookup(a + b))
  {
    SubFirstAt(a, ':', b, "");
    assert a + "" + b == a + b;
  }

  /** `generate_attachment_ids(form_id, count)`: `count` copies of the form id. */
  function GenerateAttachmentIds(formId: string, count: nat): (r: seq<Json>)
    ensures |r| == count
    ensures forall i :: 0 <= i < |r| ==> r[i] == JStr(formId)
  {
    if count == 1 then [JStr(formId)] else seq(count, _ => JStr(formId))
  }

  /**
   * `supporting_document_ids`: the `attachment_id` of every supporting
   * document, in order, nil where a document has none; no `supporting_docs`
   * gives none. A value `pluck` cannot read (a non-empty hash, a scalar, a
   * list holding something other than a hash or a string) raises, which is
   * None here.
   */
  function SupportingDocumentIds(data: seq<Field>): (r: Option<seq<Json>>)
    ensures !Has(data, "supporting_docs") ==> r == Some([])
    ensures At(data, "supporting_docs").JArray? ==>
      (r.Some? <==> Indexable(At(data, "supporting_docs").items))
  {
    var docs := At(data, "supporting_docs");
    match docs
    case JNull => Some([])
    case JArray(items) => Pluck(items, "attachment_id")
    case JObject(fields) => if |fields| == 0 then Some([]) else None
    case _ => None
  }

  /** Every item answers `item[key]`: it is a hash or a string. */
  predicate Indexable(items: seq<Json>) {
    forall i :: 0 <= i < |items| ==> items[i].JObject? || items[i].JStr?
  }

  /**
   * `pluck(key)`, that is `map { |item| item[key] }`: a hash gives its value
   * for the key, a string gives the key when it holds it and nil otherwise;
   * any other item raises.
   */
  function Pluck(items: seq<Json>, key: string): (r: Option<seq<Json>>)
    ensures r.Some? <==> Indexable(items)
    ensures r.Some? ==> |r.value| == |items|
    ensures r.Some? ==> forall i :: 0 <= i < |items| ==> Some(r.value[i]) == Index(items[i], key)
  {
    if |items| == 0 then Some([])
    else
      var rest := Pluck(items[1..], key);
      var first := Index(items[0], key);
      if first.Some? && rest.Some? then Some([first.value] + rest.value)
      else None
  }

  /** A supporting document given as a bare string gives nil, unless the string holds the key itself. */
  lemma PluckString(s: string)
    ensures Pluck([JStr(s)], "attachment_id") == Some([if Includes(s, "attachment_id") then JStr("attachment_id") else JNull])
  {
    assert [JStr(s)][1..] == [];
    assert Pluck([], "attachment_id") == Some([]);
    var v := Index(JStr(s), "attachment_id").value;
    assert [v] + [] == [v];
  }

  /** The `ADDITIONAL_PDF_COUNT` and `ADDITIONAL_PDF_KEY` a form class may define. */
  datatype FormClass = FormClass(pdfCount: Option<nat>, pdfKey: Option<string>)

  function PdfCount(cls: FormClass): nat {
    if cls.pdfCount.Some? then cls.pdfCount.value else 1
  }

  function ApplicantKey(cls: FormClass): string {
    if cls.pdfKey.Some? then cls.pdfKey.value else "applicants"
  }

  /**
   * `parsed_form_data[applicant_key]&.count || 1`: absent counts as one
   * applicant, a list or a hash counts its entries (zero included, as 0 is
   * truthy in Ruby); `count` on anything else raises.
   */
  function ApplicantsCount(data: seq<Field>, key: string): (r: Option<nat>)
    ensures !Has(data, key) ==> r == Some(1)
  {
    match At(data, key)
    case JNull => Some(1)
    case JArray(items) => Some(|items|)
    case JObject(fields) => Some(|fields|)
    case _ => None
  }

  /**
   * The number of PDF copies: `applicants / count` rounded up when positive,
   * computed here in integers.
   */
  function FormCopies(applicants: nat, count: nat): (r: nat)
    requires count > 0
    ensures r * count >= applicants
    ensures r == 0 || (r - 1) * count < applicants
  {
    CeilDivision(applicants, count);
    (applicants + count - 1) / count
  }

  lemma CeilDivision(a: nat, c: nat)
    requires c > 0
    ensures ((a + c - 1) / c) * c >= a
    ensures (a + c - 1) / c == 0 || ((a + c - 1) / c - 1) * c < a
  {
    var q := (a + c - 1) / c;
    var m := (a + c - 1) % c;
    assert a + c - 1 == q * c + m;
    assert 0 <= m < c;
    assert q * c >= a by {
      assert q * c == a + c - 1 - m;
    }
    if q > 0 {
      assert (q - 1) * c == q * c - c;
    }
  }

  /** Why collecting the attachment ids raised. */
  datatype IdsError =
    | NoFormId            // `titleize` on a nil form id
    | UnreadableApplicants
    | ZeroPdfCount        // the float division gives Infinity or NaN, which cannot be rounded
    | UnreadableSupportingDocs

  /** The ids when everything could be read: the copies, then the documents, never empty. */
  function AttachmentIds(formId: string, copies: nat, docs: seq<Json>): (r: seq<Json>)
    ensures |r| >= 1
    ensures copies + |docs| > 0 ==> r == GenerateAttachmentIds(formId, copies) + docs
    ensures copies + |docs| == 0 ==> r == [JStr(formId)]
  {
    var ids := GenerateAttachmentIds(formId, copies) + docs;
    if |ids| == 0 then [JStr(formId)] else ids
  }

  /**
   * The attachment-id part of `get_attachment_ids_and_form`: the list is
   * built from the copies, extended with the supporting documents, and
   * replaced by the bare form id when it came out empty.
   */
  method GetAttachmentIds(formId: Option<string>, cls: FormClass, data: seq<Field>)
    returns (r: Result<seq<Json>, IdsError>)
    ensures formId.None? ==> r == Err(NoFormId)
    ensures formId.Some? && ApplicantsCount(data, ApplicantKey(cls)).None? ==> r == Err(UnreadableApplicants)
    ensures formId.Some? && ApplicantsCount(data, ApplicantKey(cls)).Some? && PdfCount(cls) == 0 ==>
      r == Err(ZeroPdfCount)
    ensures r.Ok? <==>
      formId.Some? && ApplicantsCount(data, ApplicantKey(cls)).Some? && PdfCount(cls) > 0 &&
      SupportingDocumentIds(data).Some?
    ensures r.Ok? ==> |r.value| >= 1
    ensures r.Ok? ==>
      r.value == AttachmentIds(formId.value,
        FormCopies(ApplicantsCount(data, ApplicantKey(cls)).value, PdfCount(cls)),
        SupportingDocumentIds(data).value)
  {
    if formId.None? {
      return Err(NoFormId);
    }
    var applicants := ApplicantsCount(data, ApplicantKey(cls));
    if applicants.None? {
      return Err(UnreadableApplicants);
    }
    var count := PdfCount(cls);
    if count == 0 {
      return Err(ZeroPdfCount);
    }
    var copies := FormCopies(applicants.value, count);
    var ids := GenerateAttachmentIds(formId.value, copies);
    var docs := SupportingDocumentIds(data);
    if docs.None? {
      return Err(UnreadableSupportingDocs);
    }
    ids := ids + docs.value;
    if |ids| == 0 {
      ids := [JStr(formId.value)];
    }
    return Ok(ids);
  }

  /**
   * The ids start with one copy of the form id per PDF and end with the
   * supporting documents' ids in their order.
   */
  lemma AttachmentIdsLayout(formId: string, copies: nat, docs: seq<Json>)
    requires copies + |docs| > 0
    ensures |AttachmentIds(formId, copies, docs)| == copies + |docs|
    ensures forall i :: 0 <= i < copies ==> AttachmentIds(formId, copies, docs)[i] == JStr(formId)
    ensures AttachmentIds(formId, copies, docs)[copies..] == docs
  {
    var r := AttachmentIds(formId, copies, docs);
    assert r == GenerateAttachmentIds(formId, copies) + docs;
  }
}
