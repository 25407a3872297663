/**
 * The supplemental-claim status reconciler
 * (`DecisionReview::SavedClaimScStatusUpdaterJob`).
 *
 * One run walks the open claims (no delete date) oldest first. For each it
 * fetches the claim's status, the status of every evidence upload and, when
 * 4142 tracking is on, the status of every open secondary form (updating those
 * rows as it goes); it stores the fetched attributes plus the upload list as
 * the claim's metadata and sets the claim's delete date only when the claim,
 * all its uploads and all its secondary forms are successful. Metrics and log
 * lines are an appended event list. An error raised while one claim is
 * processed is counted and the run goes on with the next claim.
 *
 * The pure functions below (AfterClaim, AfterRun, AfterPerform, ...) give the
 * new tables as a function of the old ones; the class StatusUpdaterJob runs the
 * same steps with loops over its tables and is proved to match them; the
 * lemmas state what the source promises about those functions.
 */
module ScStatusUpdater {
  import opened Wrappers
  import opened Json

  /** RETENTION_PERIOD, 59 days, in seconds. */
  const RetentionPeriod: int := 59 * 24 * 60 * 60
  const SuccessfulStatus: seq<string> := ["complete"]
  const ErrorStatus: string := "error"
  const UploadSuccessfulStatus: seq<string> := ["vbms"]
  const AttributesToStore: seq<string> := ["status", "detail", "createDate", "updateDate"]

  /** `SUCCESSFUL_STATUS.include?(status)`. */
  predicate IsSuccessful(status: Json) {
    status.JStr? && status.s in SuccessfulStatus
  }

  /** `UPLOAD_SUCCESSFUL_STATUS.include?(status)`. */
  predicate IsUploadSuccessful(status: Json) {
    status.JStr? && status.s in UploadSuccessfulStatus
  }

  /**
   * A `SavedClaim::SupplementalClaim` row. The JSON `metadata` column is kept
   * decoded: nil, or the hash it holds.
   */
  datatype ClaimRow = ClaimRow(
    guid: string,
    createdAt: int,
    metadata: Option<seq<Field>>,
    metadataUpdatedAt: Option<int>,
    deleteDate: Option<int>)

  /** A secondary (4142) appeal form row; `status` is its decoded JSON status column. */
  datatype FormRow = FormRow(
    guid: string,
    appealUuid: string,
    status: Option<seq<Field>>,
    statusUpdatedAt: Option<int>,
    deleteDate: Option<int>)

  /** The tracking service's answer for one uuid: its `data.attributes` hash, or a raised error. */
  datatype Fetch = Fetched(attributes: seq<Field>) | FetchFailed

  /** The tags of a `silent_failure` increment. */
  datatype Channel = FormChannel | SecondaryFormChannel | EvidenceChannel

  /** One StatsD increment, with the identifiers its log line carries. */
  datatype Event =
    | ProcessingRecords(count: nat)
    | DeleteDateUpdate(guid: string)
    | FormStatus(guid: string, status: Json)
    | SecondaryFormStatus(formGuid: string, status: Json)
    | SecondaryFormDeleteDateUpdate(formGuid: string)
    | UploadStatus(guid: string, uploadId: Json, status: Json)
    | SilentFailure(channel: Channel, guid: string)
    | ClaimError(guid: string)

  /**
   * Everything a run reads but does not write: the two feature flags, the
   * clock, the `AppealSubmission` rows (by submitted appeal uuid, the
   * lighthouse ids of their uploads) and the tracking service.
   */
  datatype Env = Env(
    jobEnabled: bool,
    track4142: bool,
    now: int,
    appeals: map<string, seq<string>>,
    fetchClaim: string -> Fetch,
    fetchUpload: string -> Fetch)

  /** The tables a run writes, and the event log. */
  datatype Tables = Tables(claims: seq<ClaimRow>, forms: seq<FormRow>, events: seq<Event>)

  // ---------------------------------------------------------------------------
  // The open-claim query: `where(delete_date: nil).order(created_at: :asc)`

  predicate InRange(r: seq<nat>, n: nat) {
    forall k :: 0 <= k < |r| ==> r[k] < n
  }

  predicate Distinct(r: seq<nat>) {
    forall a, b :: 0 <= a < b < |r| ==> r[a] != r[b]
  }

  predicate SortedByCreation(claims: seq<ClaimRow>, r: seq<nat>)
    requires InRange(r, |claims|)
  {
    forall a, b :: 0 <= a < b < |r| ==> claims[r[a]].createdAt <= claims[r[b]].createdAt
  }

  /** The indices below `n` of rows without a delete date, in table order. */
  function OpenIndices(claims: seq<ClaimRow>, n: nat): (r: seq<nat>)
    requires n <= |claims|
    ensures InRange(r, n) && Distinct(r)
    ensures forall i :: 0 <= i < n ==> (i in r <==> claims[i].deleteDate.None?)
  {
    if n == 0 then []
    else OpenIndices(claims, n - 1) + (if claims[n - 1].deleteDate.None? then [n - 1] else [])
  }

  /** Inserts `x` after every index whose row is not created later (a stable insertion). */
  function InsertByCreation(claims: seq<ClaimRow>, x: nat, s: seq<nat>): (r: seq<nat>)
    requires x < |claims| && InRange(s, |claims|)
    ensures |r| == |s| + 1 && InRange(r, |claims|)
    ensures forall y :: y in r <==> y == x || y in s
  {
    if |s| == 0 then [x]
    else if claims[x].createdAt < claims[s[0]].createdAt then [x] + s
    else [s[0]] + InsertByCreation(claims, x, s[1..])
  }

  lemma {:induction false} InsertKeepsSorted(claims: seq<ClaimRow>, x: nat, s: seq<nat>)
    requires x < |claims| && InRange(s, |claims|) && SortedByCreation(claims, s)
    ensures SortedByCreation(claims, InsertByCreation(claims, x, s))
  {
    if |s| > 0 && claims[s[0]].createdAt <= claims[x].createdAt {
      var rest := InsertByCreation(claims, x, s[1..]);
      InsertKeepsSorted(claims, x, s[1..]);
      forall k | 0 <= k < |rest| ensures claims[s[0]].createdAt <= claims[rest[k]].createdAt {
        if rest[k] != x {
          assert rest[k] in rest;
          var j :| 0 <= j < |s[1..]| && s[1..][j] == rest[k];
          assert s[j + 1] == rest[k];
        }
      }
    }
  }

  lemma {:induction false} InsertKeepsDistinct(claims: seq<ClaimRow>, x: nat, s: seq<nat>)
    requires x < |claims| && InRange(s, |claims|) && Distinct(s) && x !in s
    ensures Distinct(InsertByCreation(claims, x, s))
  {
    if |s| > 0 && claims[s[0]].createdAt <= claims[x].createdAt {
      var rest := InsertByCreation(claims, x, s[1..]);
      assert x !in s[1..];
      InsertKeepsDistinct(claims, x, s[1..]);
      forall k | 0 <= k < |rest| ensures s[0] != rest[k] {
        if rest[k] != x {
          assert rest[k] in rest;
          var j :| 0 <= j < |s[1..]| && s[1..][j] == rest[k];
          assert s[j + 1] == rest[k];
        }
      }
    }
  }

  function SortByCreation(claims: seq<ClaimRow>, s: seq<nat>): (r: seq<nat>)
    requires InRange(s, |claims|)
    ensures |r| == |s| && InRange(r, |claims|)
    ensures forall y :: y in r <==> y in s
    ensures SortedByCreation(claims, r)
    ensures Distinct(s) ==> Distinct(r)
  {
    if |s| == 0 then []
    else
      var last := s[|s| - 1];
      var front := s[..|s| - 1];
      assert s == front + [last];
      var sorted := SortByCreation(claims, front);
      InsertKeepsSorted(claims, last, sorted);
      if Distinct(s) then
        assert Distinct(front) && last !in front by {
          forall j | 0 <= j < |front| ensures front[j] != last {
            assert s[j] != s[|s| - 1];
          }
        }
        InsertKeepsDistinct(claims, last, sorted);
        InsertByCreation(claims, last, sorted)
      else InsertByCreation(claims, last, sorted)
  }

  /** `supplemental_claims`: exactly the open rows, each once, oldest first. */
  function OpenClaims(claims: seq<ClaimRow>): (r: seq<nat>)
    ensures InRange(r, |claims|) && Distinct(r)
    ensures forall i :: 0 <= i < |claims| ==> (i in r <==> claims[i].deleteDate.None?)
    ensures SortedByCreation(claims, r)
  {
    SortByCreation(claims, OpenIndices(claims, |claims|))
  }

  // ---------------------------------------------------------------------------
  // Evidence uploads

  /** The lighthouse ids of the uploads of the appeal submission `guid`, or none when there is no submission. */
  function UploadIdsOf(env: Env, guid: string): seq<string> {
    if guid in env.appeals then env.appeals[guid] else []
  }

  /** One stored upload entry: the fetched attributes sliced to ATTRIBUTES_TO_STORE, merged with its `id`. */
  function UploadEntry(attributes: seq<Field>, id: string): seq<Field> {
    Put(Slice(attributes, AttributesToStore), "id", JStr(id))
  }

  /** `get_evidence_uploads_statuses`: one entry per upload id, in order; None when a fetch raises. */
  function UploadsStatuses(ids: seq<string>, fetch: string -> Fetch): (r: Option<seq<seq<Field>>>)
    ensures r.Some? ==> |r.value| == |ids|
  {
    if |ids| == 0 then Some([])
    else
      match UploadsStatuses(ids[..|ids| - 1], fetch)
      case None => None
      case Some(entries) =>
        match fetch(ids[|ids| - 1])
        case FetchFailed => None
        case Fetched(a) => Some(entries + [UploadEntry(a, ids[|ids| - 1])])
  }

  /** The upload list as it is stored under `uploads`. */
  function UploadsJson(uploads: seq<seq<Field>>): (r: Json)
    ensures r.JArray? && |r.items| == |uploads|
    ensures forall k :: 0 <= k < |uploads| ==> r.items[k] == JObject(uploads[k])
  {
    JArray(seq(|uploads|, k requires 0 <= k < |uploads| => JObject(uploads[k])))
  }

  /** The hashes of a decoded JSON array; None (a raise) when an entry is not a hash. */
  function AsHashes(items: seq<Json>): (r: Option<seq<seq<Field>>>)
    ensures r.Some? ==> |r.value| == |items| && forall k :: 0 <= k < |items| ==> items[k] == JObject(r.value[k])
  {
    if |items| == 0 then Some([])
    else
      match AsHashes(items[..|items| - 1])
      case None => None
      case Some(hs) =>
        if items[|items| - 1].JObject? then Some(hs + [items[|items| - 1].fields]) else None
  }

  /**
   * The upload list of stored metadata, as `extract_uploads_metadata` reads it:
   * none for nil metadata, a missing `uploads` key or an empty hash under it
   * (`index_by` over `{}`); None (a raise) when `uploads` is otherwise not an
   * array of hashes.
   */
  function ExtractUploads(metadata: Option<seq<Field>>): Option<seq<seq<Field>>> {
    if metadata.None? || !Has(metadata.value, "uploads") then Some([])
    else
      match At(metadata.value, "uploads")
      case JArray(items) => AsHashes(items)
      case JObject(fields) => if |fields| == 0 then Some([]) else None
      case _ => None
  }

  /**
   * Nil metadata and an empty `uploads` hash give no uploads; an array that
   * reads gives its hashes entry for entry.
   */
  lemma ExtractUploadsCases(metadata: Option<seq<Field>>)
    ensures metadata.None? ==> ExtractUploads(metadata) == Some([])
    ensures metadata.Some? && At(metadata.value, "uploads") == JObject([]) ==> ExtractUploads(metadata) == Some([])
    ensures var r := ExtractUploads(metadata);
      r.Some? && metadata.Some? && At(metadata.value, "uploads").JArray? ==>
      var items := At(metadata.value, "uploads").items;
      |r.value| == |items| && forall k :: 0 <= k < |items| ==> items[k] == JObject(r.value[k])
  {
  }

  /** `old_uploads_metadata.dig(upload_id, 'status')`: `index_by` keeps the last entry with that id. */
  function OldUploadStatus(previous: seq<seq<Field>>, id: Json): Json {
    if |previous| == 0 then JNull
    else if At(previous[|previous| - 1], "id") == id then At(previous[|previous| - 1], "status")
    else OldUploadStatus(previous[..|previous| - 1], id)
  }

  /** The upload aggregate of `check_attachments_status`. */
  function AllUploadsSuccessful(uploads: seq<seq<Field>>): bool {
    if |uploads| == 0 then true
    else AllUploadsSuccessful(uploads[..|uploads| - 1]) && IsUploadSuccessful(At(uploads[|uploads| - 1], "status"))
  }

  /** The events `check_attachments_status` emits for one upload: none when its status did not change. */
  function UploadEvents(guid: string, previous: seq<seq<Field>>, upload: seq<Field>): seq<Event> {
    var status := At(upload, "status");
    var id := At(upload, "id");
    if OldUploadStatus(previous, id) == status then []
    else (if status == JStr(ErrorStatus) then [SilentFailure(EvidenceChannel, guid)] else [])
         + [UploadStatus(guid, id, status)]
  }

  function AttachmentEvents(guid: string, previous: seq<seq<Field>>, uploads: seq<seq<Field>>): seq<Event> {
    if |uploads| == 0 then []
    else AttachmentEvents(guid, previous, uploads[..|uploads| - 1]) + UploadEvents(guid, previous, uploads[|uploads| - 1])
  }

  // ---------------------------------------------------------------------------
  // Secondary forms

  /** `JSON.parse(column || '{}')['status']`. */
  function StoredStatus(column: Option<seq<Field>>): Json {
    if column.None? then JNull else At(column.value, "status")
  }

  /** The open forms (no delete date) among the first `n` rows of appeal submission `appeal`, in table order. */
  function OpenFormsUpTo(forms: seq<FormRow>, appeal: string, n: nat): (r: seq<nat>)
    requires n <= |forms|
    ensures InRange(r, n) && Distinct(r)
    ensures forall i :: 0 <= i < n ==> (i in r <==> forms[i].appealUuid == appeal && forms[i].deleteDate.None?)
  {
    if n == 0 then []
    else
      OpenFormsUpTo(forms, appeal, n - 1)
      + (if forms[n - 1].appealUuid == appeal && forms[n - 1].deleteDate.None? then [n - 1] else [])
  }

  /** `secondary_appeal_forms` filtered to `delete_date.nil?`; none when there is no appeal submission. */
  function OpenFormsOf(forms: seq<FormRow>, appeal: string, env: Env): (r: seq<nat>)
    ensures InRange(r, |forms|) && Distinct(r)
  {
    if appeal in env.appeals then OpenFormsUpTo(forms, appeal, |forms|) else []
  }

  /** `handle_secondary_form_status_metrics_and_logging`. */
  function SecondaryFormEvents(form: FormRow, status: Json): seq<Event> {
    if StoredStatus(form.status) == status then []
    else (if status == JStr(ErrorStatus) then [SilentFailure(SecondaryFormChannel, form.guid)] else [])
         + [SecondaryFormStatus(form.guid, status)]
  }

  /** The row `update_secondary_form_status` writes: the sliced attributes, and a delete date only for a successful status. */
  function UpdatedForm(form: FormRow, attributes: seq<Field>, now: int): FormRow {
    var ok := IsUploadSuccessful(At(attributes, "status"));
    form.(status := Some(attributes), statusUpdatedAt := Some(now),
          deleteDate := if ok then Some(now + RetentionPeriod) else None)
  }

  /** The state of `get_and_update_secondary_form_statuses` part-way through its loop. */
  datatype Pass = Pass(forms: seq<FormRow>, events: seq<Event>, allComplete: bool, raised: bool)

  function SecondaryStep(p: Pass, fi: nat, env: Env): (q: Pass)
    requires fi < |p.forms|
    ensures |q.forms| == |p.forms|
  {
    var form := p.forms[fi];
    match env.fetchUpload(form.guid)
    case FetchFailed => p.(raised := true)
    case Fetched(a) =>
      var attributes := Slice(a, AttributesToStore);
      var status := At(attributes, "status");
      var ok := IsUploadSuccessful(status);
      Pass(p.forms[fi := UpdatedForm(form, attributes, env.now)],
           p.events + SecondaryFormEvents(form, status)
           + (if ok then [SecondaryFormDeleteDateUpdate(form.guid)] else []),
           p.allComplete && ok,
           false)
  }

  /** The loop over the forms `idxs`; it stops at the first raise, keeping the rows already updated. */
  function SecondaryLoop(p: Pass, idxs: seq<nat>, env: Env): (q: Pass)
    requires InRange(idxs, |p.forms|)
    ensures |q.forms| == |p.forms|
  {
    if |idxs| == 0 then p
    else
      var q := SecondaryLoop(p, idxs[..|idxs| - 1], env);
      if q.raised then q else SecondaryStep(q, idxs[|idxs| - 1], env)
  }

  /** `get_and_update_secondary_form_statuses`: vacuously complete when 4142 tracking is off. */
  function SecondaryForms(t: Tables, guid: string, env: Env): (q: Pass)
    ensures |q.forms| == |t.forms|
  {
    var start := Pass(t.forms, t.events, true, false);
    if !env.track4142 then start else SecondaryLoop(start, OpenFormsOf(t.forms, guid, env), env)
  }

  // ---------------------------------------------------------------------------
  // One claim, one run

  /** `handle_form_status_metrics_and_logging`: nothing when the stored status equals the new one. */
  function FormStatusEvents(sc: ClaimRow, status: Json): seq<Event> {
    if StoredStatus(sc.metadata) == status then []
    else (if status == JStr(ErrorStatus) then [SilentFailure(FormChannel, sc.guid)] else [])
         + [FormStatus(sc.guid, status)]
  }

  /** The metadata `sc.update` stores: the fetched attributes with `uploads` set to the upload list. */
  function StoredMetadata(attributes: seq<Field>, uploads: seq<seq<Field>>): seq<Field> {
    Put(attributes, "uploads", UploadsJson(uploads))
  }

  /** The rescue branch: count the error, leave the claim row as it is. */
  function Rescue(t: Tables, guid: string): Tables {
    t.(events := t.events + [ClaimError(guid)])
  }

  /** The body of the `supplemental_claims.each` loop for the row at `idx`. */
  function AfterClaim(t: Tables, idx: nat, env: Env): (r: Tables)
    requires idx < |t.claims|
    ensures |r.claims| == |t.claims| && |r.forms| == |t.forms|
  {
    var sc := t.claims[idx];
    match env.fetchClaim(sc.guid)
    case FetchFailed => Rescue(t, sc.guid)
    case Fetched(attributes) =>
      var status := At(attributes, "status");
      match UploadsStatuses(UploadIdsOf(env, sc.guid), env.fetchUpload)
      case None => Rescue(t, sc.guid)
      case Some(uploads) =>
        var p := SecondaryForms(t, sc.guid, env);
        var t1 := Tables(t.claims, p.forms, p.events);
        if p.raised then Rescue(t1, sc.guid)
        else
          match ExtractUploads(sc.metadata)
          case None => Rescue(t1, sc.guid)
          case Some(previous) =>
            var complete := AllUploadsSuccessful(uploads) && p.allComplete && IsSuccessful(status);
            var row := sc.(metadata := Some(StoredMetadata(attributes, uploads)),
                           metadataUpdatedAt := Some(env.now),
                           deleteDate := if complete then Some(env.now + RetentionPeriod) else sc.deleteDate);
            Tables(t.claims[idx := row], p.forms,
                   p.events + AttachmentEvents(sc.guid, previous, uploads)
                   + (if complete then [DeleteDateUpdate(sc.guid)] else FormStatusEvents(sc, status)))
  }

  /** The claims at `order`, processed one after another. */
  function AfterRun(t: Tables, order: seq<nat>, env: Env): (r: Tables)
    requires InRange(order, |t.claims|)
    ensures |r.claims| == |t.claims| && |r.forms| == |t.forms|
  {
    if |order| == 0 then t
    else AfterClaim(AfterRun(t, order[..|order| - 1], env), order[|order| - 1], env)
  }

  /** `perform`. */
  function AfterPerform(t: Tables, env: Env): Tables {
    var open := OpenClaims(t.claims);
    if !env.jobEnabled || |open| == 0 then t
    else AfterRun(t.(events := t.events + [ProcessingRecords(|open|)]), open, env)
  }

  // ---------------------------------------------------------------------------
  // The job over its tables

  /** Retention is only ever set on a claim whose stored status and uploads are all successful. */
  predicate RecordsSuccess(row: ClaimRow) {
    && row.metadata.Some?
    && IsSuccessful(At(row.metadata.value, "status"))
    && ExtractUploads(row.metadata).Some?
    && AllUploadsSuccessful(ExtractUploads(row.metadata).value)
  }

  predicate ClaimsRetentionInvariant(claims: seq<ClaimRow>) {
    forall i :: 0 <= i < |claims| && claims[i].deleteDate.Some? ==> RecordsSuccess(claims[i])
  }

  /** A secondary form gets a delete date only with a successful stored status. */
  predicate FormsRetentionInvariant(forms: seq<FormRow>) {
    forall i :: 0 <= i < |forms| && forms[i].deleteDate.Some? ==> IsUploadSuccessful(StoredStatus(forms[i].status))
  }

  class StatusUpdaterJob {
    var claims: seq<ClaimRow>
    var forms: seq<FormRow>
    var events: seq<Event>

    ghost predicate Valid()
      reads this
    {
      ClaimsRetentionInvariant(claims) && FormsRetentionInvariant(forms)
    }

    function State(): Tables
      reads this
    {
      Tables(claims, forms, events)
    }

    constructor (claims: seq<ClaimRow>, forms: seq<FormRow>)
      requires ClaimsRetentionInvariant(claims) && FormsRetentionInvariant(forms)
      ensures Valid() && State() == Tables(claims, forms, [])
    {
      this.claims := claims;
      this.forms := forms;
      this.events := [];
    }

    method Perform(env: Env)
      requires Valid()
      modifies this
      ensures Valid()
      ensures State() == AfterPerform(old(State()), env)
    {
      if !env.jobEnabled {
        return;
      }
      var open := OpenClaims(claims);
      if |open| == 0 {
        return;
      }
      events := events + [ProcessingRecords(|open|)];
      ghost var start := State();
      var i := 0;
      while i < |open|
        invariant 0 <= i <= |open|
        invariant |claims| == |start.claims|
        invariant State() == AfterRun(start, open[..i], env)
        invariant Valid()
        invariant forall k :: i <= k < |open| ==> claims[open[k]].deleteDate.None?
      {
        AfterRunSnoc(start, open, i, env);
        AfterClaimFrame(State(), open[i], env);
        ProcessClaim(open[i], env);
        i := i + 1;
      }
      assert open[..|open|] == open;
    }

    /** One iteration of the `supplemental_claims.each` loop, rescue included. */
    method ProcessClaim(idx: nat, env: Env)
      requires Valid()
      requires idx < |claims| && claims[idx].deleteDate.None?
      modifies this
      ensures Valid()
      ensures State() == AfterClaim(old(State()), idx, env)
    {
      AfterClaimKeepsInvariants(State(), idx, env);
      var sc := claims[idx];
      var fetched := env.fetchClaim(sc.guid);
      if fetched.FetchFailed? {
        events := events + [ClaimError(sc.guid)];
        return;
      }
      var attributes := fetched.attributes;
      var status := At(attributes, "status");
      var uploads := GetEvidenceUploadsStatuses(sc.guid, env);
      if uploads.None? {
        events := events + [ClaimError(sc.guid)];
        return;
      }
      var secondaryFormsComplete, raised := GetAndUpdateSecondaryFormStatuses(sc.guid, env);
      if raised {
        events := events + [ClaimError(sc.guid)];
        return;
      }
      var timestamp := env.now;
      var complete, unreadable := SavedClaimComplete(sc, status, uploads.value, secondaryFormsComplete);
      if unreadable {
        events := events + [ClaimError(sc.guid)];
        return;
      }
      var deleteDate := sc.deleteDate;
      if complete {
        deleteDate := Some(timestamp + RetentionPeriod);
        events := events + [DeleteDateUpdate(sc.guid)];
      } else {
        HandleFormStatusMetricsAndLogging(sc, status);
      }
      claims := claims[idx := sc.(metadata := Some(StoredMetadata(attributes, uploads.value)),
                                  metadataUpdatedAt := Some(timestamp),
                                  deleteDate := deleteDate)];
    }

    /** `get_evidence_uploads_statuses`; None when a fetch raises. */
    method GetEvidenceUploadsStatuses(guid: string, env: Env) returns (result: Option<seq<seq<Field>>>)
      ensures result == UploadsStatuses(UploadIdsOf(env, guid), env.fetchUpload)
    {
      var attachmentIds := UploadIdsOf(env, guid);
      var entries: seq<seq<Field>> := [];
      var i := 0;
      while i < |attachmentIds|
        invariant 0 <= i <= |attachmentIds|
        invariant UploadsStatuses(attachmentIds[..i], env.fetchUpload) == Some(entries)
      {
        var uuid := attachmentIds[i];
        var response := env.fetchUpload(uuid);
        assert attachmentIds[..i + 1][..i] == attachmentIds[..i];
        if response.FetchFailed? {
          FailedUploadStops(attachmentIds, i + 1, |attachmentIds|, env.fetchUpload);
          assert attachmentIds[..|attachmentIds|] == attachmentIds;
          return None;
        }
        entries := entries + [UploadEntry(response.attributes, uuid)];
        i := i + 1;
      }
      assert attachmentIds[..i] == attachmentIds;
      result := Some(entries);
    }

    /** `get_and_update_secondary_form_statuses`; `raised` when a fetch raised part-way. */
    method GetAndUpdateSecondaryFormStatuses(guid: string, env: Env) returns (allComplete: bool, raised: bool)
      requires FormsRetentionInvariant(forms)
      modifies this`forms, this`events
      ensures FormsRetentionInvariant(forms)
      ensures Pass(forms, events, allComplete, raised) == SecondaryForms(old(State()), guid, env)
    {
      allComplete, raised := true, false;
      if !env.track4142 {
        return;
      }
      var secondaryForms := OpenFormsOf(forms, guid, env);
      ghost var start := Pass(forms, events, true, false);
      var i := 0;
      while i < |secondaryForms|
        invariant 0 <= i <= |secondaryForms|
        invariant |forms| == |start.forms|
        invariant FormsRetentionInvariant(forms)
        invariant SecondaryLoop(start, secondaryForms[..i], env) == Pass(forms, events, allComplete, false)
      {
        SecondaryLoopSnoc(start, secondaryForms, i, env);
        allComplete, raised := UpdateOneSecondaryForm(secondaryForms[i], allComplete, env);
        if raised {
          RaisedLoopStops(start, secondaryForms, i + 1, env);
          return;
        }
        i := i + 1;
      }
      assert secondaryForms[..i] == secondaryForms;
    }

    /** The body of the `secondary_forms.each` loop for the form at `fi`. */
    method UpdateOneSecondaryForm(fi: nat, allCompleteSoFar: bool, env: Env) returns (allComplete: bool, raised: bool)
      requires fi < |forms| && FormsRetentionInvariant(forms)
      modifies this`forms, this`events
      ensures FormsRetentionInvariant(forms)
      ensures Pass(forms, events, allComplete, raised) == SecondaryStep(Pass(old(forms), old(events), allCompleteSoFar, false), fi, env)
    {
      allComplete, raised := allCompleteSoFar, false;
      var form := forms[fi];
      var response := env.fetchUpload(form.guid);
      if response.FetchFailed? {
        raised := true;
        return;
      }
      var attributes := Slice(response.attributes, AttributesToStore);
      if !IsUploadSuccessful(At(attributes, "status")) {
        allComplete := false;
      }
      HandleSecondaryFormStatusMetricsAndLogging(form, At(attributes, "status"));
      UpdateSecondaryFormStatus(fi, attributes, env.now);
    }

    method HandleSecondaryFormStatusMetricsAndLogging(form: FormRow, status: Json)
      modifies this`events
      ensures events == old(events) + SecondaryFormEvents(form, status)
    {
      if StoredStatus(form.status) == status {
        return;
      }
      if status == JStr(ErrorStatus) {
        events := events + [SilentFailure(SecondaryFormChannel, form.guid)];
      }
      events := events + [SecondaryFormStatus(form.guid, status)];
    }

    method UpdateSecondaryFormStatus(fi: nat, attributes: seq<Field>, now: int)
      requires fi < |forms| && FormsRetentionInvariant(forms)
      modifies this`forms, this`events
      ensures FormsRetentionInvariant(forms)
      ensures forms == old(forms)[fi := UpdatedForm(old(forms)[fi], attributes, now)]
      ensures events == old(events)
        + (if IsUploadSuccessful(At(attributes, "status")) then [SecondaryFormDeleteDateUpdate(old(forms)[fi].guid)] else [])
    {
      var form := forms[fi];
      var deleteDate: Option<int>;
      if IsUploadSuccessful(At(attributes, "status")) {
        events := events + [SecondaryFormDeleteDateUpdate(form.guid)];
        deleteDate := Some(now + RetentionPeriod);
      } else {
        deleteDate := None;
      }
      forms := forms[fi := form.(status := Some(attributes), statusUpdatedAt := Some(now), deleteDate := deleteDate)];
    }

    /** `check_attachments_status`; `unreadable` when the stored upload list cannot be indexed. */
    method CheckAttachmentsStatus(sc: ClaimRow, uploads: seq<seq<Field>>) returns (result: bool, unreadable: bool)
      modifies this`events
      ensures unreadable <==> ExtractUploads(sc.metadata).None?
      ensures unreadable ==> events == old(events)
      ensures !unreadable ==> result == AllUploadsSuccessful(uploads)
      ensures !unreadable ==> events == old(events) + AttachmentEvents(sc.guid, ExtractUploads(sc.metadata).value, uploads)
    {
      result, unreadable := true, false;
      var oldUploads := ExtractUploads(sc.metadata);
      if oldUploads.None? {
        unreadable := true;
        return;
      }
      ghost var before := events;
      var i := 0;
      while i < |uploads|
        invariant 0 <= i <= |uploads|
        invariant result == AllUploadsSuccessful(uploads[..i])
        invariant events == before + AttachmentEvents(sc.guid, oldUploads.value, uploads[..i])
      {
        var upload := uploads[i];
        var status := At(upload, "status");
        var uploadId := At(upload, "id");
        assert uploads[..i + 1][..i] == uploads[..i];
        if !IsUploadSuccessful(status) {
          result := false;
        }
        if OldUploadStatus(oldUploads.value, uploadId) != status {
          if status == JStr(ErrorStatus) {
            events := events + [SilentFailure(EvidenceChannel, sc.guid)];
          }
          events := events + [UploadStatus(sc.guid, uploadId, status)];
        }
        i := i + 1;
      }
      assert uploads[..i] == uploads;
    }

    /** `saved_claim_complete?`: the attachment check always runs first. */
    method SavedClaimComplete(sc: ClaimRow, status: Json, uploads: seq<seq<Field>>, secondaryFormsComplete: bool)
      returns (complete: bool, unreadable: bool)
      modifies this`events
      ensures unreadable <==> ExtractUploads(sc.metadata).None?
      ensures unreadable ==> events == old(events)
      ensures !unreadable ==> complete == (AllUploadsSuccessful(uploads) && secondaryFormsComplete && IsSuccessful(status))
      ensures !unreadable ==> events == old(events) + AttachmentEvents(sc.guid, ExtractUploads(sc.metadata).value, uploads)
    {
      var attachmentsOk;
      attachmentsOk, unreadable := CheckAttachmentsStatus(sc, uploads);
      complete := attachmentsOk && secondaryFormsComplete && IsSuccessful(status);
    }

    method HandleFormStatusMetricsAndLogging(sc: ClaimRow, status: Json)
      modifies this`events
      ensures events == old(events) + FormStatusEvents(sc, status)
    {
      if StoredStatus(sc.metadata) == status {
        return;
      }
      if status == JStr(ErrorStatus) {
        events := events + [SilentFailure(FormChannel, sc.guid)];
      }
      events := events + [FormStatus(sc.guid, status)];
    }
  }

  // ---------------------------------------------------------------------------
  // Lemmas used by the methods

  lemma {:induction false} FailedUploadStops(ids: seq<string>, i: nat, n: nat, fetch: string -> Fetch)
    requires 0 < i <= n <= |ids|
    requires fetch(ids[i - 1]).FetchFailed?
    ensures UploadsStatuses(ids[..n], fetch) == None
    decreases n
  {
    assert ids[..n][..n - 1] == ids[..n - 1];
    if n > i {
      FailedUploadStops(ids, i, n - 1, fetch);
    }
  }

  lemma {:induction false} RaisedLoopStops(p: Pass, idxs: seq<nat>, i: nat, env: Env)
    requires 0 < i <= |idxs| && InRange(idxs, |p.forms|)
    requires SecondaryLoop(p, idxs[..i], env).raised
    ensures SecondaryLoop(p, idxs, env) == SecondaryLoop(p, idxs[..i], env)
    decreases |idxs| - i
  {
    if i < |idxs| {
      assert idxs[..i + 1][..i] == idxs[..i];
      RaisedLoopStops(p, idxs, i + 1, env);
    } else {
      assert idxs[..i] == idxs;
    }
  }

  /** The stored upload list reads back as the list that was stored. */
  lemma {:induction false} HashesOfUploadsJson(uploads: seq<seq<Field>>)
    ensures AsHashes(UploadsJson(uploads).items) == Some(uploads)
  {
    if |uploads| > 0 {
      var n := |uploads| - 1;
      HashesOfUploadsJson(uploads[..n]);
      assert UploadsJson(uploads).items[..n] == UploadsJson(uploads[..n]).items;
      assert uploads[..n] + [uploads[n]] == uploads;
    }
  }

  /** The metadata a run stores keeps the claim status and reads back its upload list. */
  lemma StoredMetadataReadsBack(attributes: seq<Field>, uploads: seq<seq<Field>>)
    ensures StoredStatus(Some(StoredMetadata(attributes, uploads))) == At(attributes, "status")
    ensures ExtractUploads(Some(StoredMetadata(attributes, uploads))) == Some(uploads)
  {
    HashesOfUploadsJson(uploads);
    StoredMetadataKeys(attributes, uploads, "status");
  }

  /** Every fetched attribute other than `uploads` is stored as it was answered. */
  lemma StoredMetadataKeys(attributes: seq<Field>, uploads: seq<seq<Field>>, k: string)
    requires k != "uploads"
    ensures Has(StoredMetadata(attributes, uploads), k) <==> Has(attributes, k)
    ensures At(StoredMetadata(attributes, uploads), k) == At(attributes, k)
  {
    PutOther(attributes, "uploads", UploadsJson(uploads), k);
  }

  lemma {:induction false} SecondaryLoopKeepsInvariant(p: Pass, idxs: seq<nat>, env: Env)
    requires InRange(idxs, |p.forms|) && FormsRetentionInvariant(p.forms)
    ensures FormsRetentionInvariant(SecondaryLoop(p, idxs, env).forms)
  {
    if |idxs| > 0 {
      SecondaryLoopKeepsInvariant(p, idxs[..|idxs| - 1], env);
    }
  }

  /** Processing one claim changes no other claim row. */
  lemma AfterClaimFrame(t: Tables, idx: nat, env: Env)
    requires idx < |t.claims|
    ensures forall j :: 0 <= j < |t.claims| && j != idx ==> AfterClaim(t, idx, env).claims[j] == t.claims[j]
  {
  }

  /** Processing an open claim keeps both retention invariants. */
  lemma AfterClaimKeepsInvariants(t: Tables, idx: nat, env: Env)
    requires idx < |t.claims| && t.claims[idx].deleteDate.None?
    requires ClaimsRetentionInvariant(t.claims) && FormsRetentionInvariant(t.forms)
    ensures ClaimsRetentionInvariant(AfterClaim(t, idx, env).claims)
    ensures FormsRetentionInvariant(AfterClaim(t, idx, env).forms)
  {
    var sc := t.claims[idx];
    if env.fetchClaim(sc.guid).Fetched? {
      var attributes := env.fetchClaim(sc.guid).attributes;
      if UploadsStatuses(UploadIdsOf(env, sc.guid), env.fetchUpload).Some? {
        var uploads := UploadsStatuses(UploadIdsOf(env, sc.guid), env.fetchUpload).value;
        if env.track4142 {
          SecondaryLoopKeepsInvariant(Pass(t.forms, t.events, true, false), OpenFormsOf(t.forms, sc.guid, env), env);
        }
        StoredMetadataReadsBack(attributes, uploads);
      }
    }
  }

  lemma SecondaryLoopSnoc(p: Pass, idxs: seq<nat>, i: nat, env: Env)
    requires i < |idxs| && InRange(idxs, |p.forms|)
    ensures SecondaryLoop(p, idxs[..i + 1], env)
         == (var q := SecondaryLoop(p, idxs[..i], env); if q.raised then q else SecondaryStep(q, idxs[i], env))
  {
    assert idxs[..i + 1][..i] == idxs[..i];
  }

  lemma AfterRunSnoc(t: Tables, order: seq<nat>, i: nat, env: Env)
    requires i < |order| && InRange(order, |t.claims|)
    ensures AfterRun(t, order[..i + 1], env) == AfterClaim(AfterRun(t, order[..i], env), order[i], env)
  {
    assert order[..i + 1][..i] == order[..i];
  }

  // ---------------------------------------------------------------------------
  // What a run promises

  /** A disabled job, or one with no open claim, changes nothing and emits nothing. */
  lemma IdleRunChangesNothing(t: Tables, env: Env)
    requires !env.jobEnabled || forall i :: 0 <= i < |t.claims| ==> t.claims[i].deleteDate.Some?
    ensures AfterPerform(t, env) == t
  {
  }

  /** Every open claim is processed, once each, oldest first. */
  lemma RunProcessesOpenClaimsOldestFirst(t: Tables, env: Env)
    requires env.jobEnabled && exists i :: 0 <= i < |t.claims| && t.claims[i].deleteDate.None?
    ensures AfterPerform(t, env)
         == AfterRun(t.(events := t.events + [ProcessingRecords(|OpenClaims(t.claims)|)]), OpenClaims(t.claims), env)
    ensures forall i :: 0 <= i < |t.claims| ==> (i in OpenClaims(t.claims) <==> t.claims[i].deleteDate.None?)
    ensures Distinct(OpenClaims(t.claims)) && SortedByCreation(t.claims, OpenClaims(t.claims))
  {
    var i :| 0 <= i < |t.claims| && t.claims[i].deleteDate.None?;
    assert i in OpenClaims(t.claims);
  }

  /** The claim's own answers, when nothing raises while it is processed. */
  predicate Answered(t: Tables, idx: nat, env: Env)
    requires idx < |t.claims|
  {
    var sc := t.claims[idx];
    && env.fetchClaim(sc.guid).Fetched?
    && UploadsStatuses(UploadIdsOf(env, sc.guid), env.fetchUpload).Some?
    && !SecondaryForms(t, sc.guid, env).raised
    && ExtractUploads(sc.metadata).Some?
  }

  /**
   * The retention rule: an open claim gets a delete date, 59 days after the
   * run, exactly when nothing raised, its status is complete, every evidence
   * upload reached VBMS and every secondary form is complete; otherwise it
   * stays open.
   */
  lemma RetentionExactlyWhenAllSuccessful(t: Tables, idx: nat, env: Env)
    requires idx < |t.claims| && t.claims[idx].deleteDate.None?
    ensures var row := AfterClaim(t, idx, env).claims[idx];
      row.deleteDate.Some? <==>
        && Answered(t, idx, env)
        && IsSuccessful(At(env.fetchClaim(t.claims[idx].guid).attributes, "status"))
        && (forall k :: 0 <= k < |UploadIdsOf(env, t.claims[idx].guid)| ==>
              && env.fetchUpload(UploadIdsOf(env, t.claims[idx].guid)[k]).Fetched?
              && IsUploadSuccessful(At(env.fetchUpload(UploadIdsOf(env, t.claims[idx].guid)[k]).attributes, "status")))
        && SecondaryForms(t, t.claims[idx].guid, env).allComplete
    ensures AfterClaim(t, idx, env).claims[idx].deleteDate.Some? ==>
      AfterClaim(t, idx, env).claims[idx].deleteDate == Some(env.now + RetentionPeriod)
  {
    var sc := t.claims[idx];
    var ids := UploadIdsOf(env, sc.guid);
    UploadsStatusesFetched(ids, env.fetchUpload);
    if Answered(t, idx, env) {
      var uploads := UploadsStatuses(ids, env.fetchUpload).value;
      UploadsStatusesEntries(ids, env.fetchUpload);
      AllUploadsSuccessfulIff(uploads);
      forall k | 0 <= k < |ids|
        ensures At(uploads[k], "status") == At(env.fetchUpload(ids[k]).attributes, "status")
      {
        UploadEntryContents(env.fetchUpload(ids[k]).attributes, ids[k], "status");
      }
    }
  }

  /** The upload aggregate holds exactly when every upload's status is a successful one. */
  lemma {:induction false} AllUploadsSuccessfulIff(uploads: seq<seq<Field>>)
    ensures AllUploadsSuccessful(uploads) <==> forall k :: 0 <= k < |uploads| ==> IsUploadSuccessful(At(uploads[k], "status"))
  {
    if |uploads| > 0 {
      var n := |uploads| - 1;
      AllUploadsSuccessfulIff(uploads[..n]);
      assert forall k :: 0 <= k < n ==> uploads[..n][k] == uploads[k];
    }
  }

  /** The upload list is fetched exactly when every upload answers. */
  lemma {:induction false} UploadsStatusesFetched(ids: seq<string>, fetch: string -> Fetch)
    ensures UploadsStatuses(ids, fetch).Some? <==> forall k :: 0 <= k < |ids| ==> fetch(ids[k]).Fetched?
  {
    if |ids| > 0 {
      var n := |ids| - 1;
      UploadsStatusesFetched(ids[..n], fetch);
      assert forall k :: 0 <= k < n ==> ids[..n][k] == ids[k];
    }
  }

  /** The fetched upload list has one entry per id, in order, built from that id's answer. */
  lemma {:induction false} UploadsStatusesEntries(ids: seq<string>, fetch: string -> Fetch)
    requires UploadsStatuses(ids, fetch).Some?
    ensures forall k :: 0 <= k < |ids| ==>
      fetch(ids[k]).Fetched? && UploadsStatuses(ids, fetch).value[k] == UploadEntry(fetch(ids[k]).attributes, ids[k])
  {
    if |ids| > 0 {
      var n := |ids| - 1;
      var front := UploadsStatuses(ids[..n], fetch);
      UploadsStatusesEntries(ids[..n], fetch);
      assert UploadsStatuses(ids, fetch).value == front.value + [UploadEntry(fetch(ids[n]).attributes, ids[n])];
      assert forall k :: 0 <= k < n ==> ids[..n][k] == ids[k];
    }
  }

  /** A stored upload entry: the stored attributes the service answered, and its own `id`. */
  lemma UploadEntryContents(attributes: seq<Field>, id: string, k: string)
    ensures At(UploadEntry(attributes, id), "id") == JStr(id)
    ensures k != "id" ==> (Has(UploadEntry(attributes, id), k) <==> k in AttributesToStore && Has(attributes, k))
    ensures k != "id" && k in AttributesToStore ==> At(UploadEntry(attributes, id), k) == At(attributes, k)
    ensures k != "id" && k !in AttributesToStore ==> At(UploadEntry(attributes, id), k) == JNull
  {
    SliceEntry(attributes, AttributesToStore, k);
    if k != "id" {
      PutOther(Slice(attributes, AttributesToStore), "id", JStr(id), k);
    }
  }

  /** The secondary pass touches only the forms it visits, and never a form's identity or appeal. */
  lemma {:induction false} SecondaryLoopFrame(p: Pass, idxs: seq<nat>, env: Env)
    requires InRange(idxs, |p.forms|)
    ensures var q := SecondaryLoop(p, idxs, env);
      && (forall j :: 0 <= j < |p.forms| ==> q.forms[j].guid == p.forms[j].guid && q.forms[j].appealUuid == p.forms[j].appealUuid)
      && (forall j :: 0 <= j < |p.forms| && j !in idxs ==> q.forms[j] == p.forms[j])
  {
    if |idxs| > 0 {
      var n := |idxs| - 1;
      SecondaryLoopFrame(p, idxs[..n], env);
      assert forall j :: j in idxs[..n] ==> j in idxs;
    }
  }

  /** The secondary pass raises exactly when one of the visited forms fails to answer. */
  lemma {:induction false} SecondaryLoopRaises(p: Pass, idxs: seq<nat>, env: Env)
    requires InRange(idxs, |p.forms|) && !p.raised
    ensures !SecondaryLoop(p, idxs, env).raised <==> forall k :: 0 <= k < |idxs| ==> env.fetchUpload(p.forms[idxs[k]].guid).Fetched?
  {
    if |idxs| > 0 {
      var n := |idxs| - 1;
      assert forall k :: 0 <= k < n ==> idxs[..n][k] == idxs[k];
      SecondaryLoopRaises(p, idxs[..n], env);
      SecondaryLoopFrame(p, idxs[..n], env);
    }
  }

  /** One visited form: the step's effect on that form and on the aggregate. */
  lemma SecondaryStepOutcome(q0: Pass, last: nat, env: Env)
    requires last < |q0.forms| && !q0.raised && !SecondaryStep(q0, last, env).raised
    ensures var q := SecondaryStep(q0, last, env);
      && (forall j :: 0 <= j < |q0.forms| && j != last ==> q.forms[j] == q0.forms[j])
      && (q.allComplete <==> q0.allComplete && IsUploadSuccessful(StoredStatus(q.forms[last].status)))
      && (q.forms[last].deleteDate.Some? <==> IsUploadSuccessful(StoredStatus(q.forms[last].status)))
      && (q.forms[last].deleteDate.Some? ==> q.forms[last].deleteDate == Some(env.now + RetentionPeriod))
  {
  }

  /**
   * The secondary-form aggregate: without a raise the pass is complete exactly
   * when every visited form now stores a successful status.
   */
  lemma {:induction false} SecondaryLoopComplete(p: Pass, idxs: seq<nat>, env: Env)
    requires InRange(idxs, |p.forms|) && Distinct(idxs) && !p.raised
    requires !SecondaryLoop(p, idxs, env).raised
    ensures SecondaryLoop(p, idxs, env).allComplete
        <==> p.allComplete && forall k :: 0 <= k < |idxs| ==> IsUploadSuccessful(StoredStatus(SecondaryLoop(p, idxs, env).forms[idxs[k]].status))
  {
    if |idxs| > 0 {
      var n := |idxs| - 1;
      var front := idxs[..n];
      var q0 := SecondaryLoop(p, front, env);
      assert !q0.raised;
      assert forall k :: 0 <= k < n ==> front[k] == idxs[k] && idxs[k] != idxs[n];
      SecondaryLoopComplete(p, front, env);
      SecondaryStepOutcome(q0, idxs[n], env);
    }
  }

  /** Without a raise, a visited form has a delete date exactly when its stored status is successful. */
  lemma {:induction false} SecondaryLoopDeleteDates(p: Pass, idxs: seq<nat>, env: Env)
    requires InRange(idxs, |p.forms|) && Distinct(idxs) && !p.raised
    requires !SecondaryLoop(p, idxs, env).raised
    ensures forall k :: 0 <= k < |idxs| ==>
      var form := SecondaryLoop(p, idxs, env).forms[idxs[k]];
      && (form.deleteDate.Some? <==> IsUploadSuccessful(StoredStatus(form.status)))
      && (form.deleteDate.Some? ==> form.deleteDate == Some(env.now + RetentionPeriod))
  {
    if |idxs| > 0 {
      var n := |idxs| - 1;
      var front := idxs[..n];
      var q0 := SecondaryLoop(p, front, env);
      assert !q0.raised;
      assert forall k :: 0 <= k < n ==> front[k] == idxs[k] && idxs[k] != idxs[n];
      SecondaryLoopDeleteDates(p, front, env);
      SecondaryStepOutcome(q0, idxs[n], env);
    }
  }

  /** A claim status metric only on a change of status; a silent failure only on a change to `error`. */
  lemma FormStatusEventsOnChange(sc: ClaimRow, status: Json)
    ensures FormStatusEvents(sc, status) != [] <==> StoredStatus(sc.metadata) != status
    ensures SilentFailure(FormChannel, sc.guid) in FormStatusEvents(sc, status)
        <==> StoredStatus(sc.metadata) != status && status == JStr(ErrorStatus)
    ensures forall e :: e in FormStatusEvents(sc, status) ==> e == FormStatus(sc.guid, status) || e == SilentFailure(FormChannel, sc.guid)
  {
  }

  /** An upload metric only on a change of that upload's status; a silent failure only on a change to `error`. */
  lemma UploadEventsOnChange(guid: string, previous: seq<seq<Field>>, upload: seq<Field>)
    ensures UploadEvents(guid, previous, upload) != [] <==> OldUploadStatus(previous, At(upload, "id")) != At(upload, "status")
    ensures SilentFailure(EvidenceChannel, guid) in UploadEvents(guid, previous, upload)
        <==> OldUploadStatus(previous, At(upload, "id")) != At(upload, "status") && At(upload, "status") == JStr(ErrorStatus)
  {
  }

  /** A claim whose own answer cannot be fetched is left as it was; the error is counted. */
  lemma FailedFetchLeavesClaim(t: Tables, idx: nat, env: Env)
    requires idx < |t.claims| && env.fetchClaim(t.claims[idx].guid).FetchFailed?
    ensures AfterClaim(t, idx, env) == t.(events := t.events + [ClaimError(t.claims[idx].guid)])
  {
  }

  /**
   * Any raise while a claim is processed leaves every claim row as it was and
   * ends the claim's events with its error count.
   */
  lemma RaiseLeavesClaimRows(t: Tables, idx: nat, env: Env)
    requires idx < |t.claims| && !Answered(t, idx, env)
    ensures AfterClaim(t, idx, env).claims == t.claims
    ensures var e := AfterClaim(t, idx, env).events; |e| > 0 && e[|e| - 1] == ClaimError(t.claims[idx].guid)
  {
  }

  /** Nothing a claim's processing does removes an event already recorded. */
  lemma {:induction false} SecondaryLoopExtendsEvents(p: Pass, idxs: seq<nat>, env: Env)
    requires InRange(idxs, |p.forms|)
    ensures p.events <= SecondaryLoop(p, idxs, env).events
  {
    if |idxs| > 0 {
      SecondaryLoopExtendsEvents(p, idxs[..|idxs| - 1], env);
    }
  }

  lemma AfterClaimExtendsEvents(t: Tables, idx: nat, env: Env)
    requires idx < |t.claims|
    ensures t.events <= AfterClaim(t, idx, env).events
  {
    if env.track4142 {
      SecondaryLoopExtendsEvents(Pass(t.forms, t.events, true, false), OpenFormsOf(t.forms, t.claims[idx].guid, env), env);
    }
  }

  /** A run only appends events, and touches only the rows in its order. */
  lemma {:induction false} AfterRunFrame(t: Tables, order: seq<nat>, env: Env)
    requires InRange(order, |t.claims|)
    ensures t.events <= AfterRun(t, order, env).events
    ensures forall j :: 0 <= j < |t.claims| && j !in order ==> AfterRun(t, order, env).claims[j] == t.claims[j]
  {
    if |order| > 0 {
      var n := |order| - 1;
      assert forall j :: j in order <==> j in order[..n] || j == order[n];
      AfterRunFrame(t, order[..n], env);
      AfterClaimFrame(AfterRun(t, order[..n], env), order[n], env);
      AfterClaimExtendsEvents(AfterRun(t, order[..n], env), order[n], env);
    }
  }

  /** A claim in the order whose answer cannot be fetched keeps its row and has its error counted. */
  lemma {:induction false} FailedClaimsKeepRows(t: Tables, order: seq<nat>, env: Env)
    requires InRange(order, |t.claims|) && Distinct(order)
    ensures forall j :: j in order && env.fetchClaim(t.claims[j].guid).FetchFailed? ==>
      AfterRun(t, order, env).claims[j] == t.claims[j] && ClaimError(t.claims[j].guid) in AfterRun(t, order, env).events
  {
    if |order| > 0 {
      var n := |order| - 1;
      var front := order[..n];
      var last := order[n];
      assert forall k :: 0 <= k < n ==> front[k] == order[k] && order[k] != last;
      assert forall j :: j in order <==> j in front || j == last;
      FailedClaimsKeepRows(t, front, env);
      AfterRunFrame(t, front, env);
      FailedClaimsKeepRowsStep(t, front, AfterRun(t, front, env), last, env);
    }
  }

  /** One more claim step keeps what FailedClaimsKeepRows states for the claims before it. */
  lemma FailedClaimsKeepRowsStep(t: Tables, front: seq<nat>, r0: Tables, last: nat, env: Env)
    requires InRange(front, |t.claims|) && last < |t.claims| == |r0.claims| && last !in front
    requires r0.claims[last] == t.claims[last]
    requires forall j :: j in front && env.fetchClaim(t.claims[j].guid).FetchFailed? ==>
      r0.claims[j] == t.claims[j] && ClaimError(t.claims[j].guid) in r0.events
    ensures forall j :: (j in front || j == last) && env.fetchClaim(t.claims[j].guid).FetchFailed? ==>
      AfterClaim(r0, last, env).claims[j] == t.claims[j] && ClaimError(t.claims[j].guid) in AfterClaim(r0, last, env).events
  {
    AfterClaimFrame(r0, last, env);
    AfterClaimExtendsEvents(r0, last, env);
    var r := AfterClaim(r0, last, env);
    forall j | j in front && env.fetchClaim(t.claims[j].guid).FetchFailed?
      ensures ClaimError(t.claims[j].guid) in r.events
    {
      var m :| 0 <= m < |r0.events| && r0.events[m] == ClaimError(t.claims[j].guid);
      assert r.events[m] == r0.events[m];
    }
    if env.fetchClaim(t.claims[last].guid).FetchFailed? {
      FailedFetchLeavesClaim(r0, last, env);
      assert r.events[|r.events| - 1] == ClaimError(t.claims[last].guid);
    }
  }

  /**
   * Error isolation across a run: a claim in the order whose answer cannot be
   * fetched keeps its row and has its error counted, whatever happened to the
   * claims before it, and the run goes on with the claims after it as if the
   * failed claim were not in the run.
   */
  lemma AfterRunIsolatesErrors(t: Tables, order: seq<nat>, env: Env)
    requires InRange(order, |t.claims|) && Distinct(order)
    ensures forall j :: j in order && env.fetchClaim(t.claims[j].guid).FetchFailed? ==>
      AfterRun(t, order, env).claims[j] == t.claims[j] && ClaimError(t.claims[j].guid) in AfterRun(t, order, env).events
    ensures forall k :: 0 <= k < |order| && env.fetchClaim(t.claims[order[k]].guid).FetchFailed? ==>
      && AfterRun(t, order, env).claims == AfterRun(t, Skip(order, k), env).claims
      && AfterRun(t, order, env).forms == AfterRun(t, Skip(order, k), env).forms
  {
    FailedClaimsKeepRows(t, order, env);
    forall k | 0 <= k < |order| && env.fetchClaim(t.claims[order[k]].guid).FetchFailed?
      ensures AfterRun(t, order, env).claims == AfterRun(t, Skip(order, k), env).claims
      ensures AfterRun(t, order, env).forms == AfterRun(t, Skip(order, k), env).forms
    {
      FailedClaimIsSkipped(t, order, k, env);
    }
  }

  /** `order` without its `k`-th claim. */
  function Skip(order: seq<nat>, k: nat): (r: seq<nat>)
    requires k < |order|
    ensures |r| == |order| - 1
    ensures forall j :: 0 <= j < |r| ==> r[j] == (if j < k then order[j] else order[j + 1])
  {
    order[..k] + order[k + 1..]
  }

  /** Processing claims never changes a claim's guid. */
  lemma {:induction false} AfterRunKeepsGuids(t: Tables, order: seq<nat>, env: Env)
    requires InRange(order, |t.claims|)
    ensures forall j :: 0 <= j < |t.claims| ==> AfterRun(t, order, env).claims[j].guid == t.claims[j].guid
  {
    if |order| > 0 {
      AfterRunKeepsGuids(t, order[..|order| - 1], env);
    }
  }

  /** The rows a secondary pass leaves do not depend on the events recorded before it. */
  lemma {:induction false} SecondaryLoopIgnoresEvents(p: Pass, e: seq<Event>, idxs: seq<nat>, env: Env)
    requires InRange(idxs, |p.forms|)
    ensures var q := SecondaryLoop(p, idxs, env);
      var q' := SecondaryLoop(p.(events := e), idxs, env);
      q'.forms == q.forms && q'.allComplete == q.allComplete && q'.raised == q.raised
  {
    if |idxs| > 0 {
      SecondaryLoopIgnoresEvents(p, e, idxs[..|idxs| - 1], env);
    }
  }

  /** The rows processing a claim leaves do not depend on the events recorded before it. */
  lemma AfterClaimIgnoresEvents(t: Tables, e: seq<Event>, idx: nat, env: Env)
    requires idx < |t.claims|
    ensures AfterClaim(t.(events := e), idx, env).claims == AfterClaim(t, idx, env).claims
    ensures AfterClaim(t.(events := e), idx, env).forms == AfterClaim(t, idx, env).forms
  {
    if env.track4142 {
      SecondaryLoopIgnoresEvents(Pass(t.forms, t.events, true, false), e, OpenFormsOf(t.forms, t.claims[idx].guid, env), env);
    }
  }

  /**
   * A claim whose answer cannot be fetched is skipped: the run leaves every
   * claim row and form row as a run without that claim would.
   */
  lemma {:induction false} FailedClaimIsSkipped(t: Tables, order: seq<nat>, k: nat, env: Env)
    requires InRange(order, |t.claims|) && k < |order|
    requires env.fetchClaim(t.claims[order[k]].guid).FetchFailed?
    ensures InRange(Skip(order, k), |t.claims|)
    ensures AfterRun(t, order, env).claims == AfterRun(t, Skip(order, k), env).claims
    ensures AfterRun(t, order, env).forms == AfterRun(t, Skip(order, k), env).forms
    decreases |order|
  {
    var n := |order| - 1;
    var rest := Skip(order, k);
    if k == n {
      assert rest == order[..n];
      AfterRunKeepsGuids(t, order[..n], env);
      FailedFetchLeavesClaim(AfterRun(t, order[..n], env), order[n], env);
    } else {
      FailedClaimIsSkipped(t, order[..n], k, env);
      var front := Skip(order[..n], k);
      assert rest[..|rest| - 1] == front;
      var a := AfterRun(t, order[..n], env);
      var b := AfterRun(t, front, env);
      assert a == b.(events := a.events);
      AfterClaimIgnoresEvents(b, a.events, order[n], env);
    }
  }

  /** A run over distinct open claims keeps both retention invariants. */
  lemma {:induction false} AfterRunKeepsInvariants(t: Tables, order: seq<nat>, env: Env)
    requires InRange(order, |t.claims|) && Distinct(order)
    requires forall k :: 0 <= k < |order| ==> t.claims[order[k]].deleteDate.None?
    requires ClaimsRetentionInvariant(t.claims) && FormsRetentionInvariant(t.forms)
    ensures ClaimsRetentionInvariant(AfterRun(t, order, env).claims)
    ensures FormsRetentionInvariant(AfterRun(t, order, env).forms)
  {
    if |order| > 0 {
      var n := |order| - 1;
      var front := order[..n];
      assert forall k :: 0 <= k < n ==> front[k] == order[k] && order[k] != order[n];
      AfterRunKeepsInvariants(t, front, env);
      AfterRunFrame(t, front, env);
      assert order[n] !in front;
      AfterClaimKeepsInvariants(AfterRun(t, front, env), order[n], env);
    }
  }

  /** `perform` keeps both retention invariants. */
  lemma PerformKeepsInvariants(t: Tables, env: Env)
    requires ClaimsRetentionInvariant(t.claims) && FormsRetentionInvariant(t.forms)
    ensures ClaimsRetentionInvariant(AfterPerform(t, env).claims)
    ensures FormsRetentionInvariant(AfterPerform(t, env).forms)
  {
    var open := OpenClaims(t.claims);
    if env.jobEnabled && |open| > 0 {
      AfterRunKeepsInvariants(t.(events := t.events + [ProcessingRecords(|open|)]), open, env);
    }
  }

  /** Entries that carry the same `id` carry the same status. */
  predicate ConsistentIds(uploads: seq<seq<Field>>) {
    forall j, k :: 0 <= j < |uploads| && 0 <= k < |uploads| && At(uploads[j], "id") == At(uploads[k], "id") ==>
      At(uploads[j], "status") == At(uploads[k], "status")
  }

  /** Looking an entry's id up in a consistent list finds that entry's status. */
  lemma {:induction false} OldUploadStatusFindsEntry(uploads: seq<seq<Field>>, k: nat)
    requires ConsistentIds(uploads) && k < |uploads|
    ensures OldUploadStatus(uploads, At(uploads[k], "id")) == At(uploads[k], "status")
  {
    var n := |uploads| - 1;
    if At(uploads[n], "id") != At(uploads[k], "id") {
      assert forall j :: 0 <= j < n ==> uploads[..n][j] == uploads[j];
      OldUploadStatusFindsEntry(uploads[..n], k);
    }
  }

  /** No upload metric when every upload's status is what was stored for its id. */
  lemma {:induction false} QuietAttachments(guid: string, previous: seq<seq<Field>>, uploads: seq<seq<Field>>)
    requires forall k :: 0 <= k < |uploads| ==> OldUploadStatus(previous, At(uploads[k], "id")) == At(uploads[k], "status")
    ensures AttachmentEvents(guid, previous, uploads) == []
  {
    if |uploads| > 0 {
      var n := |uploads| - 1;
      assert forall k :: 0 <= k < n ==> uploads[..n][k] == uploads[k];
      QuietAttachments(guid, previous, uploads[..n]);
    }
  }

  /** The fetched upload list is consistent: one id, one answer. */
  lemma FetchedUploadsConsistent(ids: seq<string>, fetch: string -> Fetch)
    requires UploadsStatuses(ids, fetch).Some?
    ensures ConsistentIds(UploadsStatuses(ids, fetch).value)
  {
    var uploads := UploadsStatuses(ids, fetch).value;
    UploadsStatusesEntries(ids, fetch);
    forall j, k | 0 <= j < |uploads| && 0 <= k < |uploads| && At(uploads[j], "id") == At(uploads[k], "id")
      ensures At(uploads[j], "status") == At(uploads[k], "status")
    {
      UploadEntryContents(fetch(ids[j]).attributes, ids[j], "status");
      UploadEntryContents(fetch(ids[k]).attributes, ids[k], "status");
    }
  }

  /**
   * Re-running a claim whose answers are the ones already stored emits no
   * claim or upload status metric and no silent failure of its own: only the
   * secondary-form events and, when it completes, the delete-date metric.
   */
  lemma RerunIsQuiet(t: Tables, idx: nat, env: Env)
    requires idx < |t.claims|
    requires env.fetchClaim(t.claims[idx].guid).Fetched?
    requires UploadsStatuses(UploadIdsOf(env, t.claims[idx].guid), env.fetchUpload).Some?
    requires !SecondaryForms(t, t.claims[idx].guid, env).raised
    requires t.claims[idx].metadata == Some(StoredMetadata(env.fetchClaim(t.claims[idx].guid).attributes,
                                                           UploadsStatuses(UploadIdsOf(env, t.claims[idx].guid), env.fetchUpload).value))
    ensures var guid := t.claims[idx].guid;
      var uploads := UploadsStatuses(UploadIdsOf(env, guid), env.fetchUpload).value;
      var p := SecondaryForms(t, guid, env);
      AfterClaim(t, idx, env).events
        == p.events + (if AllUploadsSuccessful(uploads) && p.allComplete && IsSuccessful(At(env.fetchClaim(guid).attributes, "status"))
                       then [DeleteDateUpdate(guid)] else [])
  {
    var guid := t.claims[idx].guid;
    var uploads := UploadsStatuses(UploadIdsOf(env, guid), env.fetchUpload).value;
    StoredMetadataReadsBack(env.fetchClaim(guid).attributes, uploads);
    FetchedUploadsConsistent(UploadIdsOf(env, guid), env.fetchUpload);
    forall k | 0 <= k < |uploads| ensures OldUploadStatus(uploads, At(uploads[k], "id")) == At(uploads[k], "status") {
      OldUploadStatusFindsEntry(uploads, k);
    }
    QuietAttachments(guid, uploads, uploads);
  }

  /**
   * A visited form whose stored status is already its answer emits no status
   * metric and no silent failure; only a successful one is dated again.
   */
  lemma QuietSecondaryStep(p: Pass, fi: nat, env: Env)
    requires fi < |p.forms| && env.fetchUpload(p.forms[fi].guid).Fetched?
    requires StoredStatus(p.forms[fi].status) == At(Slice(env.fetchUpload(p.forms[fi].guid).attributes, AttributesToStore), "status")
    ensures SecondaryStep(p, fi, env).events
         == p.events + (if IsUploadSuccessful(StoredStatus(p.forms[fi].status)) then [SecondaryFormDeleteDateUpdate(p.forms[fi].guid)] else [])
  {
  }

  /** A form row that already holds what a step would write for the service's answer. */
  predicate Settled(form: FormRow, env: Env) {
    && env.fetchUpload(form.guid).Fetched?
    && form == UpdatedForm(form, Slice(env.fetchUpload(form.guid).attributes, AttributesToStore), env.now)
  }

  /** A pass over settled open forms changes no row, emits nothing, and is complete only when it visits nothing. */
  lemma {:induction false} SettledLoopIsQuiet(p: Pass, idxs: seq<nat>, env: Env)
    requires InRange(idxs, |p.forms|) && !p.raised
    requires forall k :: 0 <= k < |idxs| ==> Settled(p.forms[idxs[k]], env) && p.forms[idxs[k]].deleteDate.None?
    ensures SecondaryLoop(p, idxs, env) == p.(allComplete := p.allComplete && |idxs| == 0)
  {
    if |idxs| > 0 {
      var n := |idxs| - 1;
      assert forall k :: 0 <= k < n ==> idxs[..n][k] == idxs[k];
      SettledLoopIsQuiet(p, idxs[..n], env);
      var form := p.forms[idxs[n]];
      var a := Slice(env.fetchUpload(form.guid).attributes, AttributesToStore);
      assert form.status == Some(a);
      assert p.forms[idxs[n] := form] == p.forms;
    }
  }

  /** Without a raise, every form a pass visits is left settled. */
  lemma {:induction false} FirstPassSettles(p: Pass, idxs: seq<nat>, env: Env)
    requires InRange(idxs, |p.forms|) && Distinct(idxs) && !p.raised
    requires !SecondaryLoop(p, idxs, env).raised
    ensures forall k :: 0 <= k < |idxs| ==> Settled(SecondaryLoop(p, idxs, env).forms[idxs[k]], env)
  {
    if |idxs| > 0 {
      var n := |idxs| - 1;
      var front := idxs[..n];
      var q0 := SecondaryLoop(p, front, env);
      assert !q0.raised;
      assert forall k :: 0 <= k < n ==> front[k] == idxs[k] && idxs[k] != idxs[n];
      FirstPassSettles(p, front, env);
    }
  }

  /**
   * Re-running the secondary pass over the rows a pass without a raise left,
   * with the same answers and clock: no row changes, nothing is emitted, and
   * the aggregate is the one the first pass found.
   */
  lemma RerunSecondaryPass(t: Tables, t2: Tables, guid: string, env: Env)
    requires !SecondaryForms(t, guid, env).raised
    requires t2.forms == SecondaryForms(t, guid, env).forms
    ensures SecondaryForms(t2, guid, env) == Pass(t2.forms, t2.events, SecondaryForms(t, guid, env).allComplete, false)
  {
    if env.track4142 {
      var idxs := OpenFormsOf(t.forms, guid, env);
      var start := Pass(t.forms, t.events, true, false);
      var p1 := SecondaryLoop(start, idxs, env);
      SecondaryLoopFrame(start, idxs, env);
      FirstPassSettles(start, idxs, env);
      SecondaryLoopComplete(start, idxs, env);
      SecondaryLoopDeleteDates(start, idxs, env);
      var idxs2 := OpenFormsOf(t2.forms, guid, env);
      forall k | 0 <= k < |idxs2|
        ensures idxs2[k] in idxs && Settled(t2.forms[idxs2[k]], env) && t2.forms[idxs2[k]].deleteDate.None?
      {
        var i := idxs2[k];
        assert t2.forms[i].appealUuid == t.forms[i].appealUuid;
        assert t.forms[i].deleteDate.None?;
        assert i in idxs;
        var k1 :| 0 <= k1 < |idxs| && idxs[k1] == i;
      }
      SettledLoopIsQuiet(Pass(t2.forms, t2.events, true, false), idxs2, env);
      if |idxs2| > 0 {
        var k1 :| 0 <= k1 < |idxs| && idxs[k1] == idxs2[0];
        assert !IsUploadSuccessful(StoredStatus(p1.forms[idxs[k1]].status));
      } else {
        forall k | 0 <= k < |idxs| ensures p1.forms[idxs[k]].deleteDate.Some? {
          assert idxs[k] !in idxs2;
        }
      }
    }
  }

  /**
   * Idempotence: re-running, with the same answers and clock, a claim whose
   * first run raised nothing leaves every claim row and form row as the first
   * run left them, and emits nothing but the delete-date metric when the
   * claim is complete.
   */
  lemma RerunKeepsRows(t: Tables, idx: nat, env: Env)
    requires idx < |t.claims| && Answered(t, idx, env)
    ensures var t1 := AfterClaim(t, idx, env);
      var t2 := AfterClaim(t1, idx, env);
      var guid := t.claims[idx].guid;
      var uploads := UploadsStatuses(UploadIdsOf(env, guid), env.fetchUpload).value;
      && t2.claims == t1.claims && t2.forms == t1.forms
      && t2.events == t1.events
           + (if AllUploadsSuccessful(uploads) && SecondaryForms(t, guid, env).allComplete
                 && IsSuccessful(At(env.fetchClaim(guid).attributes, "status"))
              then [DeleteDateUpdate(guid)] else [])
  {
    var guid := t.claims[idx].guid;
    var t1 := AfterClaim(t, idx, env);
    var uploads := UploadsStatuses(UploadIdsOf(env, guid), env.fetchUpload).value;
    var attributes := env.fetchClaim(guid).attributes;
    StoredMetadataReadsBack(attributes, uploads);
    RerunSecondaryPass(t, t1, guid, env);
    FetchedUploadsConsistent(UploadIdsOf(env, guid), env.fetchUpload);
    forall k | 0 <= k < |uploads| ensures OldUploadStatus(uploads, At(uploads[k], "id")) == At(uploads[k], "status") {
      OldUploadStatusFindsEntry(uploads, k);
    }
    QuietAttachments(guid, uploads, uploads);
  }
}
