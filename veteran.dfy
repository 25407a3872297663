/**
 * The VA Notify veteran built around an in-progress form: where its first
 * name comes from for each supported form, and whether it is verified.
 */
module Veteran {
  import opened Wrappers
  import opened Json
  import opened Text

  /**
   * The parts of an in-progress form the veteran reads: its form id and
   * record id, the decoded form data, the owner's uuid, and the ICN of its
   * user account (None when there is no account).
   */
  datatype InProgressForm = InProgressForm(
    formId: string,
    id: int,
    formData: Json,
    userUuid: Json,
    account: Option<Option<string>>)

  /** What MPI's `find_profile` answers: not ok, or a profile with its given names (nil allowed). */
  datatype MpiProfile = NotOk | Profile(givenNames: Option<seq<string>>)

  datatype VeteranError =
    | UnsupportedForm(formId: string, recordId: int)
    | MpiError
    | MpiNameError
    | Undiggable   // `dig` on parsed form data that is not a hash, or through a value that is neither a hash nor nil

  const DependentsForm: string := "686C-674"
  const HealthCareForm: string := "1010ez"
  const DisabilityForm: string := "21-526EZ"

  /** `icn`: nil-safe through a missing form account. */
  function Icn(form: Option<InProgressForm>): Option<string> {
    if form.Some? && form.value.account.Some? then form.value.account.value else None
  }

  /** `lookup_first_name_by_icn`: the first given name of an ok profile that has any. */
  function LookupFirstName(mpi: MpiProfile): (r: Result<Json, VeteranError>)
    ensures r.Ok? <==> mpi.Profile? && mpi.givenNames.Some? && |mpi.givenNames.value| > 0
    ensures r.Ok? ==> r.value == JStr(mpi.givenNames.value[0])
    ensures mpi.NotOk? ==> r == Err(MpiError)
  {
    if mpi.NotOk? then Err(MpiError)
    else if mpi.givenNames.None? || |mpi.givenNames.value| == 0 then Err(MpiNameError)
    else Ok(JStr(mpi.givenNames.value[0]))
  }

  /**
   * `JSON.parse(form_data).dig(*path)`: the parsed document answers `dig`
   * with string keys only when it is a hash; nil, a scalar or an array
   * raises, as does digging on through a value that is not a hash.
   */
  function DigName(data: Json, path: seq<string>): (r: Result<Json, VeteranError>)
    ensures r.Ok? ==> data.JObject? && Dig(data, path) == Some(r.value)
    ensures data.JObject? && Dig(data, path).Some? ==> r.Ok?
  {
    if !data.JObject? then Err(Undiggable)
    else
      var found := Dig(data, path);
      if found.Some? then Ok(found.value) else Err(Undiggable)
  }

  /**
   * `first_name`: from the form data for the dependents and health-care
   * forms, from MPI (`mpi` stands for the profile lookup) for the
   * disability form, and an UnsupportedForm naming the form for any other.
   */
  function FirstName(form: InProgressForm, mpi: MpiProfile): (r: Result<Json, VeteranError>)
    ensures r.Ok? ==> form.formId == DependentsForm || form.formId == HealthCareForm || form.formId == DisabilityForm
    ensures r.Ok? && form.formId != DisabilityForm ==> form.formData.JObject?
    ensures r.Ok? && form.formId == DisabilityForm ==> r.value.JStr?
  {
    if form.formId == DependentsForm then DigName(form.formData, ["veteran_information", "full_name", "first"])
    else if form.formId == HealthCareForm then DigName(form.formData, ["veteran_full_name", "first"])
    else if form.formId == DisabilityForm then LookupFirstName(mpi)
    else Err(UnsupportedForm(form.formId, form.id))
  }

  /** The form id alone picks the source: any id outside the three raises, naming the form and its record. */
  lemma FirstNameUnsupported(form: InProgressForm, mpi: MpiProfile)
    ensures FirstName(form, mpi).Err? && FirstName(form, mpi).error.UnsupportedForm? <==>
      form.formId != DependentsForm && form.formId != HealthCareForm && form.formId != DisabilityForm
    ensures FirstName(form, mpi).Err? && FirstName(form, mpi).error.UnsupportedForm? ==>
      FirstName(form, mpi).error == UnsupportedForm(form.formId, form.id)
  {
  }

  /** Form data that is not a hash, JSON `null` included, makes the first-name lookup of both form-data forms raise. */
  lemma NonHashFormDataRaises(form: InProgressForm, mpi: MpiProfile)
    requires form.formId == DependentsForm || form.formId == HealthCareForm
    requires !form.formData.JObject?
    ensures FirstName(form, mpi) == Err(Undiggable)
  {
  }

  /** MPI is asked only for the disability form; the form data are read only for the other two. */
  lemma FirstNameSources(form: InProgressForm, mpi1: MpiProfile, mpi2: MpiProfile, data: Json)
    ensures form.formId != DisabilityForm ==> FirstName(form, mpi1) == FirstName(form, mpi2)
    ensures form.formId == DisabilityForm ==> FirstName(form, mpi1) == FirstName(form.(formData := data), mpi1)
  {
  }

  /** For the dependents form, the name sits under `veteran_information.full_name.first`. */
  lemma DependentsFirstName(first: Json, mpi: MpiProfile, id: int, uuid: Json, account: Option<Option<string>>)
    ensures var data := JObject([Field("veteran_information", JObject([Field("full_name", JObject([Field("first", first)]))]))]);
      FirstName(InProgressForm(DependentsForm, id, data, uuid, account), mpi) == Ok(first)
  {
    var data := JObject([Field("veteran_information", JObject([Field("full_name", JObject([Field("first", first)]))]))]);
    assert Dig(data, ["veteran_information", "full_name", "first"]) == Some(first) by {
      assert ["veteran_information", "full_name", "first"][1..] == ["full_name", "first"];
      assert ["full_name", "first"][1..] == ["first"];
      assert ["first"][1..] == [];
    }
  }

  /** `authn_context`. */
  const AuthnContext: string := "va_notify_lookup"

  /** `uuid`: the form's `user_uuid`. */
  function Uuid(form: InProgressForm): Json {
    form.userUuid
  }

  /** `verified?` / `loa3?`: the ICN is present. */
  function Verified(form: Option<InProgressForm>): (r: bool)
    ensures r ==> form.Some? && form.value.account.Some? && form.value.account.value.Some?
  {
    Present(Icn(form))
  }

  /** A veteran is verified only through a form with an account whose ICN is not blank. */
  lemma VerifiedNeedsAccount(form: Option<InProgressForm>)
    ensures Verified(form) <==>
      form.Some? && form.value.account.Some? && form.value.account.value.Some? && !IsBlank(form.value.account.value.value)
  {
  }
}
