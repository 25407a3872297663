/**
 * The claims API check that a claim found by id belongs to the veteran the
 * request is about: either a BGS participant of the claim is that veteran,
 * or the Lighthouse claim records the request's ICN.
 */
module ClaimValidator {
  import opened Wrappers
  import opened Json
  import opened Text

  /** Ruby truthiness: everything but nil and false. */
  predicate Truthy(j: Json) {
    j != JNull && j != JBool(false)
  }

  /** ActiveSupport `present?` on a decoded value. */
  predicate JsonPresent(j: Json) {
    match j
    case JNull => false
    case JBool(b) => b
    case JNum(_) => true
    case JStr(s) => !IsBlank(s)
    case JArray(items) => |items| > 0
    case JObject(fields) => |fields| > 0
  }

  /**
   * The validator's inputs: the BGS claim (a hash, or nil), the Lighthouse
   * claim's `veteran_icn` (outer None when there is no Lighthouse claim),
   * the ICN of the request and the target veteran's participant id.
   */
  datatype Claim = Claim(
    bgsClaim: Option<seq<Field>>,
    lighthouseIcn: Option<Option<string>>,
    requestIcn: Option<string>,
    targetParticipantId: Json)

  /**
   * The claim's veteran and claimant participant ids, nil when the
   * `benefit_claim_details_dto` is not present; None when that entry is
   * present but not a hash, so that digging into it raises.
   */
  function ParticipantIds(bgsClaim: Option<seq<Field>>): (r: Option<(Json, Json)>)
    ensures bgsClaim.None? ==> r == Some((JNull, JNull))
    ensures bgsClaim.Some? && !Has(bgsClaim.value, "benefit_claim_details_dto") ==> r == Some((JNull, JNull))
  {
    if bgsClaim.None? then Some((JNull, JNull))
    else
      var dto := At(bgsClaim.value, "benefit_claim_details_dto");
      if !JsonPresent(dto) then Some((JNull, JNull))
      else if dto.JObject? then Some((At(dto.fields, "ptcpnt_vet_id"), At(dto.fields, "ptcpnt_clmant_id")))
      else None
  }

  /** `veteran_icn`: the Lighthouse claim's ICN when both are present, else nil. */
  function VeteranIcn(lighthouseIcn: Option<Option<string>>): (r: Option<string>)
    ensures r.Some? <==> lighthouseIcn.Some? && Present(lighthouseIcn.value)
    ensures r.Some? ==> r == lighthouseIcn.value
  {
    if lighthouseIcn.Some? && Present(lighthouseIcn.value) then lighthouseIcn.value else None
  }

  /** `clm_prtcpnt_cannot_access_claim?`. */
  predicate CannotAccess(vetId: Json, claimantId: Json, target: Json) {
    if !(Truthy(vetId) && Truthy(claimantId)) then true
    else vetId != target && claimantId != target
  }

  /** `not_valid_claim_with_id_with_icn?`; None when reading the BGS claim raises. */
  function NotValidClaim(c: Claim): (r: Option<bool>)
    ensures r.None? <==> ParticipantIds(c.bgsClaim).None?
  {
    var ids := ParticipantIds(c.bgsClaim);
    if ids.None? then None
    else Some(CannotAccess(ids.value.0, ids.value.1, c.targetParticipantId) && VeteranIcn(c.lighthouseIcn) != c.requestIcn)
  }

  datatype ValidationError = ResourceNotFound | ReadError

  /** `validate`: nil, or `ResourceNotFound` for a claim of another veteran. */
  function Validate(c: Claim): (r: Result<(), ValidationError>)
    ensures r == Err(ResourceNotFound) <==> NotValidClaim(c) == Some(true)
    ensures r == Ok(()) <==> NotValidClaim(c) == Some(false)
  {
    var notValid := NotValidClaim(c);
    if notValid.None? then Err(ReadError)
    else if notValid.value then Err(ResourceNotFound)
    else Ok(())
  }

  /**
   * A readable claim is accepted exactly when the Lighthouse ICN matches the
   * request's ICN (nil matching nil), or both BGS participant ids are there
   * and one of them is the target veteran.
   */
  lemma ValidateAccepts(c: Claim)
    requires ParticipantIds(c.bgsClaim).Some?
    ensures var (vetId, claimantId) := ParticipantIds(c.bgsClaim).value;
      Validate(c) == Ok(()) <==>
        VeteranIcn(c.lighthouseIcn) == c.requestIcn ||
        (Truthy(vetId) && Truthy(claimantId) &&
         (vetId == c.targetParticipantId || claimantId == c.targetParticipantId))
  {
  }

  /** Without a BGS claim details entry the participant check always fails. */
  lemma MissingDetailsFailParticipantCheck(c: Claim)
    requires c.bgsClaim.None? || !JsonPresent(At(c.bgsClaim.value, "benefit_claim_details_dto"))
    ensures Validate(c) == Ok(()) <==> VeteranIcn(c.lighthouseIcn) == c.requestIcn
  {
    ValidateAccepts(c);
  }

  /** A request without an ICN is accepted for a claim with no Lighthouse ICN. */
  lemma NilIcnWithoutLighthouseIcn(c: Claim)
    requires ParticipantIds(c.bgsClaim).Some?
    requires c.requestIcn.None?
    requires c.lighthouseIcn.None? || !Present(c.lighthouseIcn.value)
    ensures Validate(c) == Ok(())
  {
    ValidateAccepts(c);
  }

  /** A blank Lighthouse ICN counts as none, so it never matches a request ICN. */
  lemma BlankIcnNeverMatches(c: Claim)
    requires ParticipantIds(c.bgsClaim).Some?
    requires c.requestIcn.Some?
    requires c.lighthouseIcn.Some? && c.lighthouseIcn.value.Some? && IsBlank(c.lighthouseIcn.value.value)
    ensures var (vetId, claimantId) := ParticipantIds(c.bgsClaim).value;
      Validate(c) == Ok(()) <==>
        Truthy(vetId) && Truthy(claimantId) &&
        (vetId == c.targetParticipantId || claimantId == c.targetParticipantId)
  {
    ValidateAccepts(c);
  }
}
