/**
 * The check-in travel-claim submission worker: it submits a claim, picks
 * the StatsD metric and VA Notify template from the facility type and the
 * response code, and texts the veteran. Its effects (counters, the text
 * message, the error report) are returned as a list of events.
 */
module TravelClaimWorker {
  import opened Wrappers
  import opened Json
  import opened Text

  /** Oracle Health facilities and the check-in experience (CIE) ones. */
  datatype Facility = Oh | Cie

  datatype Outcome = Success | Duplicate | Timeout | Failure

  /** A counter name; the check-in constants that spell them out are not part of this model. */
  datatype Metric = BtsssMetric(facility: Facility, outcome: Outcome) | NotifySuccess | NotifyError

  /** A notification template id, named by the row of the table that chooses it. */
  datatype Template = Template(facility: Facility, outcome: Outcome)

  /** The response codes `CODE_SUCCESS`, `CODE_CLAIM_EXISTS` and `CODE_BTSSS_TIMEOUT`. */
  datatype Codes = Codes(success: string, claimExists: string, timeout: string)

  datatype Event =
    | Increment(metric: Metric)
    | Sms(phone: string, template: Template, sender: Facility, claimNumber: Json, apptDate: string)
    | ErrorReport(phoneLastFour: string, template: Template, claimNumber: Json)

  /** `(facility_type || '').downcase == 'oh'`, the rule of `handle_response`. */
  function FacilityOf(facilityType: Option<string>): Facility {
    if Downcase(if facilityType.Some? then facilityType.value else "") == "oh" then Oh else Cie
  }

  /** `'oh'.casecmp?(facility_type)`, the rule of the error path and of the SMS sender. */
  function SenderOf(facilityType: Option<string>): Facility {
    if CaseEq("oh", facilityType) then Oh else Cie
  }

  /**
   * A facility is Oracle Health exactly when its type is the two letters
   * `o`, `h` in either case; a missing type is a CIE facility.
   */
  lemma FacilityIsOh(facilityType: Option<string>)
    ensures FacilityOf(facilityType) == Oh <==>
      facilityType.Some? && |facilityType.value| == 2 &&
      LowerChar(facilityType.value[0]) == 'o' && LowerChar(facilityType.value[1]) == 'h'
    ensures facilityType.None? ==> FacilityOf(facilityType) == Cie
  {
    if facilityType.Some? && |facilityType.value| == 2 {
      var d := Downcase(facilityType.value);
      assert d == "oh" <==> d[0] == 'o' && d[1] == 'h';
    }
  }

  /** The two spellings of the rule pick the same facility for every input. */
  lemma SameFacilityRule(facilityType: Option<string>)
    ensures FacilityOf(facilityType) == SenderOf(facilityType)
  {
    assert Downcase("oh") == "oh" by {
      assert LowerChar('o') == 'o' && LowerChar('h') == 'h';
    }
    if facilityType.None? {
      assert Downcase("") != "oh";
    }
  }

  /** The `case code` part of the table; the first matching `when` wins. */
  function OutcomeOf(code: Json, codes: Codes): Outcome {
    if code == JStr(codes.success) then Success
    else if code == JStr(codes.claimExists) then Duplicate
    else if code == JStr(codes.timeout) then Timeout
    else Failure
  }

  /** What `handle_response` returns: the shortened claim number (nil, a string or a list) and the template. */
  datatype Reply = Reply(claimNumber: Json, template: Template)

  datatype Handled = Handled(reply: Reply, metric: Metric)

  /**
   * `data.claimNumber&.last(4)`: nil stays nil, a string keeps its last four
   * characters and a list its last four items; None when the lookup raises
   * (digging into a non-hash, or a claim number without `last`).
   */
  function ClaimNumberOf(resp: Json): (r: Option<Json>)
    ensures var n := Dig(resp, ["data", "claimNumber"]);
      r.Some? <==> n.Some? && (n.value.JNull? || n.value.JStr? || n.value.JArray?)
    ensures Dig(resp, ["data", "claimNumber"]) == Some(JNull) ==> r == Some(JNull)
  {
    match Dig(resp, ["data", "claimNumber"])
    case Some(JNull) => Some(JNull)
    case Some(JStr(n)) => Some(JStr(Last(n, 4)))
    case Some(JArray(items)) => Some(JArray(Last(items, 4)))
    case _ => None
  }

  /** A claim number is answered by its last four characters, or whole when shorter. */
  lemma ClaimNumberIsSuffix(resp: Json, n: string)
    requires Dig(resp, ["data", "claimNumber"]) == Some(JStr(n))
    ensures ClaimNumberOf(resp).Some? && ClaimNumberOf(resp).value.JStr?
    ensures var c := ClaimNumberOf(resp).value.s;
      |c| == (if |n| < 4 then |n| else 4) && EndsWith(n, c)
  {
  }

  /** A claim number given as a list is answered by its last four items, or whole when shorter. */
  lemma ClaimNumberListSuffix(resp: Json, items: seq<Json>)
    requires Dig(resp, ["data", "claimNumber"]) == Some(JArray(items))
    ensures ClaimNumberOf(resp).Some? && ClaimNumberOf(resp).value.JArray?
    ensures var c := ClaimNumberOf(resp).value.items;
      |c| == (if |items| < 4 then |items| else 4) && items == items[..|items| - |c|] + c
  {
  }

  /**
   * `handle_response`: None when reading the response raises, which
   * `submit_claim` rescues.
   */
  function HandleResponse(resp: Json, facilityType: Option<string>, codes: Codes): (r: Option<Handled>)
    ensures r.Some? <==> ClaimNumberOf(resp).Some? && Dig(resp, ["data", "code"]).Some?
  {
    var claimNumber := ClaimNumberOf(resp);
    var code := Dig(resp, ["data", "code"]);
    if claimNumber.None? || code.None? then None
    else
      var facility := FacilityOf(facilityType);
      var outcome := OutcomeOf(code.value, codes);
      Some(Handled(Reply(claimNumber.value, Template(facility, outcome)), BtsssMetric(facility, outcome)))
  }

  /**
   * Every row of the table pairs a metric with the template of the same
   * facility and outcome; the facility is the one the facility type names,
   * and each response code selects its own row.
   */
  lemma HandleResponseTable(resp: Json, facilityType: Option<string>, codes: Codes)
    requires HandleResponse(resp, facilityType, codes).Some?
    ensures var h := HandleResponse(resp, facilityType, codes).value;
      && h.metric == BtsssMetric(h.reply.template.facility, h.reply.template.outcome)
      && h.reply.template.facility == FacilityOf(facilityType)
      && h.reply.claimNumber == ClaimNumberOf(resp).value
    ensures var h := HandleResponse(resp, facilityType, codes).value;
      var code := Dig(resp, ["data", "code"]).value;
      && (code == JStr(codes.success) ==> h.reply.template.outcome == Success)
      && (code == JStr(codes.claimExists) && code != JStr(codes.success) ==> h.reply.template.outcome == Duplicate)
      && (code == JStr(codes.timeout) && code != JStr(codes.success) && code != JStr(codes.claimExists) ==>
            h.reply.template.outcome == Timeout)
      && (h.reply.template.outcome == Failure <==>
            code != JStr(codes.success) && code != JStr(codes.claimExists) && code != JStr(codes.timeout))
  {
  }

  /**
   * `submit_claim`: the service's response (None when the call raises) is
   * handled; any exception gives no claim number and the error template of
   * the facility, with the error counter.
   */
  function SubmitClaim(resp: Option<Json>, facilityType: Option<string>, codes: Codes): (r: (Reply, seq<Event>))
    ensures |r.1| == 1 && r.1[0].Increment? && r.1[0].metric.BtsssMetric?
    ensures r.0.claimNumber != JNull ==> resp.Some? && HandleResponse(resp.value, facilityType, codes).Some?
    ensures (resp.None? || HandleResponse(resp.value, facilityType, codes).None?) ==> r.0.template.outcome == Failure
  {
    var handled := if resp.Some? then HandleResponse(resp.value, facilityType, codes) else None;
    if handled.Some? then (handled.value.reply, [Increment(handled.value.metric)])
    else
      var facility := SenderOf(facilityType);
      (Reply(JNull, Template(facility, Failure)), [Increment(BtsssMetric(facility, Failure))])
  }

  /**
   * Exactly one counter is incremented per submission, and it names the
   * same row as the template; a failed call falls back to the facility's
   * error template with no claim number.
   */
  lemma SubmitClaimCountsOnce(resp: Option<Json>, facilityType: Option<string>, codes: Codes)
    ensures var (reply, events) := SubmitClaim(resp, facilityType, codes);
      && |events| == 1
      && events[0] == Increment(BtsssMetric(reply.template.facility, reply.template.outcome))
      && reply.template.facility == FacilityOf(facilityType)
    ensures resp.None? ==>
      SubmitClaim(resp, facilityType, codes).0 == Reply(JNull, Template(SenderOf(facilityType), Failure))
  {
    SameFacilityRule(facilityType);
    if resp.Some? && HandleResponse(resp.value, facilityType, codes).Some? {
      HandleResponseTable(resp.value, facilityType, codes);
    }
  }

  /** `mobile_phone.delete('^0-9').last(4)`. */
  function PhoneLastFour(phone: string): (r: string)
    ensures AllDigits(r)
    ensures |r| == if |DigitsOnly(phone)| < 4 then |DigitsOnly(phone)| else 4
    ensures EndsWith(DigitsOnly(phone), r)
  {
    var digits := DigitsOnly(phone);
    var r := Last(digits, 4);
    assert digits[|digits| - |r|..] == r;
    r
  }

  /**
   * `send_notification`: the phone may be missing (nil in Redis), the date
   * may not parse (None), and the SMS call may fail. A failure is reported
   * with the phone's last four digits and re-raised; a missing phone raises
   * again inside the rescue, before anything is reported.
   */
  function SendNotification(phone: Option<string>, apptDate: Option<string>, template: Template,
                            claimNumber: Json, facilityType: Option<string>, smsAccepted: bool): (r: (seq<Event>, bool))
    ensures r.1 <==> phone.None? || apptDate.None? || !smsAccepted
    ensures !r.1 ==> |r.0| == 1 && r.0[0].Sms? && r.0[0].phone == phone.value && r.0[0].template == template
    ensures r.1 && phone.Some? ==> Increment(NotifyError) in r.0 && r.0[0].ErrorReport? && r.0[0].template == template
    ensures phone.None? ==> r.0 == []
  {
    if phone.None? then ([], true)
    else if apptDate.None? || !smsAccepted then
      ([ErrorReport(PhoneLastFour(phone.value), template, claimNumber), Increment(NotifyError)], true)
    else
      ([Sms(phone.value, template, SenderOf(facilityType), claimNumber, apptDate.value)], false)
  }

  /**
   * The worker's inputs: what Redis holds for the check-in, the service's
   * response, the formatted appointment date and whether VA Notify accepted
   * the text.
   */
  datatype Inputs = Inputs(
    mobilePhone: Option<string>,
    facilityType: Option<string>,
    resp: Option<Json>,
    apptDate: Option<string>,
    smsAccepted: bool)

  /** `perform`: the events, and whether the job ends in an exception. */
  function Perform(inp: Inputs, codes: Codes): (r: (seq<Event>, bool))
    ensures r.1 <==> inp.mobilePhone.None? || inp.apptDate.None? || !inp.smsAccepted
    ensures Increment(NotifySuccess) in r.0 <==> !r.1
  {
    var (reply, submitted) := SubmitClaim(inp.resp, inp.facilityType, codes);
    var (notified, raised) :=
      SendNotification(inp.mobilePhone, inp.apptDate, reply.template, reply.claimNumber, inp.facilityType, inp.smsAccepted);
    if raised then (submitted + notified, true)
    else (submitted + notified + [Increment(NotifySuccess)], false)
  }

  /**
   * A run either texts the veteran with the template and claim number the
   * submission chose, from the facility's sender, and counts a notification
   * success, or it raises after reporting; a failed SMS is always reported
   * and counted as a notification error before the exception propagates.
   */
  lemma PerformOutcome(inp: Inputs, codes: Codes)
    ensures var (events, raised) := Perform(inp, codes);
      var (reply, _) := SubmitClaim(inp.resp, inp.facilityType, codes);
      && (raised <==> inp.mobilePhone.None? || inp.apptDate.None? || !inp.smsAccepted)
      && |events| >= 1 && events[0].Increment? && events[0].metric.BtsssMetric?
      && (!raised ==> events == [events[0],
            Sms(inp.mobilePhone.value, reply.template, FacilityOf(inp.facilityType), reply.claimNumber, inp.apptDate.value),
            Increment(NotifySuccess)])
      && (raised && inp.mobilePhone.Some? ==>
            events == [events[0], ErrorReport(PhoneLastFour(inp.mobilePhone.value), reply.template, reply.claimNumber),
                       Increment(NotifyError)])
      && (Increment(NotifySuccess) in events <==> !raised)
  {
    SubmitClaimCountsOnce(inp.resp, inp.facilityType, codes);
    SameFacilityRule(inp.facilityType);
  }
}
