/**
 * The travel-pay claims listing: the claims the client returns are
 * optionally narrowed to one appointment date, and each claim's status is
 * rewritten into its display form.
 */
module TravelPayClaims {
  import opened Wrappers
  import opened Json
  import opened Text

  /** A calendar date as `Date.parse` yields it; the parsing itself is a parameter. */
  type Date = int

  /** What one claim does under the date filter. */
  datatype Check = Keep | Drop | ParseError | TypeError

  /**
   * One claim against the filter date: a nil appointment date is dropped
   * without parsing, a string is parsed and compared, anything else makes
   * `Date.parse` raise a TypeError, which the filter does not rescue.
   */
  function CheckClaim(claim: seq<Field>, date: Date, parse: string -> Option<Date>): Check {
    match At(claim, "appointmentDateTime")
    case JNull => Drop
    case JStr(s) => if parse(s).None? then ParseError else if parse(s).value == date then Keep else Drop
    case _ => TypeError
  }

  /** The outcome of `filter` over some claims: the kept ones, or the first error met. */
  datatype Filtered = Kept(claims: seq<seq<Field>>) | DateError | Raised

  function FilterOn(claims: seq<seq<Field>>, date: Date, parse: string -> Option<Date>): (r: Filtered)
    ensures r.Kept? ==> |r.claims| <= |claims|
    ensures r.Kept? ==> forall i :: 0 <= i < |r.claims| ==> CheckClaim(r.claims[i], date, parse) == Keep
  {
    if |claims| == 0 then Kept([])
    else
      var c := CheckClaim(claims[0], date, parse);
      if c == ParseError then DateError
      else if c == TypeError then Raised
      else
        var rest := FilterOn(claims[1..], date, parse);
        if rest.Kept? && c == Keep then Kept([claims[0]] + rest.claims) else rest
  }

  /** Nothing matching is lost: a fully parsed run keeps every claim on the date. */
  lemma {:induction false} FilterOnComplete(claims: seq<seq<Field>>, date: Date, parse: string -> Option<Date>, i: nat)
    requires i < |claims| && FilterOn(claims, date, parse).Kept?
    requires CheckClaim(claims[i], date, parse) == Keep
    ensures claims[i] in FilterOn(claims, date, parse).claims
  {
    if i > 0 {
      FilterOnComplete(claims[1..], date, parse, i - 1);
    }
  }

  /** The filter works claim by claim, so it keeps the claims' order. */
  lemma {:induction false} FilterOnAppend(a: seq<seq<Field>>, b: seq<seq<Field>>, date: Date, parse: string -> Option<Date>)
    requires FilterOn(a, date, parse).Kept?
    ensures FilterOn(a + b, date, parse) ==
      (if FilterOn(b, date, parse).Kept? then Kept(FilterOn(a, date, parse).claims + FilterOn(b, date, parse).claims)
       else FilterOn(b, date, parse))
  {
    if |a| > 0 {
      assert (a + b)[1..] == a[1..] + b;
      FilterOnAppend(a[1..], b, date, parse);
      var c := CheckClaim(a[0], date, parse);
      if c == Keep && FilterOn(b, date, parse).Kept? {
        assert [a[0]] + FilterOn(a[1..], date, parse).claims + FilterOn(b, date, parse).claims
          == [a[0]] + (FilterOn(a[1..], date, parse).claims + FilterOn(b, date, parse).claims);
      }
    } else {
      assert a + b == b;
    }
  }

  /**
   * `filter_by_date`: None when the filter raises something other than a
   * date error. A blank date, an unparsable one, or any claim date that does
   * not parse leaves the list whole.
   */
  function FilterByDate(dateString: Option<string>, claims: seq<seq<Field>>, parse: string -> Option<Date>)
    : (r: Option<seq<seq<Field>>>)
    ensures !Present(dateString) ==> r == Some(claims)
    ensures Present(dateString) && parse(dateString.value).None? ==> r == Some(claims)
  {
    if !Present(dateString) then Some(claims)
    else
      var date := parse(dateString.value);
      if date.None? then Some(claims)
      else
        match FilterOn(claims, date.value, parse)
        case Kept(kept) => Some(kept)
        case DateError => Some(claims)
        case Raised => None
  }

  /**
   * With a parsed date, the result holds only claims whose appointment
   * falls on it, or is the whole list when some claim date fails to parse.
   */
  lemma FilterByDateOutcome(dateString: Option<string>, claims: seq<seq<Field>>, parse: string -> Option<Date>)
    requires Present(dateString) && parse(dateString.value).Some?
    ensures var date := parse(dateString.value).value;
      match FilterOn(claims, date, parse)
      case Kept(kept) =>
        && FilterByDate(dateString, claims, parse) == Some(kept)
        && (forall i :: 0 <= i < |kept| ==>
              At(kept[i], "appointmentDateTime").JStr? &&
              parse(At(kept[i], "appointmentDateTime").s) == Some(date))
      case DateError => FilterByDate(dateString, claims, parse) == Some(claims)
      case Raised => FilterByDate(dateString, claims, parse).None?
  {
    var date := parse(dateString.value).value;
    var f := FilterOn(claims, date, parse);
    if f.Kept? {
      forall i | 0 <= i < |f.claims|
        ensures At(f.claims[i], "appointmentDateTime").JStr? &&
                parse(At(f.claims[i], "appointmentDateTime").s) == Some(date)
      {
        assert CheckClaim(f.claims[i], date, parse) == Keep;
      }
    }
  }

  /**
   * `sc['claimStatus'] = sc['claimStatus'].underscore.titleize`, with the
   * two ActiveSupport inflections as one parameter; a status that is not a
   * string raises.
   */
  function Restatus(claim: seq<Field>, display: string -> string): (r: Option<seq<Field>>)
    ensures r.Some? <==> At(claim, "claimStatus").JStr?
  {
    var status := At(claim, "claimStatus");
    if status.JStr? then Some(Put(claim, "claimStatus", JStr(display(status.s)))) else None
  }

  /** Only the status changes: it reads its display form, every other key reads as before. */
  lemma RestatusOnlyStatus(claim: seq<Field>, display: string -> string, k: string)
    requires At(claim, "claimStatus").JStr?
    ensures var c := Restatus(claim, display).value;
      && At(c, "claimStatus") == JStr(display(At(claim, "claimStatus").s))
      && (k != "claimStatus" ==> (Has(c, k) <==> Has(claim, k)) && At(c, k) == At(claim, k))
  {
    if k != "claimStatus" {
      PutOther(claim, "claimStatus", JStr(display(At(claim, "claimStatus").s)), k);
    }
  }

  /**
   * `get_claims`: the client's claims, filtered by `appt_datetime`, each
   * with its status rewritten, returned as `{data: claims}`; None when the
   * filter or a rewrite raises.
   */
  method GetClaims(rawClaims: seq<seq<Field>>, apptDatetime: Option<string>,
                   parse: string -> Option<Date>, display: string -> string)
    returns (r: Option<seq<Field>>)
    ensures FilterByDate(apptDatetime, rawClaims, parse).None? ==> r.None?
    ensures FilterByDate(apptDatetime, rawClaims, parse).Some? ==>
      var claims := FilterByDate(apptDatetime, rawClaims, parse).value;
      && (r.Some? <==> forall i :: 0 <= i < |claims| ==> At(claims[i], "claimStatus").JStr?)
      && (r.Some? ==>
            |r.value| == 1 && r.value[0].key == "data" && r.value[0].value.JArray? &&
            |r.value[0].value.items| == |claims| &&
            forall i :: 0 <= i < |claims| ==>
              r.value[0].value.items[i] == JObject(Restatus(claims[i], display).value))
  {
    var filtered := FilterByDate(apptDatetime, rawClaims, parse);
    if filtered.None? {
      return None;
    }
    var claims := filtered.value;
    var out: seq<Json> := [];
    var i := 0;
    while i < |claims|
      invariant 0 <= i <= |claims|
      invariant |out| == i
      invariant forall j :: 0 <= j < i ==> At(claims[j], "claimStatus").JStr?
      invariant forall j :: 0 <= j < i ==> out[j] == JObject(Restatus(claims[j], display).value)
    {
      var sc := Restatus(claims[i], display);
      if sc.None? {
        return None;
      }
      out := out + [JObject(sc.value)];
      i := i + 1;
    }
    return Some([Field("data", JArray(out))]);
  }
}
