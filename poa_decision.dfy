/**
 * The decision on a power-of-attorney request: an immutable value with a
 * status, the representative who decided, a declined reason and a
 * creation time.
 */
module PoaDecision {
  import opened Wrappers
  import opened Json

  const Accepted: string := "Accepted"
  const Declined: string := "Declined"

  /** `Statuses::ALL`. */
  const Statuses: seq<string> := [Accepted, Declined]

  datatype Representative = Representative(firstName: Json, lastName: Json, email: Json)

  datatype Decision = Decision(status: Json, representative: Representative, declinedReason: Json, createdAt: int)

  predicate IsAccepted(d: Decision) {
    d.status == JStr(Accepted)
  }

  predicate IsDeclined(d: Decision) {
    d.status == JStr(Declined)
  }

  /**
   * A decision is accepted or declined exactly when its status is one of
   * `Statuses::ALL`, and never both.
   */
  lemma StatusesPartition(d: Decision)
    ensures !(IsAccepted(d) && IsDeclined(d))
    ensures IsAccepted(d) || IsDeclined(d) <==> d.status.JStr? && d.status.s in Statuses
  {
    assert Accepted != Declined by {
      assert Accepted[0] != Declined[0];
    }
  }

  /** Every key of `fields` is one of `keys`. */
  predicate KeysWithin(fields: seq<Field>, keys: seq<string>) {
    forall i :: 0 <= i < |fields| ==> fields[i].key in keys
  }

  /** The keyword arguments a `Data.define` member list accepts: each member given, nothing else. */
  predicate FitsMembers(fields: seq<Field>, members: seq<string>) {
    KeysWithin(fields, members) && forall m :: m in members ==> Has(fields, m)
  }

  const RepresentativeMembers: seq<string> := ["first_name", "last_name", "email"]

  /** The members `build` leaves to the caller's attributes: `representative` and `created_at` it supplies. */
  const DecisionMembers: seq<string> := ["status", "declined_reason", "created_at"]

  datatype BuildError = BadRepresentative | BadAttributes

  /**
   * `build`: the `representative` entry is removed from the caller's
   * attributes (the second component, whatever happens next) and becomes
   * a Representative; the rest, stamped with `now` as `created_at`, makes
   * the decision. A missing or unknown keyword raises.
   */
  function Build(attrs: seq<Field>, now: int): (r: (Result<Decision, BuildError>, seq<Field>))
    ensures r.1 == Delete(attrs, "representative")
  {
    var rep := At(attrs, "representative");
    var rest := Delete(attrs, "representative");
    if !rep.JObject? || !FitsMembers(rep.fields, RepresentativeMembers) then (Err(BadRepresentative), rest)
    else if !KeysWithin(rest, DecisionMembers) || !Has(rest, "status") || !Has(rest, "declined_reason") then
      (Err(BadAttributes), rest)
    else
      var representative := Representative(At(rep.fields, "first_name"), At(rep.fields, "last_name"), At(rep.fields, "email"));
      (Ok(Decision(At(rest, "status"), representative, At(rest, "declined_reason"), now)), rest)
  }

  /**
   * A built decision carries the current time (a `created_at` among the
   * attributes is overridden), the status and reason given, and the
   * representative made from the sub-hash.
   */
  lemma BuildStampsNow(attrs: seq<Field>, now: int)
    requires Build(attrs, now).0.Ok?
    ensures var d := Build(attrs, now).0.value;
      && d.createdAt == now
      && d.status == At(attrs, "status") && d.declinedReason == At(attrs, "declined_reason")
      && d.representative == Representative(
           At(At(attrs, "representative").fields, "first_name"),
           At(At(attrs, "representative").fields, "last_name"),
           At(At(attrs, "representative").fields, "email"))
  {
    DeleteOther(attrs, "representative", "status");
    DeleteOther(attrs, "representative", "declined_reason");
  }

  /** The caller's attributes lose `representative` and keep every other entry. */
  lemma BuildDeletesRepresentative(attrs: seq<Field>, now: int, k: string)
    requires k != "representative"
    ensures !Has(Build(attrs, now).1, "representative")
    ensures Has(Build(attrs, now).1, k) <==> Has(attrs, k)
    ensures At(Build(attrs, now).1, k) == At(attrs, k)
  {
    DeleteOther(attrs, "representative", k);
  }

  /** Without a representative hash, nothing is built. */
  lemma BuildNeedsRepresentative(attrs: seq<Field>, now: int)
    requires !Has(attrs, "representative")
    ensures Build(attrs, now).0 == Err(BadRepresentative)
  {
  }
}
