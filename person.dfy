/**
 * The VA Profile person model: built from a decoded response body, with
 * the class-level answers the profile-information service asks of it.
 */
module Person {
  import opened Wrappers
  import opened Json
  import opened Text
  import ProfileService

  /** The nested models' own `build_from`, one per collection. */
  datatype Builders = Builders(address: Json -> Json, email: Json -> Json, telephone: Json -> Json, permission: Json -> Json)

  datatype Person = Person(
    addresses: seq<Json>,
    createdAt: Json,
    emails: seq<Json>,
    sourceDate: Json,
    telephones: seq<Json>,
    permissions: seq<Json>,
    transactionId: Json,
    updatedAt: Json,
    vet360Id: Json)

  /** `items.map(&build)`: one built element per item, in order. */
  function MapBuild(items: seq<Json>, build: Json -> Json): (r: seq<Json>)
    ensures |r| == |items|
    ensures forall i :: 0 <= i < |items| ==> r[i] == build(items[i])
  {
    if |items| == 0 then [] else [build(items[0])] + MapBuild(items[1..], build)
  }

  /** `body[key]&.map { ... } || []`: a missing or nil collection is empty; one that is not a list raises. */
  function Collection(body: seq<Field>, key: string, build: Json -> Json): (r: Option<seq<Json>>)
    ensures At(body, key).JNull? ==> r == Some([])
    ensures At(body, key).JArray? ==> r.Some? && |r.value| == |At(body, key).items|
    ensures r.None? <==> !At(body, key).JNull? && !At(body, key).JArray?
  {
    match At(body, key)
    case JNull => Some([])
    case JArray(items) => Some(MapBuild(items, build))
    case _ => None
  }

  /** `Person.build_from`: a nil body reads as `{}`. */
  function BuildFrom(body: Option<seq<Field>>, b: Builders): Option<Person> {
    var fields := if body.Some? then body.value else [];
    var addresses := Collection(fields, "addresses", b.address);
    var emails := Collection(fields, "emails", b.email);
    var telephones := Collection(fields, "telephones", b.telephone);
    var permissions := Collection(fields, "permissions", b.permission);
    if addresses.None? || emails.None? || telephones.None? || permissions.None? then None
    else Some(Person(
      addresses := addresses.value,
      createdAt := At(fields, "create_date"),
      emails := emails.value,
      sourceDate := At(fields, "source_date"),
      telephones := telephones.value,
      permissions := permissions.value,
      transactionId := At(fields, "trx_audit_id"),
      updatedAt := At(fields, "update_date"),
      vet360Id := At(fields, "vet360_id")))
  }

  /** A nil body builds the same person as an empty one: no collections and nil scalars. */
  lemma BuildFromNil(b: Builders)
    ensures BuildFrom(None, b) == BuildFrom(Some([]), b)
    ensures BuildFrom(None, b) == Some(Person([], JNull, [], JNull, [], [], JNull, JNull, JNull))
  {
  }

  /**
   * The renames: `create_date`, `update_date` and `trx_audit_id` feed
   * `created_at`, `updated_at` and `transaction_id`; `source_date` and
   * `vet360_id` are copied; each collection is built element by element in
   * order, and is empty when the body lacks it.
   */
  lemma BuildFromFields(body: seq<Field>, b: Builders)
    requires BuildFrom(Some(body), b).Some?
    ensures var p := BuildFrom(Some(body), b).value;
      && p.createdAt == At(body, "create_date")
      && p.updatedAt == At(body, "update_date")
      && p.transactionId == At(body, "trx_audit_id")
      && p.sourceDate == At(body, "source_date")
      && p.vet360Id == At(body, "vet360_id")
      && (!Has(body, "addresses") ==> p.addresses == [])
      && (At(body, "addresses").JArray? ==>
            |p.addresses| == |At(body, "addresses").items| &&
            forall i :: 0 <= i < |p.addresses| ==> p.addresses[i] == b.address(At(body, "addresses").items[i]))
      && (At(body, "emails").JArray? ==>
            |p.emails| == |At(body, "emails").items| &&
            forall i :: 0 <= i < |p.emails| ==> p.emails[i] == b.email(At(body, "emails").items[i]))
      && (At(body, "telephones").JArray? ==>
            |p.telephones| == |At(body, "telephones").items| &&
            forall i :: 0 <= i < |p.telephones| ==> p.telephones[i] == b.telephone(At(body, "telephones").items[i]))
      && (At(body, "permissions").JArray? ==>
            |p.permissions| == |At(body, "permissions").items| &&
            forall i :: 0 <= i < |p.permissions| ==> p.permissions[i] == b.permission(At(body, "permissions").items[i]))
  {
  }

  const BioPath: string := "profile"

  /** `transaction_status_path`: `status/<id>`, whoever the user. */
  function TransactionStatusPath(user: ProfileService.User, transactionId: string): (r: string)
    ensures StartsWith(r, "status/")
  {
    "status/" + transactionId
  }

  /** The path names the transaction and nothing about the user: the id reads back after the prefix. */
  lemma TransactionStatusPathId(u1: ProfileService.User, u2: ProfileService.User, id: string)
    ensures TransactionStatusPath(u1, id) == TransactionStatusPath(u2, id)
    ensures TransactionStatusPath(u1, id)[|"status/"|..] == id
  {
  }

  /** `send_change_notifications?` (correctly spelled) is false. */
  const SendChangeNotifications: bool := false

  /**
   * The answer to `send_change_notifcations?` (as the service spells it):
   * the person model defines only the correctly spelled predicate, so it
   * has none.
   */
  const MisspelledNotifies: Option<bool> := None

  /** `contact_info_attr` is nil. */
  const ContactInfo: ProfileService.Record := ProfileService.Record(None, None)

  /**
   * A person record cannot be written with `:update`: its nil
   * `contact_info_attr` makes the verb reassignment raise, whatever the
   * cache holds, once the user has an identifier.
   */
  lemma PersonUpdateRaises(u: ProfileService.User, cachedId: string -> Option<int>, pluralize: string -> string,
                           perform: (ProfileService.Verb, string) -> Option<ProfileService.Transaction>)
    requires u.idmeUuid.Some? || u.logingovUuid.Some?
    ensures ProfileService.CreateOrUpdate(u, ProfileService.Update, ContactInfo, cachedId, pluralize, perform).result
      == Err(ProfileService.InvalidRecord)
  {
    ProfileService.IcnPresentIffUuid(u);
  }
}
