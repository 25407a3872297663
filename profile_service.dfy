/**
 * The VA Profile profile-information service: the identifier a user is
 * known by, the request path built from it, the mapping of client errors
 * to person responses, the HTTP verb and path of a contact-information
 * write, and the bookkeeping that sends change notifications at most once
 * per transaction (OldEmail and TransactionNotification rows, queued
 * notification e-mails).
 */
module ProfileService {
  import opened Wrappers
  import opened Json
  import opened Text

  const IdmeSuffix: string := "^PN^200VIDM^USDVA"
  const LogingovSuffix: string := "^PN^200VLGN^USDVA"

  /** The parts of the signed-in user the service reads; a nil uuid is None, an empty one is a string. */
  datatype User = User(idmeUuid: Option<string>, logingovUuid: Option<string>, vaProfileEmail: Option<string>)

  /** Why a call ends in `handle_error`. */
  datatype ServiceError =
    | MissingIcn        // `icn_with_aaid_present!`
    | InvalidRecord     // `reassign_http_verb` with a nil `contact_info_attr`
    | MissingAttr       // `nil.pluralize` for a record without attr or permission type
    | RequestFailed     // the request itself raised
    | UndefinedMethod   // the model does not answer `send_change_notifcations?`
    | ArgumentError     // `old_email(transaction_id)`: a positional argument to a keyword-only method

  /** `icn_with_aaid`: the ID.me uuid if there is one, else the Login.gov uuid, each with its suffix. */
  function IcnWithAaid(u: User): (r: Option<string>)
    ensures r.Some? <==> u.idmeUuid.Some? || u.logingovUuid.Some?
  {
    if u.idmeUuid.Some? then Some(u.idmeUuid.value + IdmeSuffix)
    else if u.logingovUuid.Some? then Some(u.logingovUuid.value + LogingovSuffix)
    else None
  }

  /**
   * The identifier says which uuid it came from: it ends in the ID.me
   * suffix exactly when the user has an ID.me uuid, and what precedes the
   * suffix is that uuid.
   */
  lemma IcnWithAaidSource(u: User)
    requires IcnWithAaid(u).Some?
    ensures var icn := IcnWithAaid(u).value;
      && |icn| >= 17
      && (EndsWith(icn, IdmeSuffix) <==> u.idmeUuid.Some?)
      && icn[..|icn| - 17] == (if u.idmeUuid.Some? then u.idmeUuid.value else u.logingovUuid.value)
  {
    var icn := IcnWithAaid(u).value;
    if u.idmeUuid.Some? {
      assert icn[|icn| - 17..] == IdmeSuffix;
    } else {
      assert icn[|icn| - 17..] == LogingovSuffix;
      assert LogingovSuffix[8] != IdmeSuffix[8];
    }
  }

  /** `icn_with_aaid_present!` passes exactly when the user has either uuid: the suffix is never blank. */
  lemma IcnPresentIffUuid(u: User)
    ensures Present(IcnWithAaid(u)) <==> u.idmeUuid.Some? || u.logingovUuid.Some?
  {
    var icn := IcnWithAaid(u);
    if icn.Some? {
      assert icn.value[|icn.value| - 1] == 'A';
    }
  }

  /** `path`: the VA root OID, a slash, and the URL-encoded identifier; `encode` stands for `ERB::Util.url_encode`. */
  function Path(oid: string, encode: string -> string, icn: string): string {
    oid + "/" + encode(icn)
  }

  /** With a slash-free OID, the path splits back at its first slash into the OID and the encoded identifier. */
  lemma PathSplits(oid: string, encode: string -> string, icn: string)
    requires forall i :: 0 <= i < |oid| ==> oid[i] != '/'
    ensures var p := Path(oid, encode, icn);
      IndexOf(p, '/') == |oid| && p[..|oid|] == oid && p[|oid| + 1..] == encode(icn)
  {
    assert Path(oid, encode, icn) == oid + ['/'] + encode(icn);
    IndexOfAfter(oid, encode(icn), '/');
  }

  /** What the person request answers: a decoded body, a client error with its status, or a failure. */
  datatype Fetch = Fetched(body: Json) | ClientError(status: int) | Failed

  /** What `get_response` returns: the response built from the body, a person response without a person, nil, or the handled error. */
  datatype GetOutcome = Built(body: Json) | PersonResponse(status: int) | NoResponse | Handled(error: ServiceError)

  /** `get_response`: the request is made only for a present identifier; client errors in 400-499 become person responses. */
  function GetResponse(u: User, oid: string, encode: string -> string, fetch: string -> Fetch): (r: GetOutcome)
    ensures r == Handled(MissingIcn) <==> !Present(IcnWithAaid(u))
    ensures r.PersonResponse? ==> 400 <= r.status < 500
    ensures r.Built? ==> fetch(Path(oid, encode, IcnWithAaid(u).value)) == Fetched(r.body)
  {
    var icn := IcnWithAaid(u);
    if !Present(icn) then Handled(MissingIcn)
    else
      match fetch(Path(oid, encode, icn.value))
      case Fetched(body) => Built(body)
      case ClientError(status) =>
        if status == 404 then PersonResponse(404)
        else if 400 <= status < 500 then PersonResponse(status)
        else NoResponse
      case Failed => Handled(RequestFailed)
  }

  /**
   * A client error gives a person response with its own status exactly
   * when that status is in 400-499, and nil otherwise.
   */
  lemma GetResponseClientErrors(u: User, oid: string, encode: string -> string, fetch: string -> Fetch)
    requires Present(IcnWithAaid(u)) && fetch(Path(oid, encode, IcnWithAaid(u).value)).ClientError?
    ensures var status := fetch(Path(oid, encode, IcnWithAaid(u).value)).status;
      && (GetResponse(u, oid, encode, fetch).PersonResponse? <==> 400 <= status < 500)
      && (GetResponse(u, oid, encode, fetch).PersonResponse? ==> GetResponse(u, oid, encode, fetch).status == status)
      && (!(400 <= status < 500) ==> GetResponse(u, oid, encode, fetch) == NoResponse)
  {
  }

  /**
   * Without either uuid no request is made: every answer to it gives the
   * same handled error. With one, only the answer for the user's path matters.
   */
  lemma GetResponseAsksPath(u: User, oid: string, encode: string -> string, fetch1: string -> Fetch, fetch2: string -> Fetch)
    ensures u.idmeUuid.None? && u.logingovUuid.None? ==> GetResponse(u, oid, encode, fetch1) == Handled(MissingIcn)
    ensures IcnWithAaid(u).Some? && fetch1(Path(oid, encode, IcnWithAaid(u).value)) == fetch2(Path(oid, encode, IcnWithAaid(u).value))
      ==> GetResponse(u, oid, encode, fetch1) == GetResponse(u, oid, encode, fetch2)
  {
    IcnPresentIffUuid(u);
  }

  datatype Verb = Update | Put | Post

  /** The parts of a contact-information record the write reads. */
  datatype Record = Record(permissionType: Option<string>, contactInfoAttr: Option<string>)

  /**
   * `reassign_http_verb`: a record without an attr raises; otherwise PUT
   * when the cached contact information has an id for that attr, else POST.
   * `cachedId` stands for `contact_info.public_send(attr)&.id`.
   */
  function ReassignHttpVerb(attr: Option<string>, cachedId: string -> Option<int>): (r: Result<Verb, ServiceError>)
    ensures r.Err? <==> attr.None?
    ensures r.Err? ==> r.error == InvalidRecord
    ensures r.Ok? ==> r.value != Update && (r.value == Put <==> cachedId(attr.value).Some?)
  {
    if attr.None? then Err(InvalidRecord)
    else if cachedId(attr.value).Some? then Ok(Put)
    else Ok(Post)
  }

  /** The verb `create_or_update_info` sends: `:update` is reassigned, any other verb is kept. */
  function ChosenVerb(verb: Verb, record: Record, cachedId: string -> Option<int>): (r: Result<Verb, ServiceError>)
    ensures r.Ok? ==> r.value != Update
    ensures verb != Update ==> r == Ok(verb)
  {
    if verb == Update then ReassignHttpVerb(record.contactInfoAttr, cachedId) else Ok(verb)
  }

  /** `update_path`: `permissions` for a record with a permission type, else the plural of its attr; a nil attr raises. */
  function UpdatePath(record: Record, pluralize: string -> string): (r: Option<string>)
    ensures r.None? <==> !Present(record.permissionType) && record.contactInfoAttr.None?
  {
    if Present(record.permissionType) then Some("permissions")
    else if record.contactInfoAttr.Some? then Some(pluralize(record.contactInfoAttr.value))
    else None
  }

  /** The transaction a write's response carries. */
  datatype Transaction = Transaction(id: string, received: bool)

  /** What a write returns, and the OldEmail e-mail it records for the transaction, if any. */
  datatype WriteOutcome = WriteOutcome(result: Result<Transaction, ServiceError>, oldEmail: Option<string>)

  /**
   * `create_or_update_info`: the identifier check, then the verb, then the
   * path, then the request (`perform`). An OldEmail is recorded only for a
   * PUT of an e-mail record, when the user has a present profile e-mail and
   * the transaction was received.
   */
  function CreateOrUpdate(u: User, verb: Verb, record: Record, cachedId: string -> Option<int>,
                          pluralize: string -> string, perform: (Verb, string) -> Option<Transaction>)
    : (r: WriteOutcome)
    ensures r.oldEmail.Some? ==> r.result.Ok?
  {
    if !Present(IcnWithAaid(u)) then WriteOutcome(Err(MissingIcn), None)
    else
      var v := ChosenVerb(verb, record, cachedId);
      if v.Err? then WriteOutcome(Err(v.error), None)
      else
        var path := UpdatePath(record, pluralize);
        if path.None? then WriteOutcome(Err(MissingAttr), None)
        else
          var t := perform(v.value, path.value);
          if t.None? then WriteOutcome(Err(RequestFailed), None)
          else if v.value == Put && record.contactInfoAttr == Some("email") && Present(u.vaProfileEmail) && t.value.received then
            WriteOutcome(Ok(t.value), Some(u.vaProfileEmail.value))
          else WriteOutcome(Ok(t.value), None)
  }

  /**
   * The OldEmail rule: an e-mail is recorded exactly when the write went
   * through as a PUT of an e-mail record, with a present profile e-mail and a
   * received transaction, and it is that profile e-mail.
   */
  lemma OldEmailRule(u: User, verb: Verb, record: Record, cachedId: string -> Option<int>,
                     pluralize: string -> string, perform: (Verb, string) -> Option<Transaction>)
    ensures var r := CreateOrUpdate(u, verb, record, cachedId, pluralize, perform);
      r.oldEmail.Some? <==>
        && r.result.Ok? && r.result.value.received
        && ChosenVerb(verb, record, cachedId) == Ok(Put)
        && record.contactInfoAttr == Some("email")
        && Present(u.vaProfileEmail)
    ensures var r := CreateOrUpdate(u, verb, record, cachedId, pluralize, perform);
      r.oldEmail.Some? ==> r.oldEmail == u.vaProfileEmail
  {
  }

  /**
   * The request a write sends: for a user with an identifier and a record
   * with a path, the chosen verb and path, with `:update` becoming PUT
   * exactly when the cache knows the record.
   */
  lemma WriteRequest(u: User, record: Record, cachedId: string -> Option<int>,
                     pluralize: string -> string, perform: (Verb, string) -> Option<Transaction>)
    requires Present(IcnWithAaid(u)) && record.contactInfoAttr.Some?
    requires perform(ChosenVerb(Update, record, cachedId).value, UpdatePath(record, pluralize).value).Some?
    ensures CreateOrUpdate(u, Update, record, cachedId, pluralize, perform).result ==
      Ok(perform(if cachedId(record.contactInfoAttr.value).Some? then Put else Post,
                 if Present(record.permissionType) then "permissions" else pluralize(record.contactInfoAttr.value)).value)
  {
  }

  /** A POST never records an OldEmail, nor does an `:update` the cache does not know. */
  lemma PostKeepsNoOldEmail(u: User, verb: Verb, record: Record, cachedId: string -> Option<int>,
                            pluralize: string -> string, perform: (Verb, string) -> Option<Transaction>)
    requires verb == Post || (verb == Update && record.contactInfoAttr.Some? && cachedId(record.contactInfoAttr.value).None?)
    ensures CreateOrUpdate(u, verb, record, cachedId, pluralize, perform).oldEmail.None?
  {
  }

  /** `EMAIL_PERSONALISATIONS`. */
  const EmailPersonalisations: map<string, string> := map[
    "address" := "Address",
    "residence_address" := "Home address",
    "correspondence_address" := "Mailing address",
    "email" := "Email address",
    "phone" := "Phone number",
    "home_phone" := "Home phone number",
    "mobile_phone" := "Mobile phone number",
    "work_phone" := "Work phone number"
  ]

  /** `get_email_personalisation`: the label of the changed field, nil for an unknown one. */
  function Personalisation(field: string): (r: Json)
    ensures r.JObject? && |r.fields| == 1 && r.fields[0].key == "contact_info"
    ensures r.fields[0].value.JStr? <==> field in EmailPersonalisations
  {
    JObject([Field("contact_info", if field in EmailPersonalisations then JStr(EmailPersonalisations[field]) else JNull)])
  }

  /** One queued notification e-mail (the template id is a fixed setting). */
  datatype EmailJob = EmailJob(email: string, personalisation: Json)

  /** The status of a transaction as the status request reports it. */
  datatype TransactionStatus = TransactionStatus(id: string, completedSuccess: bool, newEmail: Option<string>, changedField: string)

  /** The rows the service creates and destroys, and the e-mails it queues. */
  datatype Tables = Tables(oldEmails: map<string, string>, notified: set<string>, jobs: seq<EmailJob>)

  /**
   * What `send_change_notifications` evidently intends: nothing for a
   * successfully completed or already notified transaction, nor when there
   * is no address to notify (the OldEmail of the transaction for an e-mail
   * change, the profile e-mail otherwise). Else that address is notified and
   * the transaction marked; an e-mail change also notifies the new address
   * and destroys its OldEmail.
   */
  function Notify(t: Tables, profileEmail: Option<string>, s: TransactionStatus): (r: Tables)
    ensures r != t ==> s.id !in t.notified && s.id in r.notified && t.jobs < r.jobs
  {
    if s.completedSuccess || s.id in t.notified then t
    else
      var emailChange := Present(s.newEmail);
      var address := if emailChange then (if s.id in t.oldEmails then Some(t.oldEmails[s.id]) else None) else profileEmail;
      if address.None? then t
      else
        var p := Personalisation(s.changedField);
        var jobs := t.jobs + [EmailJob(address.value, p)];
        if !emailChange then Tables(t.oldEmails, t.notified + {s.id}, jobs)
        else Tables(t.oldEmails - {s.id}, t.notified + {s.id}, jobs + [EmailJob(s.newEmail.value, p)])
  }

  /** The address the intended `send_change_notifications` writes to, if any. */
  function NotifyAddress(t: Tables, profileEmail: Option<string>, s: TransactionStatus): Option<string> {
    if Present(s.newEmail) then (if s.id in t.oldEmails then Some(t.oldEmails[s.id]) else None) else profileEmail
  }

  /**
   * A notification pass of the intended rule happens exactly when the
   * transaction is neither completed successfully nor already notified and
   * there is an address; it marks the transaction and only appends e-mails:
   * the address first, then, for an e-mail change, the new address.
   */
  lemma NotifyOutcome(t: Tables, profileEmail: Option<string>, s: TransactionStatus)
    ensures Notify(t, profileEmail, s) != t <==>
      !s.completedSuccess && s.id !in t.notified && NotifyAddress(t, profileEmail, s).Some?
    ensures var r := Notify(t, profileEmail, s);
      r != t ==>
        && r.notified == t.notified + {s.id}
        && |r.jobs| > |t.jobs| && r.jobs[..|t.jobs|] == t.jobs
        && r.jobs[|t.jobs|] == EmailJob(NotifyAddress(t, profileEmail, s).value, Personalisation(s.changedField))
        && (Present(s.newEmail) ==>
              |r.jobs| == |t.jobs| + 2 && r.jobs[|t.jobs| + 1].email == s.newEmail.value &&
              r.oldEmails == t.oldEmails - {s.id})
        && (!Present(s.newEmail) ==> |r.jobs| == |t.jobs| + 1 && r.oldEmails == t.oldEmails)
  {
    var r := Notify(t, profileEmail, s);
    if !s.completedSuccess && s.id !in t.notified && NotifyAddress(t, profileEmail, s).Some? {
      assert s.id in r.notified;
    }
  }

  /** At most one notification pass per transaction under the intended rule: a later one for it changes nothing. */
  lemma NotifyAtMostOnce(t: Tables, profileEmail: Option<string>, s: TransactionStatus,
                         laterEmail: Option<string>, later: TransactionStatus)
    requires later.id == s.id && Notify(t, profileEmail, s) != t
    ensures Notify(Notify(t, profileEmail, s), laterEmail, later) == Notify(t, profileEmail, s)
  {
    NotifyOutcome(t, profileEmail, s);
  }

  /**
   * `send_change_notifications` as written: for an e-mail change it calls
   * `old_email(transaction_id)` with a positional argument, while
   * `old_email` takes only the keyword `transaction_id:`, so the call raises
   * ArgumentError before anything is queued, created or destroyed.
   */
  function NotifyAsWritten(t: Tables, profileEmail: Option<string>, s: TransactionStatus): (r: Result<Tables, ServiceError>)
    ensures r.Err? <==> !s.completedSuccess && s.id !in t.notified && Present(s.newEmail)
    ensures r.Err? ==> r.error == ArgumentError
    ensures r.Ok? ==> r.value.oldEmails == t.oldEmails && |r.value.jobs| <= |t.jobs| + 1
  {
    if s.completedSuccess || s.id in t.notified then Ok(t)
    else if Present(s.newEmail) then Err(ArgumentError)
    else if profileEmail.None? then Ok(t)
    else Ok(Tables(t.oldEmails, t.notified + {s.id}, t.jobs + [EmailJob(profileEmail.value, Personalisation(s.changedField))]))
  }

  /**
   * The code as written agrees with the intended rule except on a pending
   * e-mail change, where it raises instead of notifying.
   */
  lemma NotifyAsWrittenAgrees(t: Tables, profileEmail: Option<string>, s: TransactionStatus)
    ensures NotifyAsWritten(t, profileEmail, s).Ok? ==> NotifyAsWritten(t, profileEmail, s).value == Notify(t, profileEmail, s)
  {
  }

  /**
   * A pending e-mail change with its OldEmail on file: the intended rule
   * queues two e-mails and destroys the OldEmail; the code as written raises
   * and the tables stay as they were.
   */
  lemma EmailChangeRaises()
    ensures var t := Tables(map["tx1" := "old@example.com"], {}, []);
      var s := TransactionStatus("tx1", false, Some("new@example.com"), "email");
      && NotifyAsWritten(t, None, s) == Err(ArgumentError)
      && |Notify(t, None, s).jobs| == 2 && "tx1" !in Notify(t, None, s).oldEmails
  {
    var s := TransactionStatus("tx1", false, Some("new@example.com"), "email");
    assert s.newEmail.value[0] == 'n';
  }

  /** At most one notification pass per transaction for the code as written: once one has happened, a later one changes nothing. */
  lemma NotifyAsWrittenAtMostOnce(t: Tables, profileEmail: Option<string>, s: TransactionStatus,
                                  laterEmail: Option<string>, later: TransactionStatus)
    requires later.id == s.id && NotifyAsWritten(t, profileEmail, s).Ok? && NotifyAsWritten(t, profileEmail, s).value != t
    ensures NotifyAsWritten(NotifyAsWritten(t, profileEmail, s).value, laterEmail, later) == NotifyAsWritten(t, profileEmail, s)
  {
  }

  /**
   * The service for one user, holding the rows it writes: OldEmail
   * (transaction id to previous e-mail), TransactionNotification (the
   * notified transaction ids) and the queued notification e-mails.
   */
  class Service {
    const user: User
    var oldEmails: map<string, string>
    var notified: set<string>
    var jobs: seq<EmailJob>

    function State(): Tables
      reads this
    {
      Tables(oldEmails, notified, jobs)
    }

    constructor(user: User, tables: Tables)
      ensures this.user == user && State() == tables
    {
      this.user := user;
      oldEmails := tables.oldEmails;
      notified := tables.notified;
      jobs := tables.jobs;
    }

    /** `send_change_notifications` as written; `raised` is the error it raises, with nothing changed. */
    method SendChangeNotifications(s: TransactionStatus) returns (raised: Option<ServiceError>)
      modifies this
      ensures var n := NotifyAsWritten(old(State()), user.vaProfileEmail, s);
        && raised == (if n.Err? then Some(n.error) else None)
        && State() == (if n.Ok? then n.value else old(State()))
    {
      if s.completedSuccess || s.id in notified {
        return None;
      }
      var emailTransaction := Present(s.newEmail);
      if emailTransaction {
        return Some(ArgumentError);
      }
      var notifyEmail := user.vaProfileEmail;
      if notifyEmail.None? {
        return None;
      }
      jobs := jobs + [EmailJob(notifyEmail.value, Personalisation(s.changedField))];
      notified := notified + {s.id};
      raised := None;
    }

    /** `create_or_update_info`: the write, recording the OldEmail row its rule asks for. */
    method CreateOrUpdateInfo(verb: Verb, record: Record, cachedId: string -> Option<int>,
                              pluralize: string -> string, perform: (Verb, string) -> Option<Transaction>)
      returns (r: Result<Transaction, ServiceError>)
      modifies this
      ensures r == CreateOrUpdate(user, verb, record, cachedId, pluralize, perform).result
      ensures var e := CreateOrUpdate(user, verb, record, cachedId, pluralize, perform).oldEmail;
        oldEmails == if e.Some? then old(oldEmails)[r.value.id := e.value] else old(oldEmails)
      ensures notified == old(notified) && jobs == old(jobs)
    {
      var outcome := CreateOrUpdate(user, verb, record, cachedId, pluralize, perform);
      r := outcome.result;
      if outcome.oldEmail.Some? {
        oldEmails := oldEmails[r.value.id := outcome.oldEmail.value];
      }
    }

    /**
     * `get_transaction_status`: the status is fetched from the model's
     * status path; then the model is asked `send_change_notifcations?`
     * (spelled so), where `notifies` is its answer and None means the model
     * does not define it, which raises. Only a true answer sends
     * notifications, and a raise while sending is handled like any other.
     */
    method GetTransactionStatus(transactionId: string, statusPath: string -> string, notifies: Option<bool>,
                                perform: string -> Option<TransactionStatus>)
      returns (r: Result<TransactionStatus, ServiceError>)
      modifies this
      ensures !Present(IcnWithAaid(user)) ==> r == Err(MissingIcn)
      ensures Present(IcnWithAaid(user)) && perform(statusPath(transactionId)).None? ==> r == Err(RequestFailed)
      ensures Present(IcnWithAaid(user)) && perform(statusPath(transactionId)).Some? ==>
        var status := perform(statusPath(transactionId)).value;
        var n := NotifyAsWritten(old(State()), user.vaProfileEmail, status);
        r == (if notifies.None? then Err(UndefinedMethod)
              else if notifies == Some(true) && n.Err? then Err(n.error)
              else Ok(status))
      ensures State() == if r.Ok? && notifies == Some(true) then NotifyAsWritten(old(State()), user.vaProfileEmail, r.value).value
                         else old(State())
    {
      if !Present(IcnWithAaid(user)) {
        return Err(MissingIcn);
      }
      var status := perform(statusPath(transactionId));
      if status.None? {
        return Err(RequestFailed);
      }
      if notifies.None? {
        return Err(UndefinedMethod);
      }
      if notifies.value {
        var raised := SendChangeNotifications(status.value);
        if raised.Some? {
          return Err(raised.value);
        }
      }
      r := Ok(status.value);
    }
  }
}
