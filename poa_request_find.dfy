/**
 * Looking up one power-of-attorney request by its composite id
 * `<participant id>_<proc id>`: BGS is asked for the participant's
 * requests and the one carrying the proc id is loaded.
 */
module PoaRequestFind {
  import opened Wrappers
  import opened Json
  import opened Text

  /** What BGS answers for a participant id: a result hash, or a fault with its `reason`. */
  datatype BgsReply = Reply(result: seq<Field>) | Fault(reason: Json)

  datatype FindError =
    | RecordNotFound(id: string)
    | BgsFault(reason: Json)   // any other fault, re-raised as it came
    | Unreadable               // a returned entry that answers `[]` with a raise

  /** `participant_id, proc_id = id.split('_')`: the first two pieces, nil when missing. */
  function IdPieces(id: string): (Option<string>, Option<string>) {
    var parts := Split(id, '_');
    (if |parts| > 0 then Some(parts[0]) else None,
     if |parts| > 1 then Some(parts[1]) else None)
  }

  /** An id made of two non-empty pieces without `_` splits back into them. */
  lemma IdPiecesOfComposite(participantId: string, procId: string)
    requires |participantId| > 0 && |procId| > 0
    requires forall i :: 0 <= i < |participantId| ==> participantId[i] != '_'
    requires forall i :: 0 <= i < |procId| ==> procId[i] != '_'
    ensures IdPieces(participantId + "_" + procId) == (Some(participantId), Some(procId))
  {
    var parts := [participantId, procId];
    assert parts[1..] == [procId];
    assert Join(parts, "_") == participantId + "_" + procId;
    FieldsOfJoin(parts, '_');
  }

  /** `Array.wrap`: nil is no entry, a list stays, anything else is one entry. */
  function Wrap(j: Json): (r: seq<Json>)
    ensures j.JNull? ==> r == []
    ensures j.JArray? ==> r == j.items
    ensures !j.JNull? && !j.JArray? ==> r == [j]
  {
    match j
    case JNull => []
    case JArray(items) => items
    case _ => [j]
  }

  /**
   * `data['procID'] == proc_id`, with nil for an id without a second piece;
   * a string entry reads `procID` or nil as `String#[]` does.
   */
  predicate Matches(entry: Json, procId: Option<string>) {
    Index(entry, "procID") == Some(if procId.Some? then JStr(procId.value) else JNull)
  }

  /** Every entry answers `data['procID']`: it is a hash or a string. */
  predicate Readable(entries: seq<Json>) {
    forall j :: 0 <= j < |entries| ==> entries[j].JObject? || entries[j].JStr?
  }

  /** `find`: the first entry whose procID is the proc id; None when reading an entry raises. */
  function FirstMatch(entries: seq<Json>, procId: Option<string>): (r: Option<Option<Json>>)
    ensures r.Some? && r.value.Some? ==> exists i :: 0 <= i < |entries| && entries[i] == r.value.value
    ensures r.Some? && r.value.Some? ==> Matches(r.value.value, procId)
    ensures r.None? ==> !Readable(entries)
  {
    if |entries| == 0 then Some(None)
    else if Index(entries[0], "procID").None? then None
    else if Matches(entries[0], procId) then Some(Some(entries[0]))
    else
      var rest := FirstMatch(entries[1..], procId);
      assert rest.Some? && rest.value.Some? ==> rest.value.value in entries;
      rest
  }

  /** The entry found is the first match: every readable entry before it has another procID. */
  lemma {:induction false} FirstMatchIsFirst(entries: seq<Json>, procId: Option<string>, i: nat)
    requires i < |entries| && Matches(entries[i], procId)
    requires forall j :: 0 <= j < i ==> (entries[j].JObject? || entries[j].JStr?) && !Matches(entries[j], procId)
    ensures FirstMatch(entries, procId) == Some(Some(entries[i]))
  {
    if i > 0 {
      FirstMatchIsFirst(entries[1..], procId, i - 1);
    }
  }

  /** With only hashes and strings and none matching, nothing is found. */
  lemma {:induction false} FirstMatchNone(entries: seq<Json>, procId: Option<string>)
    requires forall j :: 0 <= j < |entries| ==> (entries[j].JObject? || entries[j].JStr?) && !Matches(entries[j], procId)
    ensures FirstMatch(entries, procId) == Some(None)
  {
    if |entries| > 0 {
      FirstMatchNone(entries[1..], procId);
    }
  }

  /**
   * `Find.perform`: the request BGS lists for the id's participant whose
   * procID is the id's proc id. `bgs` stands for the BGS call; the loaded
   * request is returned as the entry found.
   */
  function Perform(id: string, bgs: Option<string> -> BgsReply): (r: Result<Json, FindError>)
    ensures r.Ok? ==> Matches(r.value, IdPieces(id).1)
    ensures r == Err(Unreadable) ==>
      bgs(IdPieces(id).0).Reply? && !Readable(Wrap(At(bgs(IdPieces(id).0).result, "poaRequestRespondReturnVOList")))
    ensures bgs(IdPieces(id).0).Fault? ==> r.Err? && !r.error.Unreadable?
  {
    var (participantId, procId) := IdPieces(id);
    match bgs(participantId)
    case Fault(reason) =>
      if reason == JStr("NO_RECORD_FOUND") then Err(RecordNotFound(id)) else Err(BgsFault(reason))
    case Reply(result) =>
      var found := FirstMatch(Wrap(At(result, "poaRequestRespondReturnVOList")), procId);
      if found.None? then Err(Unreadable)
      else if found.value.None? then Err(RecordNotFound(id))
      else Ok(found.value.value)
  }

  /**
   * A BGS fault whose reason is `NO_RECORD_FOUND` is a missing record;
   * every other fault is re-raised unchanged.
   */
  lemma FaultsMapped(id: string, bgs: Option<string> -> BgsReply)
    requires bgs(IdPieces(id).0).Fault?
    ensures var reason := bgs(IdPieces(id).0).reason;
      Perform(id, bgs) == if reason == JStr("NO_RECORD_FOUND") then Err(RecordNotFound(id)) else Err(BgsFault(reason))
  {
  }

  /** Only the id's participant is asked about: two BGS services that agree on it give the same outcome. */
  lemma AsksForParticipant(id: string, bgs1: Option<string> -> BgsReply, bgs2: Option<string> -> BgsReply)
    requires bgs1(IdPieces(id).0) == bgs2(IdPieces(id).0)
    ensures Perform(id, bgs1) == Perform(id, bgs2)
  {
  }

  /** The requests a BGS reply lists for the id's participant. */
  function Listed(id: string, bgs: Option<string> -> BgsReply): seq<Json>
    requires bgs(IdPieces(id).0).Reply?
  {
    Wrap(At(bgs(IdPieces(id).0).result, "poaRequestRespondReturnVOList"))
  }

  /**
   * For a reply listing only hashes and strings: the request found is the first one
   * with the id's proc id, and RecordNotFound is raised exactly when no
   * request has it. A single request not wrapped in a list is searched alone.
   */
  lemma ReplyOutcome(id: string, bgs: Option<string> -> BgsReply)
    requires bgs(IdPieces(id).0).Reply? && Readable(Listed(id, bgs))
    ensures Perform(id, bgs) == Err(RecordNotFound(id)) <==>
      forall j :: 0 <= j < |Listed(id, bgs)| ==> !Matches(Listed(id, bgs)[j], IdPieces(id).1)
    ensures forall i ::
      (0 <= i < |Listed(id, bgs)| && Matches(Listed(id, bgs)[i], IdPieces(id).1) &&
       (forall j :: 0 <= j < i ==> !Matches(Listed(id, bgs)[j], IdPieces(id).1))) ==>
      Perform(id, bgs) == Ok(Listed(id, bgs)[i])
  {
    FirstMatchOutcome(Listed(id, bgs), IdPieces(id).1);
  }

  /** Over hashes and strings, `find` answers nothing exactly when no entry matches, and otherwise the first match. */
  lemma FirstMatchOutcome(entries: seq<Json>, procId: Option<string>)
    requires Readable(entries)
    ensures FirstMatch(entries, procId) == Some(None) <==>
      forall j :: 0 <= j < |entries| ==> !Matches(entries[j], procId)
    ensures forall i ::
      (0 <= i < |entries| && Matches(entries[i], procId) &&
       (forall j :: 0 <= j < i ==> !Matches(entries[j], procId))) ==>
      FirstMatch(entries, procId) == Some(Some(entries[i]))
  {
    if forall j :: 0 <= j < |entries| ==> !Matches(entries[j], procId) {
      FirstMatchNone(entries, procId);
    } else {
      var k :| 0 <= k < |entries| && Matches(entries[k], procId);
      var i := FirstIndex(entries, procId, k);
      FirstMatchIsFirst(entries, procId, i);
    }
    forall i | 0 <= i < |entries| && Matches(entries[i], procId) &&
        (forall j :: 0 <= j < i ==> !Matches(entries[j], procId))
      ensures FirstMatch(entries, procId) == Some(Some(entries[i]))
    {
      FirstMatchIsFirst(entries, procId, i);
    }
  }

  /**
   * A string entry is skipped for a proc id other than `procID` itself, as
   * `data['procID']` is then nil or the string `procID`.
   */
  lemma StringEntrySkipped(s: string, rest: seq<Json>, procId: string)
    requires procId != "procID"
    ensures FirstMatch([JStr(s)] + rest, Some(procId)) == FirstMatch(rest, Some(procId))
  {
    assert ([JStr(s)] + rest)[1..] == rest;
  }

  /** Some matching index has a first matching index at or before it. */
  lemma {:induction false} FirstIndex(entries: seq<Json>, procId: Option<string>, k: nat) returns (i: nat)
    requires Readable(entries)
    requires k < |entries| && Matches(entries[k], procId)
    ensures i <= k && Matches(entries[i], procId)
    ensures forall j :: 0 <= j < i ==> !Matches(entries[j], procId)
    decreases k
  {
    if forall j :: 0 <= j < k ==> !Matches(entries[j], procId) {
      i := k;
    } else {
      var k' :| 0 <= k' < k && Matches(entries[k'], procId);
      i := FirstIndex(entries, procId, k');
    }
  }
}
