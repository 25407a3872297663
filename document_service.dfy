/**
 * The claims API document upload helpers: file names built from the
 * present name parts joined by `_`, and the `parameters` body sent with
 * the PDF.
 */
module DocumentService {
  import opened Wrappers
  import opened Json
  import opened Text

  /** `compact_veteran_name`: the present names joined by `_`. */
  function CompactVeteranName(firstName: Option<string>, lastName: Option<string>): string {
    Join(CompactBlank([firstName, lastName]), "_")
  }

  /** `build_file_name`: the present parts joined by `_`, then `.pdf`. */
  function BuildFileName(veteranName: Option<string>, identifier: Option<string>, suffix: Option<string>): (r: string)
    ensures EndsWith(r, ".pdf")
  {
    Join(CompactBlank([veteranName, identifier, suffix]), "_") + ".pdf"
  }

  predicate NoUnderscore(s: string) {
    forall i :: 0 <= i < |s| ==> s[i] != '_'
  }

  /** Blank parts are dropped: a missing first name leaves just the last name. */
  lemma CompactVeteranNameOne(lastName: string)
    requires !IsBlank(lastName)
    ensures CompactVeteranName(None, Some(lastName)) == lastName
    ensures CompactVeteranName(Some(""), Some(lastName)) == lastName
  {
    var xs := [None, Some(lastName)];
    assert xs[1..] == [Some(lastName)];
    assert CompactBlank(xs) == [lastName];
    var ys := [Some(""), Some(lastName)];
    assert !Present(ys[0]) by { assert IsBlank(""); }
    assert ys[1..] == [Some(lastName)];
    assert CompactBlank(ys) == [lastName];
  }

  /** Two present names are joined by one underscore. */
  lemma CompactVeteranNameTwo(firstName: string, lastName: string)
    requires !IsBlank(firstName) && !IsBlank(lastName)
    ensures CompactVeteranName(Some(firstName), Some(lastName)) == firstName + "_" + lastName
  {
    var xs := [Some(firstName), Some(lastName)];
    CompactBlankAllPresent(xs);
    assert CompactBlank(xs) == [firstName, lastName];
    assert [firstName, lastName][1..] == [lastName];
    assert Join([lastName], "_") == lastName;
  }

  /**
   * A file name of three present parts without underscores splits back
   * into those parts once `.pdf` is taken off.
   */
  lemma FileNameSplitsBack(name: string, identifier: string, suffix: string)
    requires !IsBlank(name) && !IsBlank(identifier) && !IsBlank(suffix)
    requires NoUnderscore(name) && NoUnderscore(identifier) && NoUnderscore(suffix)
    ensures var f := BuildFileName(Some(name), Some(identifier), Some(suffix));
      Split(f[..|f| - 4], '_') == [name, identifier, suffix]
  {
    var xs := [Some(name), Some(identifier), Some(suffix)];
    var parts := [name, identifier, suffix];
    CompactBlankAllPresent(xs);
    assert CompactBlank(xs) == parts;
    var body := Join(parts, "_");
    var f := body + ".pdf";
    assert f[..|f| - 4] == body;
    FieldsOfJoin(parts, '_');
    assert suffix != "" by { assert !IsBlank(suffix); }
  }

  /** With all three parts present, they are joined in order by `_`. */
  lemma BuildFileNameThree(name: string, identifier: string, suffix: string)
    requires !IsBlank(name) && !IsBlank(identifier) && !IsBlank(suffix)
    ensures BuildFileName(Some(name), Some(identifier), Some(suffix)) == name + "_" + identifier + "_" + suffix + ".pdf"
  {
    var xs := [Some(name), Some(identifier), Some(suffix)];
    CompactBlankAllPresent(xs);
    var parts := [name, identifier, suffix];
    assert CompactBlank(xs) == parts;
    assert parts[1..] == [identifier, suffix] && [identifier, suffix][1..] == [suffix];
    assert Join([identifier, suffix], "_") == identifier + "_" + suffix;
    assert Join(parts, "_") == name + "_" + (identifier + "_" + suffix);
  }

  /** The three file-name parts keep, in order, exactly those that are present. */
  lemma CompactBlankThree(x: Option<string>, y: Option<string>, z: Option<string>)
    ensures CompactBlank([x, y, z]) ==
      (if Present(x) then [x.value] else []) + (if Present(y) then [y.value] else []) + (if Present(z) then [z.value] else [])
  {
    var hx := if Present(x) then [x.value] else [];
    var hy := if Present(y) then [y.value] else [];
    var hz := if Present(z) then [z.value] else [];
    assert [z][1..] == [];
    assert CompactBlank([z]) == hz + [];
    assert [y, z][1..] == [z];
    assert CompactBlank([y, z]) == hy + hz;
    assert [x, y, z][1..] == [y, z];
    assert CompactBlank([x, y, z]) == hx + (hy + hz);
  }

  /**
   * A nil or blank part is dropped wherever it stands: the two present parts
   * are joined by a single `_`, with no doubled, leading or trailing `_`.
   */
  lemma BuildFileNameSkipsBlank(a: string, b: string, gap: Option<string>)
    requires !IsBlank(a) && !IsBlank(b) && !Present(gap)
    ensures BuildFileName(gap, Some(a), Some(b)) == a + "_" + b + ".pdf"
    ensures BuildFileName(Some(a), gap, Some(b)) == a + "_" + b + ".pdf"
    ensures BuildFileName(Some(a), Some(b), gap) == a + "_" + b + ".pdf"
  {
    assert Join([a, b], "_") == a + "_" + b by { assert [a, b][1..] == [b]; }
    assert CompactBlank([gap, Some(a), Some(b)]) == [a, b] by { CompactBlankThree(gap, Some(a), Some(b)); }
    assert CompactBlank([Some(a), gap, Some(b)]) == [a, b] by { CompactBlankThree(Some(a), gap, Some(b)); }
    assert CompactBlank([Some(a), Some(b), gap]) == [a, b] by { CompactBlankThree(Some(a), Some(b), gap); }
  }

  /** With only one part present, the name is that part alone. */
  lemma BuildFileNameOnePart(a: string, g1: Option<string>, g2: Option<string>)
    requires !IsBlank(a) && !Present(g1) && !Present(g2)
    ensures BuildFileName(Some(a), g1, g2) == a + ".pdf"
    ensures BuildFileName(g1, Some(a), g2) == a + ".pdf"
    ensures BuildFileName(g1, g2, Some(a)) == a + ".pdf"
  {
    assert CompactBlank([Some(a), g1, g2]) == [a] by { CompactBlankThree(Some(a), g1, g2); }
    assert CompactBlank([g1, Some(a), g2]) == [a] by { CompactBlankThree(g1, Some(a), g2); }
    assert CompactBlank([g1, g2, Some(a)]) == [a] by { CompactBlankThree(g1, g2, Some(a)); }
  }

  /** ActiveSupport `presence` on a decoded value: the value unless blank. */
  predicate Blank(j: Json) {
    match j
    case JNull => true
    case JBool(b) => !b
    case JNum(_) => false
    case JStr(s) => IsBlank(s)
    case JArray(items) => |items| == 0
    case JObject(fields) => |fields| == 0
  }

  /** The options `build_body` reads; absent options are JNull. */
  datatype Options = Options(
    claimId: Json,
    systemName: Json,
    docType: Json,
    fileName: Json,
    participantId: Json,
    fileNumber: Json,
    trackedItemIds: Json)

  /** `presence || []` for the tracked item ids. */
  function TrackedItemIds(ids: Json): Json {
    if Blank(ids) then JArray([]) else ids
  }

  /** `data[key] = v unless v.nil?`. */
  function SetUnlessNil(data: seq<Field>, key: string, v: Json): seq<Field> {
    if v == JNull then data else Put(data, key, v)
  }

  /**
   * The hash `build_body` fills: four fixed entries, then claimId,
   * participantId and fileNumber, each assigned only when not nil; the
   * result wraps it as the single entry `data`.
   */
  function Body(options: Options): (r: seq<Field>)
    ensures |r| == 1 && r[0].key == "data" && r[0].value.JObject?
    ensures |r[0].value.fields| <= 7
  {
    var fixed := [
      Field("systemName", options.systemName),
      Field("docType", options.docType),
      Field("fileName", options.fileName),
      Field("trackedItemIds", TrackedItemIds(options.trackedItemIds))
    ];
    var withClaim := SetUnlessNil(fixed, "claimId", options.claimId);
    var withParticipant := SetUnlessNil(withClaim, "participantId", options.participantId);
    [Field("data", JObject(SetUnlessNil(withParticipant, "fileNumber", options.fileNumber)))]
  }

  /** The hash `build_body` fills, unwrapped. */
  function BodyData(options: Options): seq<Field> {
    Body(options)[0].value.fields
  }

  /** `build_body`, filling the hash by conditional assignments. */
  method BuildBody(options: Options) returns (body: seq<Field>)
    ensures body == Body(options)
  {
    var data := [
      Field("systemName", options.systemName),
      Field("docType", options.docType),
      Field("fileName", options.fileName),
      Field("trackedItemIds", TrackedItemIds(options.trackedItemIds))
    ];
    if options.claimId != JNull {
      data := Put(data, "claimId", options.claimId);
    }
    if options.participantId != JNull {
      data := Put(data, "participantId", options.participantId);
    }
    if options.fileNumber != JNull {
      data := Put(data, "fileNumber", options.fileNumber);
    }
    body := [Field("data", JObject(data))];
  }

  /** The four entries of the hash literal read back, and no identifier is there yet. */
  lemma FixedEntries(systemName: Json, docType: Json, fileName: Json, tracked: Json)
    ensures var d := [Field("systemName", systemName), Field("docType", docType),
                      Field("fileName", fileName), Field("trackedItemIds", tracked)];
      && At(d, "systemName") == systemName && At(d, "docType") == docType
      && At(d, "fileName") == fileName && At(d, "trackedItemIds") == tracked
      && Has(d, "systemName") && Has(d, "docType") && Has(d, "fileName") && Has(d, "trackedItemIds")
      && !Has(d, "claimId") && !Has(d, "participantId") && !Has(d, "fileNumber")
  {
    var d := [Field("systemName", systemName), Field("docType", docType),
              Field("fileName", fileName), Field("trackedItemIds", tracked)];
    assert UniqueKeys(d);
    AtEntry(d, 0);
    AtEntry(d, 1);
    AtEntry(d, 2);
    AtEntry(d, 3);
    HasEntry(d, 0);
    HasEntry(d, 1);
    HasEntry(d, 2);
    HasEntry(d, 3);
    AbsentKey(d, "claimId");
    AbsentKey(d, "participantId");
    AbsentKey(d, "fileNumber");
  }

  /** A conditional assignment leaves every other key as it was. */
  lemma SetUnlessNilOther(data: seq<Field>, key: string, v: Json, k: string)
    requires k != key
    ensures Has(SetUnlessNil(data, key, v), k) <==> Has(data, k)
    ensures At(SetUnlessNil(data, key, v), k) == At(data, k)
  {
    if v != JNull {
      PutOther(data, key, v, k);
    }
  }

  /** A conditional assignment makes its key read `v`, present exactly when `v` is not nil. */
  lemma SetUnlessNilOwn(data: seq<Field>, key: string, v: Json)
    requires !Has(data, key)
    ensures Has(SetUnlessNil(data, key, v), key) <==> v != JNull
    ensures At(SetUnlessNil(data, key, v), key) == v
  {
  }

  /** The body always holds systemName, docType, fileName and trackedItemIds, the last `[]` when blank. */
  lemma BodyFixedEntries(options: Options)
    ensures var d := BodyData(options);
      && Has(d, "systemName") && At(d, "systemName") == options.systemName
      && Has(d, "docType") && At(d, "docType") == options.docType
      && Has(d, "fileName") && At(d, "fileName") == options.fileName
      && Has(d, "trackedItemIds") && At(d, "trackedItemIds") == TrackedItemIds(options.trackedItemIds)
      && (Blank(options.trackedItemIds) ==> At(d, "trackedItemIds") == JArray([]))
  {
    var tracked := TrackedItemIds(options.trackedItemIds);
    var fixed := [Field("systemName", options.systemName), Field("docType", options.docType),
                  Field("fileName", options.fileName), Field("trackedItemIds", tracked)];
    FixedEntries(options.systemName, options.docType, options.fileName, tracked);
    var d1 := SetUnlessNil(fixed, "claimId", options.claimId);
    var d2 := SetUnlessNil(d1, "participantId", options.participantId);
    KeepsFixed(fixed, "claimId", options.claimId);
    KeepsFixed(d1, "participantId", options.participantId);
    KeepsFixed(d2, "fileNumber", options.fileNumber);
  }

  /** One identifier assignment keeps the four fixed entries. */
  lemma KeepsFixed(data: seq<Field>, key: string, v: Json)
    requires key == "claimId" || key == "participantId" || key == "fileNumber"
    ensures var r := SetUnlessNil(data, key, v);
      && (Has(r, "systemName") <==> Has(data, "systemName")) && At(r, "systemName") == At(data, "systemName")
      && (Has(r, "docType") <==> Has(data, "docType")) && At(r, "docType") == At(data, "docType")
      && (Has(r, "fileName") <==> Has(data, "fileName")) && At(r, "fileName") == At(data, "fileName")
      && (Has(r, "trackedItemIds") <==> Has(data, "trackedItemIds")) && At(r, "trackedItemIds") == At(data, "trackedItemIds")
  {
    SetUnlessNilOther(data, key, v, "systemName");
    SetUnlessNilOther(data, key, v, "docType");
    SetUnlessNilOther(data, key, v, "fileName");
    SetUnlessNilOther(data, key, v, "trackedItemIds");
  }

  /** claimId, participantId and fileNumber are there exactly when given non-nil, an empty string included. */
  lemma BodyIdentifiers(options: Options)
    ensures var d := BodyData(options);
      && (Has(d, "claimId") <==> options.claimId != JNull) && At(d, "claimId") == options.claimId
      && (Has(d, "participantId") <==> options.participantId != JNull) && At(d, "participantId") == options.participantId
      && (Has(d, "fileNumber") <==> options.fileNumber != JNull) && At(d, "fileNumber") == options.fileNumber
  {
    var tracked := TrackedItemIds(options.trackedItemIds);
    var fixed := [Field("systemName", options.systemName), Field("docType", options.docType),
                  Field("fileName", options.fileName), Field("trackedItemIds", tracked)];
    FixedEntries(options.systemName, options.docType, options.fileName, tracked);
    var d1 := SetUnlessNil(fixed, "claimId", options.claimId);
    var d2 := SetUnlessNil(d1, "participantId", options.participantId);
    SetUnlessNilOwn(fixed, "claimId", options.claimId);
    SetUnlessNilOther(fixed, "claimId", options.claimId, "participantId");
    SetUnlessNilOther(fixed, "claimId", options.claimId, "fileNumber");
    SetUnlessNilOwn(d1, "participantId", options.participantId);
    SetUnlessNilOther(d1, "participantId", options.participantId, "claimId");
    SetUnlessNilOther(d1, "participantId", options.participantId, "fileNumber");
    SetUnlessNilOwn(d2, "fileNumber", options.fileNumber);
    SetUnlessNilOther(d2, "fileNumber", options.fileNumber, "claimId");
    SetUnlessNilOther(d2, "fileNumber", options.fileNumber, "participantId");
  }

  /**
   * The `parameters` part of `generate_upload_body`: the body built from
   * the given values, the BIRLS file number going in as `fileNumber`.
   */
  method GenerateUploadParameters(claimId: Json, systemName: Json, docType: Json, fileName: Json,
                                  birlsFileNumber: Json, participantId: Json, trackedItemIds: Json)
    returns (body: seq<Field>)
    ensures body == Body(Options(claimId, systemName, docType, fileName, participantId, birlsFileNumber, trackedItemIds))
    ensures (Has(body[0].value.fields, "fileNumber") <==> birlsFileNumber != JNull) &&
      At(body[0].value.fields, "fileNumber") == birlsFileNumber
  {
    body := BuildBody(Options(claimId, systemName, docType, fileName, participantId, birlsFileNumber, trackedItemIds));
    BodyIdentifiers(Options(claimId, systemName, docType, fileName, participantId, birlsFileNumber, trackedItemIds));
  }
}
