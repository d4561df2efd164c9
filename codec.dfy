/**
 * The JSON form of a project snapshot: what `model_dump_json` writes to
 * `<directory>/optigen.json` and what `ProjectSnapshot.model_validate_json`
 * reads back. Field names are the source's own. Reading follows the pydantic
 * models' declarations: a field with a default may be missing (and then takes
 * the default), a field without one must be present, keys the model does not
 * declare are ignored, and a value of the wrong shape is rejected with the
 * name of the offending field.
 */
module Codec {
  import opened Wrappers
  import opened Json
  import opened Snapshot

  /** Why a document is not a snapshot: the name of the field that is missing or ill-typed. */
  type DecodeError = string

  // ---------------------------------------------------------------------------
  // Field readers

  function RequiredString(m: Object, key: string): Result<string, DecodeError> {
    if key in m && m[key].JString? then Success(m[key].s) else Failure(key)
  }

  function StringOr(m: Object, key: string, default: string): Result<string, DecodeError> {
    if key !in m then Success(default)
    else if m[key].JString? then Success(m[key].s)
    else Failure(key)
  }

  function IntOr(m: Object, key: string, default: int): Result<int, DecodeError> {
    if key !in m then Success(default)
    else if m[key].JInt? then Success(m[key].i)
    else Failure(key)
  }

  /** A `str | None` field with default None. */
  function OptionalString(m: Object, key: string): Result<Option<string>, DecodeError> {
    if key !in m || m[key].JNull? then Success(None)
    else if m[key].JString? then Success(Some(m[key].s))
    else Failure(key)
  }

  /** An `Optional[int]` field with default None. */
  function OptionalInt(m: Object, key: string): Result<Option<int>, DecodeError> {
    if key !in m || m[key].JNull? then Success(None)
    else if m[key].JInt? then Success(Some(m[key].i))
    else Failure(key)
  }

  function EncodeOptionalString(o: Option<string>): Value {
    match o
    case None => JNull
    case Some(s) => JString(s)
  }

  function EncodeOptionalInt(o: Option<int>): Value {
    match o
    case None => JNull
    case Some(i) => JInt(i)
  }

  // ---------------------------------------------------------------------------
  // Constraints

  function EncodeKind(k: ConstraintType): Value {
    match k
    case Hard => JString("hard")
    case Soft => JString("soft")
  }

  function DecodeKind(m: Object): Result<ConstraintType, DecodeError> {
    if "type" in m && m["type"] == JString("hard") then Success(Hard)
    else if "type" in m && m["type"] == JString("soft") then Success(Soft)
    else Failure("type")
  }

  function EncodeConstraint(c: Constraint): Value {
    JObject(map[
      "name" := JString(c.name),
      "description" := JString(c.description),
      "type" := EncodeKind(c.kind),
      "rank" := EncodeOptionalInt(c.rank),
      "formula" := JString(c.formula),
      "where" := JString(c.where)])
  }

  function DecodeConstraint(v: Value): Result<Constraint, DecodeError> {
    if !v.JObject? then Failure("constraints")
    else
      var m := v.fields;
      var name :- RequiredString(m, "name");
      var description :- RequiredString(m, "description");
      var kind :- DecodeKind(m);
      var rank :- OptionalInt(m, "rank");
      var formula :- StringOr(m, "formula", "");
      var where :- StringOr(m, "where", "");
      Success(Constraint(name, description, kind, rank, formula, where))
  }

  function EncodeConstraints(cs: seq<Constraint>): (items: seq<Value>)
    ensures |items| == |cs|
  {
    if |cs| == 0 then [] else [EncodeConstraint(cs[0])] + EncodeConstraints(cs[1..])
  }

  /** A constraint array reads as one constraint per entry, or fails. */
  function DecodeConstraints(items: seq<Value>): (r: Result<seq<Constraint>, DecodeError>)
    ensures r.Success? ==> |r.value| == |items|
  {
    if |items| == 0 then Success([])
    else
      var c :- DecodeConstraint(items[0]);
      var rest :- DecodeConstraints(items[1..]);
      Success([c] + rest)
  }

  // ---------------------------------------------------------------------------
  // Schema definition and snapshot

  function EncodeSchemaDefinition(d: Option<UserApiSchemaDefinition>): Value {
    match d
    case None => JNull
    case Some(sd) =>
      JObject(map["request_schema" := JObject(sd.requestSchema), "response_schema" := JObject(sd.responseSchema)])
  }

  function DecodeSchemaDefinition(m: Object): Result<Option<UserApiSchemaDefinition>, DecodeError> {
    var key := "schema_definition";
    if key !in m || m[key].JNull? then Success(None)
    else if !m[key].JObject? then Failure(key)
    else
      var d := m[key].fields;
      if "request_schema" in d && d["request_schema"].JObject? &&
         "response_schema" in d && d["response_schema"].JObject?
      then Success(Some(UserApiSchemaDefinition(d["request_schema"].fields, d["response_schema"].fields)))
      else Failure(key)
  }

  /** The keys of a stored snapshot, the field names of `ProjectSnapshot`. */
  const SnapshotKeys: set<string> :=
    {"optigen_snapshot_version", "snapshot_version", "title", "description", "constraints", "schema_definition"}

  /** `model_dump_json`: the snapshot as a JSON object with one member per snapshot field. */
  function Serialize(s: ProjectSnapshot): (v: Value)
    ensures v.JObject? && v.fields.Keys == SnapshotKeys
    ensures v.fields["constraints"].JArray? && |v.fields["constraints"].items| == |s.constraints|
  {
    JObject(map[
      "optigen_snapshot_version" := JString(s.optigenSnapshotVersion),
      "snapshot_version" := JInt(s.snapshotVersion),
      "title" := EncodeOptionalString(s.title),
      "description" := EncodeOptionalString(s.description),
      "constraints" := JArray(EncodeConstraints(s.constraints)),
      "schema_definition" := EncodeSchemaDefinition(s.schemaDefinition)])
  }

  /**
   * `ProjectSnapshot.model_validate_json`: a document read back as a snapshot.
   * Only an object can be a snapshot, and a snapshot read from it has one
   * constraint per entry of its `constraints` array.
   */
  function Parse(v: Value): (r: Result<ProjectSnapshot, DecodeError>)
    ensures !v.JObject? ==> r.Failure?
    ensures r.Success? && "constraints" in v.fields ==>
              v.fields["constraints"].JArray? && |r.value.constraints| == |v.fields["constraints"].items|
    ensures r.Success? && "constraints" !in v.fields ==> r.value.constraints == []
  {
    if !v.JObject? then Failure("")
    else
      var m := v.fields;
      var optigenVersion :- StringOr(m, "optigen_snapshot_version", DefaultSnapshot.optigenSnapshotVersion);
      var version :- IntOr(m, "snapshot_version", DefaultSnapshot.snapshotVersion);
      var title :- OptionalString(m, "title");
      var description :- OptionalString(m, "description");
      var constraints :-
        if "constraints" !in m then Success([])
        else if m["constraints"].JArray? then DecodeConstraints(m["constraints"].items)
        else Failure("constraints");
      var schemaDefinition :- DecodeSchemaDefinition(m);
      Success(ProjectSnapshot(optigenVersion, version, title, description, constraints, schemaDefinition))
  }

  // ---------------------------------------------------------------------------
  // Rejection

  /** A constraint object without a string `name` is rejected, naming that field. */
  lemma ConstraintWithoutNameRejected(m: Object)
    requires "name" !in m || !m["name"].JString?
    ensures DecodeConstraint(JObject(m)) == Failure("name")
  {
  }

  /** A constraint array with one entry that is not a valid constraint is rejected as a whole. */
  lemma {:induction false} BadConstraintRejected(items: seq<Value>, i: nat)
    requires i < |items| && DecodeConstraint(items[i]).Failure?
    ensures DecodeConstraints(items).Failure?
  {
    if i > 0 && DecodeConstraint(items[0]).Success? {
      BadConstraintRejected(items[1..], i - 1);
    }
  }

  /** A document whose constraint array holds an invalid constraint does not load, whatever its other fields. */
  lemma DocumentWithBadConstraintRejected(m: Object, i: nat)
    requires "constraints" in m && m["constraints"].JArray?
    requires i < |m["constraints"].items| && DecodeConstraint(m["constraints"].items[i]).Failure?
    ensures Parse(JObject(m)).Failure?
  {
    BadConstraintRejected(m["constraints"].items, i);
  }

  // ---------------------------------------------------------------------------
  // Round trip

  lemma ConstraintRoundTrip(c: Constraint)
    ensures DecodeConstraint(EncodeConstraint(c)) == Success(c)
  {
  }

  lemma {:induction false} ConstraintsRoundTrip(cs: seq<Constraint>)
    ensures DecodeConstraints(EncodeConstraints(cs)) == Success(cs)
  {
    if |cs| > 0 {
      var items := EncodeConstraints(cs);
      assert items[0] == EncodeConstraint(cs[0]) && items[1..] == EncodeConstraints(cs[1..]);
      ConstraintRoundTrip(cs[0]);
      ConstraintsRoundTrip(cs[1..]);
      assert cs == [cs[0]] + cs[1..];
    }
  }

  /** The fields of a serialised snapshot read back as the snapshot's own values. */
  lemma SerializedFields(s: ProjectSnapshot)
    ensures StringOr(Serialize(s).fields, "optigen_snapshot_version", "0.0.1") == Success(s.optigenSnapshotVersion)
    ensures IntOr(Serialize(s).fields, "snapshot_version", 1) == Success(s.snapshotVersion)
    ensures OptionalString(Serialize(s).fields, "title") == Success(s.title)
    ensures OptionalString(Serialize(s).fields, "description") == Success(s.description)
    ensures "constraints" in Serialize(s).fields
    ensures Serialize(s).fields["constraints"] == JArray(EncodeConstraints(s.constraints))
    ensures DecodeSchemaDefinition(Serialize(s).fields) == Success(s.schemaDefinition)
  {
  }

  /** Reading back what was written yields the snapshot that was written, field for field. */
  lemma RoundTrip(s: ProjectSnapshot)
    ensures Parse(Serialize(s)) == Success(s)
  {
    SerializedFields(s);
    ConstraintsRoundTrip(s.constraints);
  }

  /** The document `{}` reads as the default snapshot, since every snapshot field has a default. */
  lemma EmptyDocumentIsDefault()
    ensures Parse(EmptyObject) == Success(DefaultSnapshot)
  {
  }
}
