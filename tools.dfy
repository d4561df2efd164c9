/**
 * The agent tools that edit the project settings (src/react_agent/tools.py).
 * Each tool takes the settings object bound to the current run, or null when
 * none is bound, and reports the kind of message it returns; the message text
 * itself is not modelled.
 */
module Tools {
  import opened Wrappers
  import opened Json
  import opened Snapshot
  import opened Settings
  import Codec

  /** One entry of `update_project_metadata`'s `updates` list. */
  datatype MetadataField = TitleField(title: string) | DescriptionField(description: string)

  /** The kinds of message the tools return. */
  datatype ToolResult =
    | NotInitialized                              // "Error: Project settings not initialized."
    | ConstraintAdded                             // "Successfully added constraint ..."
    | ConstraintRejected(reason: AddError)        // "Error adding constraint: ..."
    | ConstraintRemoved                           // "Successfully removed constraint ..."
    | ConstraintNotFound                          // "Constraint ... not found."
    | MetadataUpdated(updates: seq<MetadataField>) // "Successfully updated project metadata: ..."
    | NoUpdates                                   // "No updates provided."
    | RequestSchemaUpdated(schema: Schema)        // "Successfully updated request schema: ..."
    | ResponseSchemaUpdated(schema: Schema)       // "Successfully updated response schema: ..."

  /** What a tool may change: the bound settings object and its directory, or nothing. */
  function Frame(settings: ProjectSettings?): set<object> {
    if settings == null then {} else {settings, settings.directory}
  }

  /** Python truthiness of an `Optional[str]`: present and non-empty. */
  predicate Truthy(s: Option<string>) {
    s.Some? && s.value != ""
  }

  /** The schema pair stored by `update_request_schema`: the new request half, the old (or empty) response half. */
  function WithRequestSchema(current: Option<UserApiSchemaDefinition>, schema: Schema): (d: UserApiSchemaDefinition)
    ensures d.requestSchema == schema
    ensures current.Some? ==> d.responseSchema == current.value.responseSchema
    ensures current.None? ==> d.responseSchema == map[]
  {
    var responseSchema := if current.Some? then current.value.responseSchema else map[];
    UserApiSchemaDefinition(schema, responseSchema)
  }

  /** The schema pair stored by `update_response_schema`: the old (or empty) request half, the new response half. */
  function WithResponseSchema(current: Option<UserApiSchemaDefinition>, schema: Schema): (d: UserApiSchemaDefinition)
    ensures d.responseSchema == schema
    ensures current.Some? ==> d.requestSchema == current.value.requestSchema
    ensures current.None? ==> d.requestSchema == map[]
  {
    var requestSchema := if current.Some? then current.value.requestSchema else map[];
    UserApiSchemaDefinition(requestSchema, schema)
  }

  /** Setting the two halves one after the other, in either order, stores exactly the pair of them. */
  lemma SchemaHalvesCommute(current: Option<UserApiSchemaDefinition>, request: Schema, response: Schema)
    ensures WithResponseSchema(Some(WithRequestSchema(current, request)), response) == UserApiSchemaDefinition(request, response)
    ensures WithRequestSchema(Some(WithResponseSchema(current, response)), request) == UserApiSchemaDefinition(request, response)
  {
  }

  /**
   * `read_problem_specification`: the snapshot as a JSON document, which reads
   * back as the snapshot itself, or `{}` when no settings object is bound.
   */
  method ReadProblemSpecification(settings: ProjectSettings?) returns (doc: Value)
    ensures settings == null ==> doc == EmptyObject
    ensures settings != null ==> Codec.Parse(doc) == Success(settings.projectSnapshot)
  {
    if settings == null {
      return EmptyObject;
    }
    doc := Codec.Serialize(settings.projectSnapshot);
    Codec.RoundTrip(settings.projectSnapshot);
  }

  /**
   * `add_constraint`: build the constraint and hand it to the settings object; a
   * duplicate name becomes an error message with nothing changed, otherwise the
   * constraint has been appended and persisted.
   */
  method AddConstraint(
    settings: ProjectSettings?, name: string, description: string, constraintType: ConstraintType,
    formula: string, where: string, rank: Option<int>)
    returns (r: ToolResult)
    modifies Frame(settings)
    ensures settings == null ==> r == NotInitialized
    ensures settings != null && old(settings.Valid()) ==> settings.Valid()
    ensures settings != null ==>
              (r.ConstraintRejected? <==> HasName(old(settings.projectSnapshot.constraints), name))
    ensures settings != null && r.ConstraintRejected? ==>
              r.reason == DuplicateName(name) &&
              settings.projectSnapshot == old(settings.projectSnapshot) && unchanged(settings.directory)
    ensures settings != null && !r.ConstraintRejected? ==>
              r == ConstraintAdded && settings.Valid() &&
              settings.projectSnapshot == old(settings.projectSnapshot).(constraints :=
                old(settings.projectSnapshot.constraints) + [Constraint(name, description, constraintType, rank, formula, where)]) &&
              settings.directory.settingsFile == Some(Codec.Serialize(settings.projectSnapshot))
  {
    if settings == null {
      return NotInitialized;
    }
    var constraint := Constraint(name, description, constraintType, rank, formula, where);
    var outcome := settings.AddConstraint(constraint);
    if outcome.Fail? {
      return ConstraintRejected(outcome.error);
    }
    r := ConstraintAdded;
  }

  /** `remove_constraint`: "removed" exactly when the settings object removed something, "not found" otherwise. */
  method RemoveConstraint(settings: ProjectSettings?, name: string) returns (r: ToolResult)
    modifies Frame(settings)
    ensures settings == null ==> r == NotInitialized
    ensures settings != null && old(settings.Valid()) ==> settings.Valid()
    ensures settings != null ==> r in {ConstraintRemoved, ConstraintNotFound}
    ensures settings != null ==>
              (r == ConstraintRemoved <==> HasName(old(settings.projectSnapshot.constraints), name))
    ensures settings != null ==>
              settings.projectSnapshot == old(settings.projectSnapshot).(constraints :=
                RemoveNamed(old(settings.projectSnapshot.constraints), name))
    ensures settings != null && r == ConstraintRemoved ==>
              settings.Valid() && settings.directory.settingsFile == Some(Codec.Serialize(settings.projectSnapshot))
    ensures settings != null && r == ConstraintNotFound ==>
              settings.projectSnapshot == old(settings.projectSnapshot) && unchanged(settings.directory)
  {
    if settings == null {
      return NotInitialized;
    }
    var removed := settings.RemoveConstraint(name);
    if removed {
      return ConstraintRemoved;
    }
    r := ConstraintNotFound;
  }

  /**
   * `update_project_metadata`: write the title and the description that are
   * truthy, in one update, and list them; when neither is, write nothing.
   */
  method UpdateProjectMetadata(settings: ProjectSettings?, title: Option<string>, description: Option<string>)
    returns (r: ToolResult)
    modifies Frame(settings)
    ensures settings == null ==> r == NotInitialized
    ensures settings != null && old(settings.Valid()) ==> settings.Valid()
    ensures settings != null ==>
              r == if Truthy(title) || Truthy(description)
                   then MetadataUpdated(
                          (if Truthy(title) then [TitleField(title.value)] else []) +
                          (if Truthy(description) then [DescriptionField(description.value)] else []))
                   else NoUpdates
    ensures settings != null ==>
              settings.projectSnapshot == old(settings.projectSnapshot).(
                title := if Truthy(title) then title else old(settings.projectSnapshot.title),
                description := if Truthy(description) then description else old(settings.projectSnapshot.description))
    ensures settings != null && r.MetadataUpdated? ==>
              settings.Valid() && settings.directory.settingsFile == Some(Codec.Serialize(settings.projectSnapshot))
    ensures settings != null && r == NoUpdates ==> unchanged(settings.directory)
  {
    if settings == null {
      return NotInitialized;
    }
    var updates: seq<MetadataField> := [];
    if Truthy(title) && Truthy(description) {
      settings.Update(NoSnapshotChanges.(title := Some(title), description := Some(description)));
      updates := updates + [TitleField(title.value)];
      updates := updates + [DescriptionField(description.value)];
    } else if Truthy(title) {
      settings.Update(NoSnapshotChanges.(title := Some(title)));
      updates := updates + [TitleField(title.value)];
    } else if Truthy(description) {
      settings.Update(NoSnapshotChanges.(description := Some(description)));
      updates := updates + [DescriptionField(description.value)];
    }
    if |updates| > 0 {
      return MetadataUpdated(updates);
    }
    r := NoUpdates;
  }

  /**
   * `update_request_schema`: store the new request schema beside the current
   * response schema (`{}` when there is no schema definition yet) and persist.
   */
  method UpdateRequestSchema(settings: ProjectSettings?, schema: Schema) returns (r: ToolResult)
    modifies Frame(settings)
    ensures settings == null ==> r == NotInitialized
    ensures settings != null ==> settings.Valid() && r == RequestSchemaUpdated(schema)
    ensures settings != null ==>
              settings.GetRequestSchema() == Some(schema) &&
              settings.GetResponseSchema() == Some(old(settings.GetResponseSchema()).GetOr(map[]))
    ensures settings != null ==>
              settings.projectSnapshot == old(settings.projectSnapshot).(
                schemaDefinition := Some(WithRequestSchema(old(settings.projectSnapshot.schemaDefinition), schema))) &&
              settings.directory.settingsFile == Some(Codec.Serialize(settings.projectSnapshot))
  {
    if settings == null {
      return NotInitialized;
    }
    var current := settings.SchemaDefinition();
    var newSchemaDefinition := WithRequestSchema(current, schema);
    settings.Update(NoSnapshotChanges.(schemaDefinition := Some(Some(newSchemaDefinition))));
    r := RequestSchemaUpdated(schema);
  }

  /**
   * `update_response_schema`: store the current request schema (`{}` when there
   * is no schema definition yet) beside the new response schema and persist.
   */
  method UpdateResponseSchema(settings: ProjectSettings?, schema: Schema) returns (r: ToolResult)
    modifies Frame(settings)
    ensures settings == null ==> r == NotInitialized
    ensures settings != null ==> settings.Valid() && r == ResponseSchemaUpdated(schema)
    ensures settings != null ==>
              settings.GetResponseSchema() == Some(schema) &&
              settings.GetRequestSchema() == Some(old(settings.GetRequestSchema()).GetOr(map[]))
    ensures settings != null ==>
              settings.projectSnapshot == old(settings.projectSnapshot).(
                schemaDefinition := Some(WithResponseSchema(old(settings.projectSnapshot.schemaDefinition), schema))) &&
              settings.directory.settingsFile == Some(Codec.Serialize(settings.projectSnapshot))
  {
    if settings == null {
      return NotInitialized;
    }
    var current := settings.SchemaDefinition();
    var newSchemaDefinition := WithResponseSchema(current, schema);
    settings.Update(NoSnapshotChanges.(schemaDefinition := Some(Some(newSchemaDefinition))));
    r := ResponseSchemaUpdated(schema);
  }
}
