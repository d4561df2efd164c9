/**
 * `ProjectSettings`: owns one in-memory project snapshot and writes it to the
 * project directory's settings file after each successful mutation
 * (src/react_agent/project_snapshot.py:44-149).
 */
module Settings {
  import opened Wrappers
  import opened Json
  import opened Snapshot
  import Codec

  /**
   * A project directory. `settingsFile` is the JSON document stored in
   * `<directory>/optigen.json`, or None when that file does not exist.
   */
  class Directory {
    var settingsFile: Option<Value>

    constructor (settingsFile: Option<Value>)
      ensures this.settingsFile == settingsFile
    {
      this.settingsFile := settingsFile;
    }
  }

  /** `add_constraint`'s `ValueError`: a constraint with this name already exists. */
  datatype AddError = DuplicateName(name: string)

  class ProjectSettings {
    const directory: Directory
    var projectSnapshot: ProjectSnapshot

    /**
     * The settings file exists and reads back as exactly the in-memory snapshot,
     * so a settings object opened afresh on the same directory sees the same state.
     * Every write by this object establishes it; a write to the same directory by
     * another object breaks it, and nothing reloads the file before a change.
     */
    ghost predicate Valid()
      reads this, directory
    {
      directory.settingsFile.Some? && Codec.Parse(directory.settingsFile.value) == Success(projectSnapshot)
    }

    /** Binds a settings object to a directory and an initial snapshot, without touching the file. */
    constructor (directory: Directory, projectSnapshot: ProjectSnapshot)
      ensures this.directory == directory && this.projectSnapshot == projectSnapshot
    {
      this.directory := directory;
      this.projectSnapshot := projectSnapshot;
    }

    /**
     * `ProjectSettings.__init__`: load the stored snapshot when the settings file
     * exists (failing when it does not parse); otherwise start from the supplied
     * snapshot, or the default one, and write it out at once.
     */
    static method Open(directory: Directory, projectSnapshot: Option<ProjectSnapshot>)
      returns (r: Result<ProjectSettings, Codec.DecodeError>)
      modifies directory
      ensures r.Success? ==> fresh(r.value) && r.value.directory == directory && r.value.Valid()
      ensures old(directory.settingsFile).Some? ==>
                unchanged(directory) &&
                match Codec.Parse(old(directory.settingsFile).value)
                case Success(s) => r.Success? && r.value.projectSnapshot == s
                case Failure(e) => r == Failure(e)
      ensures old(directory.settingsFile).None? ==>
                r.Success? &&
                r.value.projectSnapshot == projectSnapshot.GetOr(DefaultSnapshot) &&
                directory.settingsFile == Some(Codec.Serialize(r.value.projectSnapshot))
    {
      match directory.settingsFile {
        case Some(doc) =>
          match Codec.Parse(doc) {
            case Success(s) =>
              var settings := new ProjectSettings(directory, s);
              r := Success(settings);
            case Failure(e) =>
              r := Failure(e);
          }
        case None =>
          var settings := new ProjectSettings(directory, projectSnapshot.GetOr(DefaultSnapshot));
          settings.PersistSettings();
          r := Success(settings);
      }
    }

    /** `persist_settings`: overwrite the settings file with the current snapshot. */
    method PersistSettings()
      modifies directory
      ensures directory.settingsFile == Some(Codec.Serialize(projectSnapshot))
      ensures Valid()
    {
      directory.settingsFile := Some(Codec.Serialize(projectSnapshot));
      Codec.RoundTrip(projectSnapshot);
    }

    // -------------------------------------------------------------------------
    // Read accessors

    function Title(): Option<string>
      reads this
    {
      projectSnapshot.title
    }

    function Description(): Option<string>
      reads this
    {
      projectSnapshot.description
    }

    function Constraints(): seq<Constraint>
      reads this
    {
      projectSnapshot.constraints
    }

    function SchemaDefinition(): Option<UserApiSchemaDefinition>
      reads this
    {
      projectSnapshot.schemaDefinition
    }

    /** `get_request_schema`: the request schema, absent exactly when there is no schema definition. */
    function GetRequestSchema(): (r: Option<Schema>)
      reads this
      ensures r.None? <==> projectSnapshot.schemaDefinition.None?
      ensures r.Some? ==> r.value == projectSnapshot.schemaDefinition.value.requestSchema
    {
      match projectSnapshot.schemaDefinition
      case Some(d) => Some(d.requestSchema)
      case None => None
    }

    /** `get_response_schema`: the response schema, absent exactly when there is no schema definition. */
    function GetResponseSchema(): (r: Option<Schema>)
      reads this
      ensures r.None? <==> projectSnapshot.schemaDefinition.None?
      ensures r.Some? ==> r.value == projectSnapshot.schemaDefinition.value.responseSchema
    {
      match projectSnapshot.schemaDefinition
      case Some(d) => Some(d.responseSchema)
      case None => None
    }

    // -------------------------------------------------------------------------
    // Mutators

    /** `update`: shallow-merge the given fields into the snapshot and persist it. */
    method Update(u: SnapshotUpdate)
      modifies this, directory
      ensures Valid()
      ensures projectSnapshot == old(projectSnapshot).Apply(u)
      ensures directory.settingsFile == Some(Codec.Serialize(projectSnapshot))
    {
      projectSnapshot := projectSnapshot.Apply(u);
      PersistSettings();
    }

    /**
     * `add_constraint`: reject a constraint whose name is taken, leaving list and
     * file as they were; otherwise append it at the end and persist.
     */
    method AddConstraint(constraint: Constraint) returns (r: Outcome<AddError>)
      modifies this, directory
      ensures r.Pass? ==> Valid()
      ensures old(Valid()) ==> Valid()
      ensures NamesUnique(old(projectSnapshot.constraints)) ==> NamesUnique(projectSnapshot.constraints)
      ensures r.Fail? <==> HasName(old(projectSnapshot.constraints), constraint.name)
      ensures r.Fail? ==>
                r.error == DuplicateName(constraint.name) &&
                projectSnapshot == old(projectSnapshot) && unchanged(directory)
      ensures r.Pass? ==>
                projectSnapshot == old(projectSnapshot).(constraints := old(projectSnapshot.constraints) + [constraint]) &&
                directory.settingsFile == Some(Codec.Serialize(projectSnapshot))
    {
      if HasName(projectSnapshot.constraints, constraint.name) {
        return Fail(DuplicateName(constraint.name));
      }
      if NamesUnique(projectSnapshot.constraints) {
        AppendKeepsUnique(projectSnapshot.constraints, constraint);
      }
      projectSnapshot := projectSnapshot.(constraints := projectSnapshot.constraints + [constraint]);
      PersistSettings();
      r := Pass;
    }

    /**
     * `remove_constraint`: drop every constraint with the name, report whether
     * any went, and persist only when one did.
     */
    method RemoveConstraint(constraintName: string) returns (removed: bool)
      modifies this, directory
      ensures removed ==> Valid()
      ensures old(Valid()) ==> Valid()
      ensures NamesUnique(old(projectSnapshot.constraints)) ==> NamesUnique(projectSnapshot.constraints)
      ensures removed <==> HasName(old(projectSnapshot.constraints), constraintName)
      ensures projectSnapshot == old(projectSnapshot).(constraints := RemoveNamed(old(projectSnapshot.constraints), constraintName))
      ensures removed ==> directory.settingsFile == Some(Codec.Serialize(projectSnapshot))
      ensures !removed ==> projectSnapshot == old(projectSnapshot) && unchanged(directory)
    {
      var originalLength := |projectSnapshot.constraints|;
      RemoveNamedShrinks(projectSnapshot.constraints, constraintName);
      if NamesUnique(projectSnapshot.constraints) {
        RemoveNamedKeepsUnique(projectSnapshot.constraints, constraintName);
      }
      projectSnapshot := projectSnapshot.(constraints := RemoveNamed(projectSnapshot.constraints, constraintName));
      removed := |projectSnapshot.constraints| < originalLength;
      if removed {
        PersistSettings();
      }
    }

    /** `get_constraint_by_name`: scan for the first constraint with the name. */
    method GetConstraintByName(name: string) returns (r: Option<Constraint>)
      ensures r == Lookup(projectSnapshot.constraints, name)
    {
      var cs := projectSnapshot.constraints;
      var i := 0;
      while i < |cs|
        invariant 0 <= i <= |cs|
        invariant forall j | 0 <= j < i :: cs[j].name != name
      {
        if cs[i].name == name {
          FirstIndexIs(cs, name, i);
          return Some(cs[i]);
        }
        i := i + 1;
      }
      return None;
    }

    /**
     * `update_constraint`: when no constraint has the name, report false and
     * change nothing; otherwise replace the first one with a copy that has the
     * given fields merged in, persist, and report true. The entry keeps its
     * name, so names that were unique stay unique.
     */
    method UpdateConstraint(name: string, u: ConstraintUpdate) returns (updated: bool)
      modifies this, directory
      ensures updated ==> Valid()
      ensures old(Valid()) ==> Valid()
      ensures NamesUnique(old(projectSnapshot.constraints)) ==> NamesUnique(projectSnapshot.constraints)
      ensures updated <==> HasName(old(projectSnapshot.constraints), name)
      ensures projectSnapshot == old(projectSnapshot).(constraints := ReplaceFirst(old(projectSnapshot.constraints), name, u))
      ensures updated ==> directory.settingsFile == Some(Codec.Serialize(projectSnapshot))
      ensures !updated ==> projectSnapshot == old(projectSnapshot) && unchanged(directory)
    {
      var constraint := GetConstraintByName(name);
      if constraint.None? {
        return false;
      }
      var replacement := constraint.value.Apply(u);
      var cs := projectSnapshot.constraints;
      var i := 0;
      while i < |cs|
        invariant 0 <= i <= |cs|
        invariant projectSnapshot == old(projectSnapshot)
        invariant forall j | 0 <= j < i :: cs[j].name != name
      {
        if cs[i].name == name {
          FirstIndexIs(cs, name, i);
          projectSnapshot := projectSnapshot.(constraints := projectSnapshot.constraints[i := replacement]);
          break;
        }
        i := i + 1;
      }
      PersistSettings();
      if NamesUnique(old(projectSnapshot.constraints)) {
        ReplaceFirstKeepsUnique(old(projectSnapshot.constraints), name, u);
      }
      return true;
    }
  }
}
