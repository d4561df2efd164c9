# OptiGen project settings, modelled in Dafny

This project models the project-settings component of OptiGen: the snapshot
that describes one optimisation problem (title, description, constraints and
objectives, request/response schemas), the `ProjectSettings` object that keeps
that snapshot in memory and writes it to `<directory>/optigen.json` after each
successful change, and the agent tools that edit it.

Modules:

- `Wrappers` (`wrappers.dfy`): `Option`, `Result`, `Outcome`.
- `Json` (`json.dfy`): JSON documents as trees. The schemas (`Dict[str, Any]`) and the settings file are values of this type.
- `Snapshot` (`snapshot.dfy`): the value types `Constraint`, `UserApiSchemaDefinition` and `ProjectSnapshot`, with their pydantic defaults.
  It also holds the shallow merges done by `model_copy(update=...)` and the pure list logic behind the constraint operations, with its lemmas.
  The lemmas cover lookup of the first match, removal by name (order kept, names kept unique), and replacement of the first match.
- `Codec` (`codec.dfy`): the JSON form of a snapshot (`model_dump_json` / `model_validate_json`) and the proof that reading back what was written gives the same snapshot.
- `Settings` (`settings.dfy`): class `Directory`, whose field `settingsFile` is the content of `optigen.json` (None when the file is absent), and class `ProjectSettings`.
  Its invariant `Valid()` says the file exists and reads back as exactly the in-memory snapshot.
  Every mutator keeps that invariant, so a settings object opened afresh on the same directory sees what the last one wrote.
- `Tools` (`tools.dfy`): each tool takes the bound settings object, or null when none is bound. It returns the kind of message the tool produces.
- `Scenarios` (`scenarios.dfy`): client methods, one per unit test of `tests/unit_tests/test_project_snapshot.py` (the two schema-getter tests share one method), that replay each test's steps and assertions using only the contracts above.

Conventions:

- A constraint's `type` field is called `kind`, since `type` is a Dafny keyword.
- `Constraint.__eq__`, which compares names only, is `Constraint.SameEntity`. Dafny's `==` on constraints stays structural.
- The keyword arguments of `update` and `update_constraint` are `SnapshotUpdate` and `ConstraintUpdate`. These are records with one `Option` per field, and `Some(v)` means the field is given.
- `ProjectSettings.__init__` raises when an existing file does not validate. It is modelled as the static method `Open`, which returns a `Result`. The unnamed constructor only binds the fields.
- Python truthiness is modelled explicitly. A settings object or a pydantic model is always truthy, so `x if obj else ...` tests for `None`. An `Optional[str]` is truthy when it is present and non-empty.

The code has no lock and does not reload the file before a change. It writes the file in place, not through a temporary file and a rename.
So two settings objects on one directory each write their own snapshot, and the later write silently drops the earlier one's change.
The mutators therefore do not require the file to match the object: each write re-establishes `Valid()`, and `Scenarios.TwoWritersLoseAnUpdate` shows the lost update.
The code writes the file as soon as a settings object is created on a directory without one.
It has no scenario or run-record operations.
A corrupt file is reported as an error. The model reports the first offending field the reader checks, or `""` when the document is not an object; pydantic lists every failing location.

## Model

| member | source | states |
|---|---|---|
| `Snapshot.Constraint.Apply` | src/react_agent/project_snapshot.py:124 | `model_copy(update=...)` on a constraint: every given field takes its new value, every other field, and the name, keeps its old one |
| `Snapshot.ProjectSnapshot.Apply` | src/react_agent/project_snapshot.py:76-79 | the shallow merge of `update`: given snapshot fields take their new values, all others are unchanged |
| `Snapshot.ApplyIdempotent` | src/react_agent/project_snapshot.py:78 | merging the same fields twice gives the same snapshot as merging them once |
| `Snapshot.HasNameIsMembership` | src/react_agent/project_snapshot.py:19-23 | the duplicate test of `add_constraint` (some entry has the same name) is list membership under the name-only `__eq__` |
| `Snapshot.FirstIndex` | src/react_agent/project_snapshot.py:126-129 | the position found is the first one holding the name, and there is none exactly when no entry has the name |
| `Snapshot.FirstIndexIs` | src/react_agent/project_snapshot.py:126-129 | a position whose entry has the name, with no earlier entry having it, is the one the scan stops at |
| `Snapshot.Lookup` | src/react_agent/project_snapshot.py:111-116 | the result is absent exactly when no constraint has the name; otherwise it is the first constraint with that name |
| `Snapshot.RemoveNamed` | src/react_agent/project_snapshot.py:103-105 | no remaining entry has the name, every remaining entry was in the list, every entry with another name remains, and the length drops by exactly the number of entries with the name |
| `Snapshot.RemoveNamedShrinks` | src/react_agent/project_snapshot.py:102-109 | the list gets shorter exactly when some entry had the name; otherwise it is unchanged |
| `Snapshot.RemoveNamedKeepsOrder` | src/react_agent/project_snapshot.py:103-105 | the remaining constraints are a subsequence of the old list, so they keep their relative order |
| `Snapshot.RemoveNamedKeepsUnique` | src/react_agent/project_snapshot.py:100-109 | if names were unique before a removal, they are unique after it |
| `Snapshot.AppendKeepsUnique` | src/react_agent/project_snapshot.py:92-97 | appending a constraint whose name no entry has keeps names unique |
| `Snapshot.LookupAfterAppend` | src/react_agent/project_snapshot.py:92-97 | after appending a constraint with a new name, looking that name up yields exactly that constraint |
| `Snapshot.LookupAfterRemove` | src/react_agent/project_snapshot.py:103-105 | after removing a name, looking it up yields nothing |
| `Snapshot.ReplaceFirst` | src/react_agent/project_snapshot.py:118-132 | same length; unchanged when the name is absent; otherwise only the first entry with the name is replaced, by its merge with the given fields |
| `Snapshot.LookupAfterReplace` | src/react_agent/project_snapshot.py:118-132 | looking the name up afterwards yields the old first match with the given fields merged in |
| `Snapshot.ReplaceFirstKeepsUnique` | src/react_agent/project_snapshot.py:124-129 | if names were unique before an update by name, they are unique after it |
| `Codec.Serialize` | src/react_agent/project_snapshot.py:64 | the stored document is an object whose keys are exactly the snapshot's field names, with one array entry per constraint |
| `Codec.Parse` | src/react_agent/project_snapshot.py:55-57 | only an object loads; a loaded snapshot has one constraint per entry of the `constraints` array, and none when the key is missing |
| `Codec.ConstraintWithoutNameRejected` | src/react_agent/project_snapshot.py:12 | a constraint object without a string `name` is rejected, naming that field |
| `Codec.BadConstraintRejected` | src/react_agent/project_snapshot.py:40 | a constraint array with any invalid entry is rejected as a whole |
| `Codec.DocumentWithBadConstraintRejected` | src/react_agent/project_snapshot.py:55-57 | a document whose constraint array holds an invalid constraint does not load, whatever its other fields |
| `Codec.ConstraintsRoundTrip` | src/react_agent/project_snapshot.py:9-17 | a constraint list written as JSON reads back as the same list |
| `Codec.RoundTrip` | src/react_agent/project_snapshot.py:55-64 | a snapshot written by `persist_settings` reads back, field for field, as the snapshot that was written |
| `Codec.EmptyDocumentIsDefault` | src/react_agent/project_snapshot.py:36-41 | the document `{}` reads as the default snapshot: version "0.0.1", snapshot version 1, no title or description, no constraints, no schema definition |
| `Settings.ProjectSettings.constructor` | src/react_agent/project_snapshot.py:51-52 | binds the directory and the snapshot |
| `Settings.ProjectSettings.Open` | src/react_agent/project_snapshot.py:47-60 | an existing file is left alone and either loaded or reported as invalid; otherwise the supplied snapshot (or the default) is used and written, so the file exists afterwards; on success the file reads back as the in-memory snapshot |
| `Settings.ProjectSettings.PersistSettings` | src/react_agent/project_snapshot.py:62-64 | the file now holds the serialised snapshot and reads back as the in-memory snapshot |
| `Settings.ProjectSettings.GetRequestSchema` | src/react_agent/project_snapshot.py:139-143 | absent exactly when there is no schema definition; otherwise its request schema |
| `Settings.ProjectSettings.GetResponseSchema` | src/react_agent/project_snapshot.py:145-149 | absent exactly when there is no schema definition; otherwise its response schema |
| `Settings.ProjectSettings.Update` | src/react_agent/project_snapshot.py:76-79 | from any state, the snapshot becomes the shallow merge of the given fields and is persisted, so a reopened object sees the new values |
| `Settings.ProjectSettings.AddConstraint` | src/react_agent/project_snapshot.py:86-98 | fails with the duplicate name exactly when some constraint in memory has that name, leaving snapshot and file untouched; otherwise the new list is the old list plus the constraint at the end, and it overwrites the file; unique names stay unique |
| `Settings.ProjectSettings.RemoveConstraint` | src/react_agent/project_snapshot.py:100-109 | returns true exactly when some constraint had the name; the list becomes the old list without that name; the file is rewritten only when something was removed; unique names stay unique |
| `Settings.ProjectSettings.GetConstraintByName` | src/react_agent/project_snapshot.py:111-116 | the scan returns the first constraint with the name, or None when there is none, and changes nothing |
| `Settings.ProjectSettings.UpdateConstraint` | src/react_agent/project_snapshot.py:118-132 | returns true exactly when the name is present; then only its first entry is replaced by the merge and the result is persisted; otherwise nothing changes and nothing is written; unique names stay unique |
| `Tools.WithRequestSchema` | src/react_agent/tools.py:176-181 | the new pair has the given request schema and keeps the previous response schema, or `{}` when there was no schema definition |
| `Tools.WithResponseSchema` | src/react_agent/tools.py:204-209 | the new pair has the given response schema and keeps the previous request schema, or `{}` when there was no schema definition |
| `Tools.SchemaHalvesCommute` | src/react_agent/tools.py:176-210 | setting the request half and then the response half, or the other way round, stores exactly the pair of the two |
| `Tools.ReadProblemSpecification` | src/react_agent/tools.py:26-40 | with no settings bound the result is `{}`; otherwise it is a document that reads back as the in-memory snapshot |
| `Tools.AddConstraint` | src/react_agent/tools.py:83-100 | not-initialized with no settings; rejected exactly on a duplicate name, with nothing changed; otherwise the constraint built from the arguments is appended, no other snapshot field changes, and the result is persisted |
| `Tools.RemoveConstraint` | src/react_agent/tools.py:112-119 | not-initialized with no settings; "removed" exactly when some constraint had the name, with only the constraint list changed and the result persisted; "not found" otherwise, with nothing changed |
| `Tools.UpdateProjectMetadata` | src/react_agent/tools.py:137-155 | not-initialized with no settings; each of title and description is written exactly when truthy; the result lists the written fields, title first, and is "no updates" exactly when neither is truthy, in which case nothing is written |
| `Tools.UpdateRequestSchema` | src/react_agent/tools.py:172-183 | not-initialized with no settings; otherwise the request schema becomes the given one, the response schema is the previous one or `{}`, and the result is persisted |
| `Tools.UpdateResponseSchema` | src/react_agent/tools.py:200-211 | not-initialized with no settings; otherwise the response schema becomes the given one, the request schema is the previous one or `{}`, and the result is persisted |

The property getters `title`, `description`, `constraints` and `schema_definition`
(src/react_agent/project_snapshot.py:66-84 and 134-137) are the functions
`Title`, `Description`, `Constraints` and `SchemaDefinition` of
`Settings.ProjectSettings`. They return the snapshot's field and carry no contract of their own.

## Left out

- File I/O is not modelled as text. The file holds a JSON document tree, so `write_text`, `read_text`, the indentation and the character encoding are not part of the model.
- Pydantic validation is modelled only as far as the model declarations go: required fields, defaults, ignored extra keys, and values of the wrong shape. Pydantic's lax coercions (for example `"1"` accepted as an int) are not modelled, and `Codec.Parse` rejects them.
- Aliasing is not modelled. The snapshot is a value, so a caller that keeps the list returned by the `constraints` property, or the snapshot it passed to the constructor, does not see later in-place appends. In the source it does.
- `update` and `update_constraint` accept only the declared fields, with their declared types. `model_copy(update=...)` itself accepts any key and does not validate values.
- `update_constraint` called with a `name` keyword raises `TypeError` in the source, because `name` is its own parameter. `ConstraintUpdate` has no name field, so that call cannot be written in the model.
- JSON numbers with a fractional part (for example `{"minimum": 0.5}` inside a schema) have no case in `Json.Value`, so such schemas cannot be represented. Floating point is not modelled.
- `search` is left out: a network call to a search service.
- `available_python_dependencies` is left out: a constant string.
- `add_scenario` and `remove_scenario` are left out. They call `ProjectSettings.add_scenario`/`remove_scenario` and a `Scenario` type, and neither is defined in `src/react_agent/project_snapshot.py`. The scenario and run-record parts of the snapshot are left out with them.
- File reads and writes never fail in the model. In the source, `write_text` (`src/react_agent/project_snapshot.py:64`) raises when the directory is missing, also from the constructor (`:60`). A failed write in `add_constraint` leaves the appended constraint in memory (`:97`), and the tool catches only `ValueError` (`src/react_agent/tools.py:98`). `ProjectSettings.Open` and the mutators always succeed here.
- Pydantic's error detail is left out. `Codec.Parse` returns only the bare name of the first offending field it checks (inside a constraint, the constraint's own field, such as `name`), or `""` for a non-object, where pydantic reports every failing location (for example `constraints.0.name`).
- The exact wording of tool messages, including the `json.dumps` of a schema, is left out. The tools return message kinds.
- `src/react_agent/mcp.py`, `src/react_agent/graph.py` and `src/react_agent/prompts.py` are left out: process and model wiring, and prompt text.
- The run-time context lookup (`get_runtime(Context)`) is left out. Each tool receives the bound settings object, possibly null, as a parameter.
