/**
 * Clients of ProjectSettings, one per unit test in
 * tests/unit_tests/test_project_snapshot.py (SchemaHelpers covers both schema
 * getter tests), plus the lost update between two writers. Every `assert`
 * below follows from the contracts of Open, the getters and the mutators alone.
 */
module Scenarios {
  import opened Wrappers
  import opened Json
  import opened Snapshot
  import opened Settings

  const TestConstraint: Constraint := Constraint("test_constraint", "A test constraint", Hard, None, "x > 0", "x is a variable")

  /** The `sample_project_snapshot` fixture. */
  const SampleSnapshot: ProjectSnapshot :=
    DefaultSnapshot.(
      title := Some("Test Project"),
      description := Some("A test project description"),
      constraints := [TestConstraint],
      schemaDefinition := Some(UserApiSchemaDefinition(
        map["type" := JString("object"), "properties" := JObject(map["input" := JObject(map["type" := JString("string")])])],
        map["type" := JString("object"), "properties" := JObject(map["output" := JObject(map["type" := JString("string")])])])))

  /** Opening an empty directory without a snapshot starts from the default and creates the file. */
  method InitCreatesSnapshotIfNone() {
    var dir := new Directory(None);
    var r := ProjectSettings.Open(dir, None);
    assert r.Success?;
    var settings := r.value;
    assert settings.Title() == None;
    assert dir.settingsFile.Some?;
  }

  /** A title written through one settings object is seen by the next one opened on the directory. */
  method InitLoadsExistingSnapshot() {
    var dir := new Directory(None);
    var r := ProjectSettings.Open(dir, None);
    var original := r.value;
    original.Update(NoSnapshotChanges.(title := Some(Some("Loaded Title"))));
    var reopened := ProjectSettings.Open(dir, None);
    assert reopened.Success? && reopened.value.Title() == Some("Loaded Title");
  }

  /** The title reads from the snapshot; `update` changes it, and a reopened object sees the change. */
  method TitlePropertyAndUpdate() {
    var dir := new Directory(None);
    var r := ProjectSettings.Open(dir, Some(SampleSnapshot));
    var settings := r.value;
    assert settings.Title() == Some("Test Project");
    settings.Update(NoSnapshotChanges.(title := Some(Some("New Title"))));
    assert settings.Title() == Some("New Title");
    var reopened := ProjectSettings.Open(dir, None);
    assert reopened.Success? && reopened.value.Title() == Some("New Title");
  }

  /** The description reads from the snapshot; `update` changes it, and a reopened object sees the change. */
  method DescriptionPropertyAndUpdate() {
    var dir := new Directory(None);
    var r := ProjectSettings.Open(dir, Some(SampleSnapshot));
    var settings := r.value;
    assert settings.Description() == Some("A test project description");
    settings.Update(NoSnapshotChanges.(description := Some(Some("New Description"))));
    assert settings.Description() == Some("New Description");
    var reopened := ProjectSettings.Open(dir, None);
    assert reopened.Success? && reopened.value.Description() == Some("New Description");
  }

  /** A schema definition written through `update` is read back, here and by a reopened object. */
  method SchemaDefinitionPropertyAndUpdate() {
    var dir := new Directory(None);
    var r := ProjectSettings.Open(dir, Some(SampleSnapshot));
    var settings := r.value;
    assert settings.SchemaDefinition().Some?;
    var newSchema := UserApiSchemaDefinition(
      map["type" := JString("object"), "properties" := JObject(map["new" := JObject(map["type" := JString("int")])])],
      map["type" := JString("object")]);
    settings.Update(NoSnapshotChanges.(schemaDefinition := Some(Some(newSchema))));
    var current := settings.SchemaDefinition();
    assert current.Some? && "new" in current.value.requestSchema["properties"].fields;
    var reopened := ProjectSettings.Open(dir, None);
    assert reopened.Success?;
    var loaded := reopened.value.SchemaDefinition();
    assert loaded.Some? && "new" in loaded.value.requestSchema["properties"].fields;
  }

  /** One `update` call sets title and description together, and a reopened object sees both. */
  method UpdateMethod() {
    var dir := new Directory(None);
    var r := ProjectSettings.Open(dir, Some(SampleSnapshot));
    var settings := r.value;
    settings.Update(NoSnapshotChanges.(title := Some(Some("Updated Title")), description := Some(Some("Updated Description"))));
    assert settings.Title() == Some("Updated Title") && settings.Description() == Some("Updated Description");
    var reopened := ProjectSettings.Open(dir, None);
    assert reopened.Success?;
    assert reopened.value.Title() == Some("Updated Title") && reopened.value.Description() == Some("Updated Description");
  }

  /** The constraints property returns the fixture's single constraint. */
  method ConstraintsProperty() {
    var dir := new Directory(None);
    var r := ProjectSettings.Open(dir, Some(SampleSnapshot));
    var settings := r.value;
    var constraints := settings.Constraints();
    assert |constraints| == 1 && constraints[0].name == "test_constraint";
  }

  /** Adding a constraint grows the list by one, the new name finds it, and a reopened object sees both. */
  method AddConstraintPersists() {
    var dir := new Directory(None);
    var r := ProjectSettings.Open(dir, Some(SampleSnapshot));
    var settings := r.value;
    var added := Constraint("new", "new constraint", Soft, None, "", "");
    var outcome := settings.AddConstraint(added);
    assert outcome.Pass?;
    assert |settings.Constraints()| == 2;
    LookupAfterAppend([TestConstraint], added);
    var found := settings.GetConstraintByName("new");
    assert found == Some(added);
    var reopened := ProjectSettings.Open(dir, None);
    assert reopened.Success? && |reopened.value.Constraints()| == 2;

    var again := settings.AddConstraint(added.(description := "another"));
    assert again == Fail(DuplicateName("new"));
    assert |settings.Constraints()| == 2;
  }

  /** Removing the one constraint empties the list; removing an absent name reports false. */
  method RemoveConstraintPersists() {
    var dir := new Directory(None);
    var r := ProjectSettings.Open(dir, Some(SampleSnapshot));
    var settings := r.value;
    var removed := settings.RemoveConstraint("test_constraint");
    assert removed;
    assert |settings.Constraints()| == 0;
    removed := settings.RemoveConstraint("nonexistent");
    assert !removed;
    var reopened := ProjectSettings.Open(dir, None);
    assert reopened.Success? && |reopened.value.Constraints()| == 0;
  }

  /** Updating one field of a constraint keeps the others, here its type. */
  method UpdateConstraintKeepsOtherFields() {
    var dir := new Directory(None);
    var r := ProjectSettings.Open(dir, Some(SampleSnapshot));
    var settings := r.value;
    var u := NoConstraintChanges.(description := Some("Updated"));
    var updated := settings.UpdateConstraint("test_constraint", u);
    assert updated;
    LookupAfterReplace([TestConstraint], "test_constraint", u);
    var c := settings.GetConstraintByName("test_constraint");
    assert c.Some? && c.value.description == "Updated" && c.value.kind == Hard;
    var reopened := ProjectSettings.Open(dir, None);
    assert reopened.Success?;
    var again := reopened.value.GetConstraintByName("test_constraint");
    assert again.Some? && again.value.description == "Updated";
  }

  /** The schema helpers return the halves of the stored schema definition. */
  method SchemaHelpers() {
    var dir := new Directory(None);
    var r := ProjectSettings.Open(dir, Some(SampleSnapshot));
    var settings := r.value;
    var request := settings.GetRequestSchema();
    assert request.Some? && "properties" in request.value;
    assert request.value["properties"].JObject? && "input" in request.value["properties"].fields;
    var response := settings.GetResponseSchema();
    assert response.Some? && "properties" in response.value;
    assert response.value["properties"].JObject? && "output" in response.value["properties"].fields;
  }

  /**
   * Two settings objects on one directory: each writes its own in-memory snapshot
   * and nothing reloads the file first, so the second add overwrites the first.
   */
  method TwoWritersLoseAnUpdate() {
    var dir := new Directory(None);
    var ra := ProjectSettings.Open(dir, None);
    var a := ra.value;
    var rb := ProjectSettings.Open(dir, None);
    var b := rb.value;
    var c1 := Constraint("c1", "first", Hard, None, "", "");
    var c2 := Constraint("c2", "second", Hard, None, "", "");
    var first := a.AddConstraint(c1);
    assert first.Pass?;
    var second := b.AddConstraint(c2);
    assert second.Pass?;
    var reopened := ProjectSettings.Open(dir, None);
    assert reopened.Success? && reopened.value.Constraints() == [c2];
  }
}
