/**
 * The value types of a project snapshot (src/react_agent/project_snapshot.py)
 * and the pure list logic behind the constraint operations of ProjectSettings:
 * lookup by name, removal by name, replacement of the first entry with a name,
 * and the shallow merges performed by pydantic's `model_copy(update=...)`.
 */
module Snapshot {
  import opened Wrappers
  import Json

  /** A JSON-schema-shaped mapping (Python `Dict[str, Any]`). */
  type Schema = Json.Object

  /** `Literal["hard", "soft"]`. */
  datatype ConstraintType = Hard | Soft

  /**
   * A constraint or objective. The source's field `type` is called `kind`
   * here, since `type` is a keyword. Structural equality (`==`) compares all
   * fields; the source's name-only `__eq__` is `SameEntity`.
   */
  datatype Constraint = Constraint(
    name: string,
    description: string,
    kind: ConstraintType,
    rank: Option<int>,
    formula: string,
    where: string)
  {
    /** `Constraint.__eq__`: two constraints are the same entity iff their names agree. */
    predicate SameEntity(other: Constraint) {
      name == other.name
    }

    /** `model_copy(update=u)`: the fields `u` gives take their new values, the others (and the name) are kept. */
    function Apply(u: ConstraintUpdate): (r: Constraint)
      ensures r.name == name
      ensures u.description.Some? ==> r.description == u.description.value
      ensures u.description.None? ==> r.description == description
      ensures u.kind.Some? ==> r.kind == u.kind.value
      ensures u.kind.None? ==> r.kind == kind
      ensures u.rank.Some? ==> r.rank == u.rank.value
      ensures u.rank.None? ==> r.rank == rank
      ensures u.formula.Some? ==> r.formula == u.formula.value
      ensures u.formula.None? ==> r.formula == formula
      ensures u.where.Some? ==> r.where == u.where.value
      ensures u.where.None? ==> r.where == where
    {
      Constraint(
        name,
        u.description.GetOr(description),
        u.kind.GetOr(kind),
        u.rank.GetOr(rank),
        u.formula.GetOr(formula),
        u.where.GetOr(where))
    }
  }

  /**
   * The keyword arguments of `update_constraint`: `Some(v)` for a field that is
   * given. There is no `name`: `name` is that method's own parameter, so it can
   * never arrive among the keyword arguments.
   */
  datatype ConstraintUpdate = ConstraintUpdate(
    description: Option<string>,
    kind: Option<ConstraintType>,
    rank: Option<Option<int>>,
    formula: Option<string>,
    where: Option<string>)

  const NoConstraintChanges: ConstraintUpdate := ConstraintUpdate(None, None, None, None, None)

  /** `UserAPISchemaDefinition`: the request and the response schema of the user API. */
  datatype UserApiSchemaDefinition = UserApiSchemaDefinition(requestSchema: Schema, responseSchema: Schema)

  /** The complete configuration of one optimisation problem. */
  datatype ProjectSnapshot = ProjectSnapshot(
    optigenSnapshotVersion: string,
    snapshotVersion: int,
    title: Option<string>,
    description: Option<string>,
    constraints: seq<Constraint>,
    schemaDefinition: Option<UserApiSchemaDefinition>)
  {
    /** `model_copy(update=u)`: a shallow merge of the fields `u` gives. */
    function Apply(u: SnapshotUpdate): (r: ProjectSnapshot)
      ensures u.optigenSnapshotVersion.Some? ==> r.optigenSnapshotVersion == u.optigenSnapshotVersion.value
      ensures u.optigenSnapshotVersion.None? ==> r.optigenSnapshotVersion == optigenSnapshotVersion
      ensures u.snapshotVersion.Some? ==> r.snapshotVersion == u.snapshotVersion.value
      ensures u.snapshotVersion.None? ==> r.snapshotVersion == snapshotVersion
      ensures u.title.Some? ==> r.title == u.title.value
      ensures u.title.None? ==> r.title == title
      ensures u.description.Some? ==> r.description == u.description.value
      ensures u.description.None? ==> r.description == description
      ensures u.constraints.Some? ==> r.constraints == u.constraints.value
      ensures u.constraints.None? ==> r.constraints == constraints
      ensures u.schemaDefinition.Some? ==> r.schemaDefinition == u.schemaDefinition.value
      ensures u.schemaDefinition.None? ==> r.schemaDefinition == schemaDefinition
    {
      ProjectSnapshot(
        u.optigenSnapshotVersion.GetOr(optigenSnapshotVersion),
        u.snapshotVersion.GetOr(snapshotVersion),
        u.title.GetOr(title),
        u.description.GetOr(description),
        u.constraints.GetOr(constraints),
        u.schemaDefinition.GetOr(schemaDefinition))
    }
  }

  /** The keyword arguments of `ProjectSettings.update`: `Some(v)` for a field that is given. */
  datatype SnapshotUpdate = SnapshotUpdate(
    optigenSnapshotVersion: Option<string>,
    snapshotVersion: Option<int>,
    title: Option<Option<string>>,
    description: Option<Option<string>>,
    constraints: Option<seq<Constraint>>,
    schemaDefinition: Option<Option<UserApiSchemaDefinition>>)

  const NoSnapshotChanges: SnapshotUpdate := SnapshotUpdate(None, None, None, None, None, None)

  /** `ProjectSnapshot()`: the field defaults of the pydantic model. */
  const DefaultSnapshot: ProjectSnapshot := ProjectSnapshot("0.0.1", 1, None, None, [], None)

  /** Merging the same fields twice is the same as merging them once. */
  lemma ApplyIdempotent(s: ProjectSnapshot, u: SnapshotUpdate)
    ensures s.Apply(u).Apply(u) == s.Apply(u)
  {
  }

  // ---------------------------------------------------------------------------
  // Constraint lists, keyed by name

  /** Some constraint in `cs` is named `n` (the duplicate test of `add_constraint`). */
  predicate HasName(cs: seq<Constraint>, n: string) {
    exists i | 0 <= i < |cs| :: cs[i].name == n
  }

  /** No two constraints of `cs` share a name. */
  ghost predicate NamesUnique(cs: seq<Constraint>) {
    forall i, j | 0 <= i < j < |cs| :: cs[i].name != cs[j].name
  }

  /** The duplicate test on names is list membership under the name-only `__eq__`. */
  lemma HasNameIsMembership(cs: seq<Constraint>, c: Constraint)
    ensures HasName(cs, c.name) <==> exists i | 0 <= i < |cs| :: cs[i].SameEntity(c)
  {
  }

  /** The position of the first constraint named `n`, or None when there is none. */
  function FirstIndex(cs: seq<Constraint>, n: string): (r: Option<nat>)
    ensures r.None? <==> !HasName(cs, n)
    ensures r.Some? ==> r.value < |cs| && cs[r.value].name == n
    ensures r.Some? ==> forall j | 0 <= j < r.value :: cs[j].name != n
  {
    if |cs| == 0 then None
    else if cs[0].name == n then Some(0)
    else
      match FirstIndex(cs[1..], n)
      case None => None
      case Some(k) => Some(k + 1)
  }

  /** The first position holding name `n` is the one `FirstIndex` finds. */
  lemma FirstIndexIs(cs: seq<Constraint>, n: string, k: nat)
    requires k < |cs| && cs[k].name == n
    requires forall j | 0 <= j < k :: cs[j].name != n
    ensures FirstIndex(cs, n) == Some(k)
  {
  }

  /** `get_constraint_by_name`: the first constraint named `n`, or None. */
  function Lookup(cs: seq<Constraint>, n: string): (r: Option<Constraint>)
    ensures r.None? <==> !HasName(cs, n)
    ensures r.Some? ==> r.value.name == n
    ensures r.Some? ==> exists k | 0 <= k < |cs| :: cs[k] == r.value && forall j | 0 <= j < k :: cs[j].name != n
  {
    match FirstIndex(cs, n)
    case None => None
    case Some(k) => Some(cs[k])
  }

  /** How many constraints of `cs` are named `n`. */
  function CountNamed(cs: seq<Constraint>, n: string): nat {
    if |cs| == 0 then 0 else (if cs[0].name == n then 1 else 0) + CountNamed(cs[1..], n)
  }

  /**
   * The list comprehension of `remove_constraint`: every constraint named `n`
   * dropped. With `RemoveNamedKeepsOrder` this fixes the result: the entries
   * with other names, each as often as before, in their old order.
   */
  function RemoveNamed(cs: seq<Constraint>, n: string): (r: seq<Constraint>)
    ensures |r| == |cs| - CountNamed(cs, n)
    ensures forall i | 0 <= i < |r| :: r[i].name != n
    ensures forall c | c in r :: c in cs
    ensures forall i | 0 <= i < |cs| && cs[i].name != n :: cs[i] in r
  {
    if |cs| == 0 then []
    else if cs[0].name == n then RemoveNamed(cs[1..], n)
    else [cs[0]] + RemoveNamed(cs[1..], n)
  }

  /** `a` is `b` with some entries deleted, the rest kept in their order. */
  ghost predicate IsSubsequence(a: seq<Constraint>, b: seq<Constraint>)
    decreases |b|
  {
    |a| == 0 ||
    (|b| > 0 &&
      ((a[0] == b[0] && IsSubsequence(a[1..], b[1..])) || IsSubsequence(a, b[1..])))
  }

  /** Removal shortens the list exactly when the name was present; otherwise the list is unchanged. */
  lemma {:induction false} RemoveNamedShrinks(cs: seq<Constraint>, n: string)
    ensures |RemoveNamed(cs, n)| < |cs| <==> HasName(cs, n)
    ensures !HasName(cs, n) ==> RemoveNamed(cs, n) == cs
  {
    if |cs| > 0 {
      RemoveNamedShrinks(cs[1..], n);
      assert cs == [cs[0]] + cs[1..];
      if cs[0].name != n {
        assert HasName(cs[1..], n) ==> HasName(cs, n) by {
          if HasName(cs[1..], n) {
            var i :| 0 <= i < |cs[1..]| && cs[1..][i].name == n;
            assert cs[i + 1].name == n;
          }
        }
        assert HasName(cs, n) ==> HasName(cs[1..], n) by {
          if HasName(cs, n) {
            var i :| 0 <= i < |cs| && cs[i].name == n;
            assert i > 0 && cs[1..][i - 1].name == n;
          }
        }
      }
    }
  }

  /** Removal keeps the remaining constraints in their relative order. */
  lemma {:induction false} RemoveNamedKeepsOrder(cs: seq<Constraint>, n: string)
    ensures IsSubsequence(RemoveNamed(cs, n), cs)
  {
    if |cs| > 0 {
      RemoveNamedKeepsOrder(cs[1..], n);
      var rest := RemoveNamed(cs[1..], n);
      if cs[0].name != n {
        var r := [cs[0]] + rest;
        assert r[0] == cs[0] && r[1..] == rest;
      }
    }
  }

  /** Removal keeps names unique. */
  lemma {:induction false} RemoveNamedKeepsUnique(cs: seq<Constraint>, n: string)
    requires NamesUnique(cs)
    ensures NamesUnique(RemoveNamed(cs, n))
  {
    if |cs| > 0 {
      var tail := cs[1..];
      assert NamesUnique(tail) by {
        forall i, j | 0 <= i < j < |tail| ensures tail[i].name != tail[j].name {
          assert tail[i] == cs[i + 1] && tail[j] == cs[j + 1];
        }
      }
      RemoveNamedKeepsUnique(tail, n);
      var rest := RemoveNamed(tail, n);
      if cs[0].name != n {
        var r := [cs[0]] + rest;
        forall i, j | 0 <= i < j < |r| ensures r[i].name != r[j].name {
          if i == 0 {
            assert r[j] == rest[j - 1] && r[j] in tail;
            var k :| 0 <= k < |tail| && tail[k] == r[j];
            assert cs[k + 1] == r[j];
          } else {
            assert r[i] == rest[i - 1] && r[j] == rest[j - 1];
          }
        }
      }
    }
  }

  /** Appending a constraint whose name is new keeps names unique. */
  lemma AppendKeepsUnique(cs: seq<Constraint>, c: Constraint)
    requires NamesUnique(cs) && !HasName(cs, c.name)
    ensures NamesUnique(cs + [c])
  {
  }

  /** After appending a constraint with a new name, looking that name up finds exactly it. */
  lemma LookupAfterAppend(cs: seq<Constraint>, c: Constraint)
    requires !HasName(cs, c.name)
    ensures Lookup(cs + [c], c.name) == Some(c)
  {
    var r := cs + [c];
    forall j | 0 <= j < |cs| ensures r[j].name != c.name {
      assert r[j] == cs[j];
    }
    FirstIndexIs(r, c.name, |cs|);
  }

  /** After removal, looking the removed name up finds nothing. */
  lemma LookupAfterRemove(cs: seq<Constraint>, n: string)
    ensures Lookup(RemoveNamed(cs, n), n) == None
  {
  }

  /** The constraint list of `update_constraint`: the first entry named `n` merged with `u`. */
  function ReplaceFirst(cs: seq<Constraint>, n: string, u: ConstraintUpdate): (r: seq<Constraint>)
    ensures |r| == |cs|
    ensures !HasName(cs, n) ==> r == cs
    ensures HasName(cs, n) ==> r[FirstIndex(cs, n).value] == Lookup(cs, n).value.Apply(u)
    ensures forall j | 0 <= j < |cs| && Some(j) != FirstIndex(cs, n) :: r[j] == cs[j]
  {
    match FirstIndex(cs, n)
    case None => cs
    case Some(k) => cs[k := cs[k].Apply(u)]
  }

  /** Looking the name up after the update yields the old first match with the given fields merged in. */
  lemma LookupAfterReplace(cs: seq<Constraint>, n: string, u: ConstraintUpdate)
    requires HasName(cs, n)
    ensures Lookup(ReplaceFirst(cs, n, u), n) == Some(Lookup(cs, n).value.Apply(u))
  {
    var k := FirstIndex(cs, n).value;
    FirstIndexIs(ReplaceFirst(cs, n, u), n, k);
  }

  /** `update_constraint` keeps names unique: the entry it replaces keeps its name, and no other entry changes. */
  lemma ReplaceFirstKeepsUnique(cs: seq<Constraint>, n: string, u: ConstraintUpdate)
    requires NamesUnique(cs)
    ensures NamesUnique(ReplaceFirst(cs, n, u))
  {
    var r := ReplaceFirst(cs, n, u);
    forall i, j | 0 <= i < j < |r| ensures r[i].name != r[j].name {
      assert r[i].name == cs[i].name && r[j].name == cs[j].name;
    }
  }
}
