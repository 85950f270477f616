/**
 * The bean-validation constraints of a project request: name, description, duration, type and
 * category must not be blank, and name and description have length bounds. Validation reports
 * every violated constraint, not only the first.
 */
module ProjectRequests {
  import opened Wrappers

  datatype ProjectRequest = ProjectRequest(
    name: Option<string>,
    description: Option<string>,
    status: Option<string>,
    tags: Option<seq<string>>,
    technologies: Option<seq<string>>,
    techStack: Option<seq<string>>,
    languages: Option<seq<string>>,
    groupMembers: Option<seq<string>>,
    duration: Option<string>,
    projectType: Option<string>,   // `type`
    category: Option<string>,
    documentUrl: Option<string>,
    documentName: Option<string>)

  datatype Field = Name | Description | Duration | Type | Category

  datatype Constraint = NotBlank | Size(min: nat, max: nat)

  datatype Violation = Violation(field: Field, constraint: Constraint)

  /** The annotations, field by field. */
  const Constraints := [
    Violation(Name, NotBlank), Violation(Name, Size(3, 100)),
    Violation(Description, NotBlank), Violation(Description, Size(10, 1000)),
    Violation(Duration, NotBlank), Violation(Type, NotBlank), Violation(Category, NotBlank)]

  function Value(req: ProjectRequest, field: Field): Option<string>
  {
    match field
    case Name => req.name
    case Description => req.description
    case Duration => req.duration
    case Type => req.projectType
    case Category => req.category
  }

  /** `@NotBlank`: present, and something other than white space and control characters is
      left after trimming. */
  predicate NotBlankHolds(s: Option<string>)
  {
    s.Some? && exists i | 0 <= i < |s.value| :: s.value[i] > ' '
  }

  /** `@Size`: a null value passes; otherwise the length is within the bounds. */
  predicate SizeHolds(s: Option<string>, min: nat, max: nat)
  {
    s.None? || min <= |s.value| <= max
  }

  predicate Holds(c: Constraint, s: Option<string>)
  {
    match c
    case NotBlank => NotBlankHolds(s)
    case Size(min, max) => SizeHolds(s, min, max)
  }

  /** Every violated constraint, as validation reports them. */
  function Violations(req: ProjectRequest): (r: set<Violation>)
    ensures forall v :: v in r ==> v in Constraints
    ensures forall i | 0 <= i < |Constraints| ::
      Constraints[i] in r <==> !Holds(Constraints[i].constraint, Value(req, Constraints[i].field))
  {
    set i | 0 <= i < |Constraints| && !Holds(Constraints[i].constraint, Value(req, Constraints[i].field)) :: Constraints[i]
  }

  /** The request as the annotations read, field by field. */
  predicate Valid(req: ProjectRequest)
  {
    && NotBlankHolds(req.name) && 3 <= |req.name.value| <= 100
    && NotBlankHolds(req.description) && 10 <= |req.description.value| <= 1000
    && NotBlankHolds(req.duration)
    && NotBlankHolds(req.projectType)
    && NotBlankHolds(req.category)
  }

  /** A request is accepted exactly when no constraint is violated. */
  lemma ValidIffNoViolations(req: ProjectRequest)
    ensures Valid(req) <==> Violations(req) == {}
  {
    if Violations(req) == {} {
      forall i | 0 <= i < |Constraints|
        ensures Holds(Constraints[i].constraint, Value(req, Constraints[i].field))
      {
        assert Constraints[i] !in Violations(req);
      }
      assert Holds(Constraints[0].constraint, Value(req, Constraints[0].field));
      assert Holds(Constraints[1].constraint, Value(req, Constraints[1].field));
      assert Holds(Constraints[2].constraint, Value(req, Constraints[2].field));
      assert Holds(Constraints[3].constraint, Value(req, Constraints[3].field));
      assert Holds(Constraints[4].constraint, Value(req, Constraints[4].field));
      assert Holds(Constraints[5].constraint, Value(req, Constraints[5].field));
      assert Holds(Constraints[6].constraint, Value(req, Constraints[6].field));
    }
    if Valid(req) {
      forall i | 0 <= i < |Constraints|
        ensures Constraints[i] !in Violations(req)
      {
      }
    }
  }

  /** The optional fields are never checked: changing them does not change the verdict. */
  lemma OptionalFieldsUnchecked(req: ProjectRequest, other: ProjectRequest)
    requires other.name == req.name && other.description == req.description && other.duration == req.duration
    requires other.projectType == req.projectType && other.category == req.category
    ensures Violations(other) == Violations(req)
  {
    forall i | 0 <= i < |Constraints|
      ensures Value(other, Constraints[i].field) == Value(req, Constraints[i].field)
    {
    }
  }

  /** A missing name breaks only its not-blank rule, since `@Size` accepts null; a short blank
      name breaks both of its rules. */
  lemma NameViolations(req: ProjectRequest)
    ensures req.name.None? ==> Violation(Name, NotBlank) in Violations(req) && Violation(Name, Size(3, 100)) !in Violations(req)
    ensures req.name == Some("  ") ==> Violation(Name, NotBlank) in Violations(req) && Violation(Name, Size(3, 100)) in Violations(req)
  {
    assert Constraints[0] == Violation(Name, NotBlank);
    assert Constraints[1] == Violation(Name, Size(3, 100));
  }
}
