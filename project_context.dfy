/**
 * The client's in-memory project list: `addProject` gives a draft a fresh id and creation time
 * and puts it at the front. The random id and the clock are inputs.
 */
module Projects {
  import opened Wrappers
  import Ui

  datatype Status = Active | Completed

  datatype Project = Project(
    id: string,
    name: string,
    description: string,
    createdAt: int,   // milliseconds since the epoch
    status: Status,
    tags: seq<string>,
    technologies: seq<string>,
    techStack: seq<string>,
    languages: seq<string>,
    groupMembers: seq<string>,
    duration: string,
    projectType: string,   // `type`
    category: string,
    documentUrl: Option<string>,
    documentName: Option<string>)

  /** A project without its id and creation time, as the form hands it over. */
  datatype Draft = Draft(
    name: string,
    description: string,
    status: Status,
    tags: seq<string>,
    technologies: seq<string>,
    techStack: seq<string>,
    languages: seq<string>,
    groupMembers: seq<string>,
    duration: string,
    projectType: string,
    category: string,
    documentUrl: Option<string>,
    documentName: Option<string>)

  /** `{ ...project, id, createdAt }`. */
  function Stamp(d: Draft, id: string, createdAt: int): (p: Project)
    ensures p.id == id && p.createdAt == createdAt && DraftOf(p) == d
  {
    Project(id, d.name, d.description, createdAt, d.status, d.tags, d.technologies, d.techStack,
            d.languages, d.groupMembers, d.duration, d.projectType, d.category, d.documentUrl, d.documentName)
  }

  /** The draft a project was made from. */
  function DraftOf(p: Project): Draft
  {
    Draft(p.name, p.description, p.status, p.tags, p.technologies, p.techStack, p.languages,
          p.groupMembers, p.duration, p.projectType, p.category, p.documentUrl, p.documentName)
  }

  /** One draft to add, with the id and time the provider gives it. */
  datatype Addition = Addition(draft: Draft, id: string, createdAt: int)

  /** The list after the additions, in order, each one going to the front. */
  function AddAll(projects: seq<Project>, additions: seq<Addition>): seq<Project>
    decreases |additions|
  {
    if additions == [] then projects
    else AddAll([Stamp(additions[0].draft, additions[0].id, additions[0].createdAt)] + projects, additions[1..])
  }

  /** The elements of `s` last to first. */
  function Reverse<T>(s: seq<T>): (r: seq<T>)
    ensures |r| == |s|
    ensures forall i | 0 <= i < |s| :: r[i] == s[|s| - 1 - i]
  {
    if s == [] then [] else Reverse(s[1..]) + [s[0]]
  }

  /** The projects the additions make, in the order they are added. */
  function Stamped(additions: seq<Addition>): (r: seq<Project>)
    ensures |r| == |additions|
    ensures forall i | 0 <= i < |additions| ::
              r[i] == Stamp(additions[i].draft, additions[i].id, additions[i].createdAt)
  {
    if additions == [] then [] else [Stamp(additions[0].draft, additions[0].id, additions[0].createdAt)] + Stamped(additions[1..])
  }

  /** Newest first: after a series of additions the list holds them in reverse order, followed by
      the earlier list unchanged. */
  lemma {:induction false} AddAllNewestFirst(projects: seq<Project>, additions: seq<Addition>)
    ensures AddAll(projects, additions) == Reverse(Stamped(additions)) + projects
    ensures var n := |additions|;
      forall k | 0 <= k < n ::
        AddAll(projects, additions)[k] == Stamp(additions[n - 1 - k].draft, additions[n - 1 - k].id, additions[n - 1 - k].createdAt)
    decreases |additions|
  {
    if additions != [] {
      var p := Stamp(additions[0].draft, additions[0].id, additions[0].createdAt);
      AddAllNewestFirst([p] + projects, additions[1..]);
      assert Stamped(additions) == [p] + Stamped(additions[1..]);
      assert Reverse(Stamped(additions)) == Reverse(Stamped(additions[1..])) + [p];
    }
  }

  /** Ids are not checked against the list: adding a project under an id already in use keeps
      both projects. */
  lemma DuplicateIdsKept(projects: seq<Project>, a: Addition, k: nat)
    requires k < |projects| && projects[k].id == a.id
    ensures var after := AddAll(projects, [a]);
      |after| == |projects| + 1 && after[0].id == after[k + 1].id && after[k + 1] == projects[k]
  {
    assert AddAll(projects, [a]) == AddAll([Stamp(a.draft, a.id, a.createdAt)] + projects, []);
  }

  /** The provider's state. */
  class ProjectProvider {
    var projects: seq<Project>

    constructor ()
      ensures projects == []
    {
      projects := [];
    }

    /** `addProject`: the new project goes to the front; `id` and `createdAt` stand for the
        random id and the current time. */
    method AddProject(draft: Draft, id: string, createdAt: int)
      modifies this
      ensures projects == AddAll(old(projects), [Addition(draft, id, createdAt)])
      ensures |projects| == |old(projects)| + 1 && projects[0].id == id && DraftOf(projects[0]) == draft
      ensures projects[1..] == old(projects)
    {
      var newProject := Stamp(draft, id, createdAt);
      projects := [newProject] + projects;
    }
  }

  /** `useProjects`. */
  function UseProjects<C>(context: Option<C>): (r: Result<C, string>)
    ensures context.Some? ==> r == Success(context.value)
    ensures context.None? ==> r == Failure("useProjects must be used within a ProjectProvider")
  {
    assert "useProjects" + " must be used within " + "a ProjectProvider" == "useProjects must be used within a ProjectProvider";
    Ui.UseContext(context, "useProjects", "a ProjectProvider")
  }
}
