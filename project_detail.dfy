/**
 * The project detail page: the project named in the route (or the first one), its position in
 * the list, and the routes its previous/next controls lead to.
 */
module ProjectDetail {
  import opened Wrappers
  import opened Wraparound
  import opened TechnologyStack
  import SiteRoutes

  datatype DetailProject = DetailProject(id: string, title: string, images: seq<string>, technologies: seq<Technology>)

  const EcommercePlatform := DetailProject("ecommerce-platform", "Modern E-commerce Platform",
    ["https://images.unsplash.com/photo-1556742049-0cfed4f6a45d?w=800&h=600&fit=crop",
     "https://images.unsplash.com/photo-1563013544-824ae1b704d3?w=800&h=600&fit=crop",
     "https://images.unsplash.com/photo-1556742111-a301076d9d18?w=800&h=600&fit=crop"],
    [Technology("React", "frontend", "Component"),
     Technology("TypeScript", "frontend", "FileCode"),
     Technology("Tailwind CSS", "frontend", "Palette"),
     Technology("Node.js", "backend", "Server"),
     Technology("Express.js", "backend", "Zap"),
     Technology("MongoDB", "database", "Database"),
     Technology("Redis", "database", "Zap"),
     Technology("Stripe API", "tools", "CreditCard"),
     Technology("AWS S3", "deployment", "Cloud"),
     Technology("Docker", "deployment", "Package")])

  const TaskManagementApp := DetailProject("task-management-app", "Collaborative Task Management App",
    ["https://images.unsplash.com/photo-1611224923853-80b023f02d71?w=800&h=600&fit=crop",
     "https://images.unsplash.com/photo-1586281380349-632531db7ed4?w=800&h=600&fit=crop"],
    [Technology("React", "frontend", "Component"),
     Technology("Redux Toolkit", "frontend", "Layers"),
     Technology("Material-UI", "frontend", "Palette"),
     Technology("Socket.io", "backend", "Zap"),
     Technology("PostgreSQL", "database", "Database"),
     Technology("Prisma", "tools", "Database"),
     Technology("Vercel", "deployment", "Cloud")])

  const PortfolioWebsite := DetailProject("portfolio-website", "Creative Portfolio Website",
    ["https://images.unsplash.com/photo-1467232004584-a241de8bcf5d?w=800&h=600&fit=crop"],
    [Technology("Next.js", "frontend", "Zap"),
     Technology("Framer Motion", "frontend", "Zap"),
     Technology("Sanity CMS", "backend", "FileText"),
     Technology("Vercel", "deployment", "Cloud")])

  const Projects: seq<DetailProject> := [EcommercePlatform, TaskManagementApp, PortfolioWebsite]

  /** The ids are pairwise distinct, so a lookup by id is unambiguous. */
  lemma DistinctIds()
    ensures |Projects| == 3
    ensures forall i, j :: 0 <= i < j < |Projects| ==> Projects[i].id != Projects[j].id
  {
  }

  /** `findIndex` by id: the first project with that id, or -1; an absent id matches nothing. */
  function FindIndex(projects: seq<DetailProject>, projectId: Option<string>): (r: int)
    ensures -1 <= r < |projects|
    ensures r == -1 <==> projectId.None? || forall j :: 0 <= j < |projects| ==> projects[j].id != projectId.value
    ensures r >= 0 ==> projectId.Some? && projects[r].id == projectId.value
    ensures r >= 0 ==> forall j :: 0 <= j < r ==> projects[j].id != projectId.value
  {
    if projects == [] || projectId.None? then -1
    else if projects[0].id == projectId.value then 0
    else
      var rest := FindIndex(projects[1..], projectId);
      if rest == -1 then -1 else rest + 1
  }

  /** `currentProject`: the project with the route's id, or the first project. */
  function CurrentProject(projectId: Option<string>): (p: DetailProject)
    ensures p in Projects
    ensures projectId.Some? && (exists j :: 0 <= j < |Projects| && Projects[j].id == projectId.value) ==> p.id == projectId.value
    ensures FindIndex(Projects, projectId) == -1 ==> p == Projects[0]
  {
    var i := FindIndex(Projects, projectId);
    if i >= 0 then Projects[i] else Projects[0]
  }

  /** The index effect: `findIndex`, or 0 when not found; it always points at `currentProject`. */
  function IndexFor(projectId: Option<string>): (i: nat)
    ensures i < |Projects|
    ensures Projects[i] == CurrentProject(projectId)
  {
    var index := FindIndex(Projects, projectId);
    if index >= 0 then index else 0
  }

  /** Without a route parameter the page shows the first project at index 0. */
  lemma NoIdShowsFirst()
    ensures IndexFor(None) == 0 && CurrentProject(None) == EcommercePlatform
  {
  }

  /** Looking a project up by its own id finds it, at its own position. */
  lemma {:induction false} LookupOwnId(i: nat)
    requires i < |Projects|
    ensures IndexFor(Some(Projects[i].id)) == i
  {
    DistinctIds();
  }

  const DetailRoute := "/project-detail-modal/"

  /** The route of the project at `i`. */
  function TargetFor(i: nat): (path: string)
    requires i < |Projects|
    ensures |path| > |DetailRoute| && path[..|DetailRoute|] == DetailRoute
  {
    DetailRoute + Projects[i].id
  }

  /** The project id a route names, if it is a detail route. */
  function IdOfTarget(path: string): (id: Option<string>)
    ensures id.Some? <==> |path| >= |DetailRoute| && path[..|DetailRoute|] == DetailRoute
  {
    if |path| >= |DetailRoute| && path[..|DetailRoute|] == DetailRoute then Some(path[|DetailRoute|..]) else None
  }

  /** Opening the route of the project at `i` shows the project at `i` again. */
  lemma TargetRoundTrip(i: nat)
    requires i < |Projects|
    ensures IdOfTarget(TargetFor(i)) == Some(Projects[i].id)
    ensures IndexFor(IdOfTarget(TargetFor(i))) == i
  {
    assert TargetFor(i)[|DetailRoute|..] == Projects[i].id;
    LookupOwnId(i);
  }

  /**
   * The router declares the detail page without a `:projectId` segment, so the route of any
   * project, and with it every previous/next target, renders the "not found" page.
   */
  lemma TargetIsNotFound(i: nat)
    requires i < |Projects|
    ensures SiteRoutes.RoutedPage(TargetFor(i)) == SiteRoutes.NotFound
  {
    assert |TargetFor(i)| > 28;
  }

  /** The detail page's state. */
  class DetailPage {
    const projectId: Option<string>
    var currentProjectIndex: int

    ghost predicate Valid()
      reads this
    {
      0 <= currentProjectIndex < |Projects|
    }

    /** The first render, before the index effect has run. */
    constructor(projectId: Option<string>)
      ensures Valid()
      ensures this.projectId == projectId && currentProjectIndex == 0
    {
      this.projectId := projectId;
      currentProjectIndex := 0;
    }

    /** The index effect. */
    method SyncIndex()
      requires Valid()
      modifies this
      ensures Valid()
      ensures currentProjectIndex == IndexFor(projectId)
      ensures Projects[currentProjectIndex] == CurrentProject(projectId)
    {
      var index := FindIndex(Projects, projectId);
      currentProjectIndex := if index >= 0 then index else 0;
    }

    /** `hasPrevious`. */
    function HasPrevious(): (b: bool)
      reads this
      ensures b <==> currentProjectIndex > 0
    {
      currentProjectIndex > 0
    }

    /** `hasNext`. */
    function HasNext(): (b: bool)
      reads this
      ensures b <==> currentProjectIndex < |Projects| - 1
    {
      currentProjectIndex < |Projects| - 1
    }

    /** `handlePrevious`: the route of the previous project, wrapping to the last. */
    method HandlePrevious() returns (target: string)
      requires Valid()
      ensures target == TargetFor(Pred(currentProjectIndex, |Projects|))
      ensures IndexFor(IdOfTarget(target)) == Pred(currentProjectIndex, |Projects|)
      ensures HasPrevious() ==> IndexFor(IdOfTarget(target)) == currentProjectIndex - 1
    {
      var prevIndex := if currentProjectIndex > 0 then currentProjectIndex - 1 else |Projects| - 1;
      target := DetailRoute + Projects[prevIndex].id;
      TargetRoundTrip(prevIndex);
    }

    /** `handleNext`: the route of the next project, wrapping to the first. */
    method HandleNext() returns (target: string)
      requires Valid()
      ensures target == TargetFor(Succ(currentProjectIndex, |Projects|))
      ensures IndexFor(IdOfTarget(target)) == Succ(currentProjectIndex, |Projects|)
      ensures HasNext() ==> IndexFor(IdOfTarget(target)) == currentProjectIndex + 1
    {
      var nextIndex := if currentProjectIndex < |Projects| - 1 then currentProjectIndex + 1 else 0;
      target := DetailRoute + Projects[nextIndex].id;
      TargetRoundTrip(nextIndex);
    }
  }
}
