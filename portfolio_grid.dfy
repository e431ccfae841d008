/**
 * The home page's project grid and the detail modal it opens: a click opens a project, and the
 * modal's arrows walk through the list.
 */
module PortfolioGrid {
  import opened Wrappers
  import opened Wraparound

  /** A card of the grid; the descriptive fields are display-only. */
  datatype PortfolioProject = PortfolioProject(id: int, title: string)

  const Projects: seq<PortfolioProject> := [
    PortfolioProject(1, "E-commerce Platform"),
    PortfolioProject(2, "Task Management App"),
    PortfolioProject(3, "Restaurant Website"),
    PortfolioProject(4, "Portfolio Website"),
    PortfolioProject(5, "Learning Management System"),
    PortfolioProject(6, "Real Estate Platform")
  ]

  /** Six projects, numbered 1 to 6 in grid order. */
  lemma ProjectCatalog()
    ensures |Projects| == 6
    ensures forall i :: 0 <= i < |Projects| ==> Projects[i].id == i + 1
  {
  }

  /** Pressing "next" from the first card `k` times, without passing the last one, shows card `k`. */
  lemma NextWalksTheGrid(k: nat)
    requires k < |Projects|
    ensures SuccIter(0, |Projects|, k) == k
    ensures Projects[SuccIter(0, |Projects|, k)].id == k + 1
  {
    SuccIterNoWrap(0, |Projects|, k);
  }

  /** The grid's modal state. */
  class Grid {
    var selectedProject: Option<PortfolioProject>
    var isModalOpen: bool
    var currentProjectIndex: int

    /** The index stays on a card, and an open modal shows exactly the project at that index. */
    ghost predicate Valid()
      reads this
    {
      && 0 <= currentProjectIndex < |Projects|
      && (isModalOpen <==> selectedProject.Some?)
      && (isModalOpen ==> selectedProject == Some(Projects[currentProjectIndex]))
    }

    constructor()
      ensures Valid()
      ensures selectedProject == None && !isModalOpen && currentProjectIndex == 0
    {
      selectedProject := None;
      isModalOpen := false;
      currentProjectIndex := 0;
    }

    /** `hasNext`: the modal offers "next" only before the last card. */
    function HasNext(): (b: bool)
      reads this
      ensures b <==> currentProjectIndex < |Projects| - 1
    {
      currentProjectIndex < |Projects| - 1
    }

    /** `hasPrevious`: the modal offers "previous" only after the first card. */
    function HasPrevious(): (b: bool)
      reads this
      ensures b <==> currentProjectIndex > 0
    {
      currentProjectIndex > 0
    }

    /** `handleProjectClick` on the card at `index`. */
    method HandleProjectClick(index: int)
      requires Valid()
      requires 0 <= index < |Projects|
      modifies this
      ensures Valid()
      ensures isModalOpen && currentProjectIndex == index && selectedProject == Some(Projects[index])
    {
      selectedProject := Some(Projects[index]);
      currentProjectIndex := index;
      isModalOpen := true;
    }

    /** `handleNextProject`: one card forward, wrapping from the last to the first. */
    method HandleNextProject()
      requires Valid() && isModalOpen
      modifies this
      ensures Valid() && isModalOpen
      ensures currentProjectIndex == Succ(old(currentProjectIndex), |Projects|)
      ensures old(HasNext()) ==> currentProjectIndex == old(currentProjectIndex) + 1
      ensures selectedProject == Some(Projects[currentProjectIndex])
    {
      var nextIndex := (currentProjectIndex + 1) % |Projects|;
      selectedProject := Some(Projects[nextIndex]);
      currentProjectIndex := nextIndex;
    }

    /** `handlePreviousProject`: one card back, wrapping from the first to the last. */
    method HandlePreviousProject()
      requires Valid() && isModalOpen
      modifies this
      ensures Valid() && isModalOpen
      ensures currentProjectIndex == Pred(old(currentProjectIndex), |Projects|)
      ensures old(HasPrevious()) ==> currentProjectIndex == old(currentProjectIndex) - 1
      ensures selectedProject == Some(Projects[currentProjectIndex])
    {
      var prevIndex := if currentProjectIndex == 0 then |Projects| - 1 else currentProjectIndex - 1;
      selectedProject := Some(Projects[prevIndex]);
      currentProjectIndex := prevIndex;
    }

    /** `closeModal`: closes and deselects; the index is kept. */
    method CloseModal()
      requires Valid()
      modifies this
      ensures Valid()
      ensures !isModalOpen && selectedProject == None
      ensures currentProjectIndex == old(currentProjectIndex)
    {
      isModalOpen := false;
      selectedProject := None;
    }
  }
}
