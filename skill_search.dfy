/**
 * The skill search page: the search and filter inputs, the results
 * pagination clamped to pages 1..3, Clear All, and the details modal.
 * The filter inputs are stored but never applied: the results are
 * always the whole sample table.
 */
module SkillSearch {
  import opened Results

  /** One row of the sample results table. */
  datatype SampleSkill = SampleSkill(id: nat, skillName: string, rating: nat, department: string)

  const SampleData: seq<SampleSkill> := [
    SampleSkill(1, "React Development", 1, "Engineering"),
    SampleSkill(2, "Data Analysis", 2, "Analytics"),
    SampleSkill(3, "UI/UX Design", 3, "Design"),
    SampleSkill(4, "Project Management", 3, "Operations"),
    SampleSkill(5, "Python Programming", 5, "Engineering"),
    SampleSkill(6, "Digital Marketing", 5, "Marketing"),
    SampleSkill(7, "SQL Database", 4, "Engineering"),
    SampleSkill(8, "Machine Learning", 5, "Data Science")
  ]

  /** The numbered page links, and the last of them. */
  const FirstPage := 1
  const LastPage := 3

  /** The sample rows carry the ids 1..8, each rating a star count 1..5. */
  lemma SampleDataWellFormed()
    ensures |SampleData| == 8
    ensures forall k :: 0 <= k < |SampleData| ==> SampleData[k].id == k + 1
    ensures forall k :: 0 <= k < |SampleData| ==> 1 <= SampleData[k].rating <= 5
  {
  }

  /** The Previous updater: one page back, never below the first page. */
  function PrevPage(page: int): (r: int)
    ensures r >= FirstPage
    ensures page > FirstPage ==> r == page - 1
    ensures page <= FirstPage ==> r == FirstPage
  {
    if page - 1 > FirstPage then page - 1 else FirstPage
  }

  /** The Next updater: one page on, never past the last page. */
  function NextPage(page: int): (r: int)
    ensures r <= LastPage
    ensures page < LastPage ==> r == page + 1
    ensures page >= LastPage ==> r == LastPage
  {
    if page + 1 < LastPage then page + 1 else LastPage
  }

  /** Both updaters keep a page within 1..3. */
  lemma UpdatersStayInRange(page: int)
    requires FirstPage <= page <= LastPage
    ensures FirstPage <= PrevPage(page) <= LastPage
    ensures FirstPage <= NextPage(page) <= LastPage
  {
  }

  /** Next undoes Previous on pages 2..3, and Previous undoes Next on pages 1..2. */
  lemma PrevNextRoundTrip(page: int)
    ensures FirstPage < page <= LastPage ==> NextPage(PrevPage(page)) == page
    ensures FirstPage <= page < LastPage ==> PrevPage(NextPage(page)) == page
  {
  }

  /** The ends are fixed points: Previous on the first page and Next on the last. */
  lemma EndsAreFixed()
    ensures PrevPage(FirstPage) == FirstPage
    ensures NextPage(LastPage) == LastPage
  {
  }

  /** A page link is highlighted iff its number is the current page. */
  predicate LinkActive(current: int, pageNumber: int)
  {
    current == pageNumber
  }

  /** On a page in range, exactly one of the three links is highlighted. */
  lemma ExactlyOneLinkActive(current: int)
    requires FirstPage <= current <= LastPage
    ensures exists n :: FirstPage <= n <= LastPage && LinkActive(current, n)
    ensures forall m, n ::
              FirstPage <= m <= LastPage && FirstPage <= n <= LastPage &&
              LinkActive(current, m) && LinkActive(current, n)
              ==> m == n
  {
    assert LinkActive(current, current);
  }

  /** The state of the skill search page. */
  class SearchPage {
    var searchQuery: string
    var skillLevel: string
    var department: string
    var operator: string
    var currentPage: int
    var selectedSkill: Option<SampleSkill>
    var isModalOpen: bool

    /** The current page is always one of the three links. */
    ghost predicate Valid()
      reads this
    {
      FirstPage <= currentPage <= LastPage
    }

    constructor()
      ensures Valid()
      ensures searchQuery == "" && skillLevel == "" && department == "" && operator == "and"
      ensures currentPage == FirstPage && selectedSkill == None && !isModalOpen
    {
      searchQuery := "";
      skillLevel := "";
      department := "";
      operator := "and";
      currentPage := FirstPage;
      selectedSkill := None;
      isModalOpen := false;
    }

    method SetSearchQuery(q: string)
      modifies this
      ensures searchQuery == q
      ensures skillLevel == old(skillLevel) && department == old(department) && operator == old(operator)
      ensures currentPage == old(currentPage) && selectedSkill == old(selectedSkill) && isModalOpen == old(isModalOpen)
    {
      searchQuery := q;
    }

    method SetSkillLevel(level: string)
      modifies this
      ensures skillLevel == level
      ensures searchQuery == old(searchQuery) && department == old(department) && operator == old(operator)
      ensures currentPage == old(currentPage) && selectedSkill == old(selectedSkill) && isModalOpen == old(isModalOpen)
    {
      skillLevel := level;
    }

    method SetDepartment(dept: string)
      modifies this
      ensures department == dept
      ensures searchQuery == old(searchQuery) && skillLevel == old(skillLevel) && operator == old(operator)
      ensures currentPage == old(currentPage) && selectedSkill == old(selectedSkill) && isModalOpen == old(isModalOpen)
    {
      department := dept;
    }

    method SetOperator(op: string)
      modifies this
      ensures operator == op
      ensures searchQuery == old(searchQuery) && skillLevel == old(skillLevel) && department == old(department)
      ensures currentPage == old(currentPage) && selectedSkill == old(selectedSkill) && isModalOpen == old(isModalOpen)
    {
      operator := op;
    }

    /** The Previous control. */
    method Previous()
      requires Valid()
      modifies this
      ensures Valid()
      ensures currentPage == PrevPage(old(currentPage))
      ensures searchQuery == old(searchQuery) && skillLevel == old(skillLevel)
      ensures department == old(department) && operator == old(operator)
      ensures selectedSkill == old(selectedSkill) && isModalOpen == old(isModalOpen)
    {
      UpdatersStayInRange(currentPage);
      currentPage := PrevPage(currentPage);
    }

    /** The Next control. */
    method Next()
      requires Valid()
      modifies this
      ensures Valid()
      ensures currentPage == NextPage(old(currentPage))
      ensures searchQuery == old(searchQuery) && skillLevel == old(skillLevel)
      ensures department == old(department) && operator == old(operator)
      ensures selectedSkill == old(selectedSkill) && isModalOpen == old(isModalOpen)
    {
      UpdatersStayInRange(currentPage);
      currentPage := NextPage(currentPage);
    }

    /** A numbered link; only the links 1, 2 and 3 are rendered. */
    method GoTo(pageNumber: int)
      requires FirstPage <= pageNumber <= LastPage
      modifies this
      ensures Valid()
      ensures currentPage == pageNumber && LinkActive(currentPage, pageNumber)
      ensures searchQuery == old(searchQuery) && skillLevel == old(skillLevel)
      ensures department == old(department) && operator == old(operator)
      ensures selectedSkill == old(selectedSkill) && isModalOpen == old(isModalOpen)
    {
      currentPage := pageNumber;
    }

    /** Clear All: the two selects and the operator back to their defaults; query and page stay. */
    method ClearAll()
      modifies this
      ensures skillLevel == "" && department == "" && operator == "and"
      ensures searchQuery == old(searchQuery) && currentPage == old(currentPage)
      ensures selectedSkill == old(selectedSkill) && isModalOpen == old(isModalOpen)
    {
      skillLevel := "";
      department := "";
      operator := "and";
    }

    /** View Details on a row: select it and open the modal. */
    method ViewDetails(skill: SampleSkill)
      modifies this
      ensures selectedSkill == Some(skill) && isModalOpen
      ensures searchQuery == old(searchQuery) && skillLevel == old(skillLevel) && department == old(department)
      ensures operator == old(operator) && currentPage == old(currentPage)
    {
      selectedSkill := Some(skill);
      isModalOpen := true;
    }

    /** Closing the details modal clears both the flag and the selection. */
    method CloseModal()
      modifies this
      ensures selectedSkill == None && !isModalOpen
      ensures searchQuery == old(searchQuery) && skillLevel == old(skillLevel) && department == old(department)
      ensures operator == old(operator) && currentPage == old(currentPage)
    {
      isModalOpen := false;
      selectedSkill := None;
    }
  }
}
