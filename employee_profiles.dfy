/**
 * The employee profiles page: the sample employees and pending skill change
 * requests, the CSV import check, the details modal, the requests modal, and
 * the feedback modal that Accept and Decline open and that Submit guards
 * with a non-blank feedback text.
 */
module EmployeeProfiles {
  import opened Results
  import opened Text

  datatype EmployeeSkill = EmployeeSkill(id: nat, name: string, level: nat, category: string, lastUpdated: string)

  datatype Employee = Employee(
    id: nat, name: string, department: string, position: string,
    email: string, phone: string, location: string, joinedDate: string,
    skillCount: nat, skills: seq<EmployeeSkill>)

  datatype SkillChangeRequest = SkillChangeRequest(
    id: nat, employeeName: string, department: string, position: string,
    skillName: string, oldLevel: nat, newLevel: nat, requestDate: string, status: string)

  const SampleEmployees: seq<Employee> := [
    Employee(1, "Sarah Johnson", "Engineering", "Senior Software Engineer",
      "sarah.johnson@company.com", "+1 (555) 123-4567", "San Francisco, CA", "Jan 2022", 8, [
      EmployeeSkill(1, "React Development", 5, "Technical", "Nov 2024"),
      EmployeeSkill(2, "TypeScript", 4, "Technical", "Oct 2024"),
      EmployeeSkill(3, "Node.js", 4, "Technical", "Nov 2024"),
      EmployeeSkill(4, "Team Leadership", 3, "Management", "Sep 2024"),
      EmployeeSkill(5, "Code Review", 5, "Technical", "Nov 2024"),
      EmployeeSkill(6, "Agile Methodology", 4, "Management", "Aug 2024"),
      EmployeeSkill(7, "Technical Writing", 3, "Communication", "Oct 2024"),
      EmployeeSkill(8, "UI/UX Design", 2, "Design", "Sep 2024")
    ]),
    Employee(2, "Michael Chen", "Design", "Lead Product Designer",
      "michael.chen@company.com", "+1 (555) 234-5678", "New York, NY", "Mar 2021", 7, [
      EmployeeSkill(9, "UI/UX Design", 5, "Design", "Nov 2024"),
      EmployeeSkill(10, "Figma", 5, "Design", "Nov 2024"),
      EmployeeSkill(11, "Adobe Creative Suite", 4, "Design", "Oct 2024"),
      EmployeeSkill(12, "User Research", 4, "Design", "Nov 2024"),
      EmployeeSkill(13, "Design Systems", 5, "Design", "Oct 2024"),
      EmployeeSkill(14, "Prototyping", 4, "Design", "Nov 2024"),
      EmployeeSkill(15, "Presentation Skills", 4, "Communication", "Sep 2024")
    ]),
    Employee(3, "Emily Rodriguez", "Data Science", "Data Scientist",
      "emily.rodriguez@company.com", "+1 (555) 345-6789", "Austin, TX", "Jul 2023", 9, [
      EmployeeSkill(16, "Python Programming", 5, "Technical", "Nov 2024"),
      EmployeeSkill(17, "Machine Learning", 4, "Technical", "Nov 2024"),
      EmployeeSkill(18, "SQL Database", 5, "Technical", "Oct 2024"),
      EmployeeSkill(19, "Data Visualization", 4, "Analytics", "Nov 2024"),
      EmployeeSkill(20, "Statistical Analysis", 5, "Analytics", "Nov 2024"),
      EmployeeSkill(21, "TensorFlow", 3, "Technical", "Oct 2024"),
      EmployeeSkill(22, "R Programming", 3, "Technical", "Sep 2024"),
      EmployeeSkill(23, "Data Mining", 4, "Analytics", "Nov 2024"),
      EmployeeSkill(24, "Technical Presentation", 3, "Communication", "Oct 2024")
    ]),
    Employee(4, "David Kim", "Marketing", "Marketing Manager",
      "david.kim@company.com", "+1 (555) 456-7890", "Seattle, WA", "May 2020", 6, [
      EmployeeSkill(25, "Digital Marketing", 5, "Marketing", "Nov 2024"),
      EmployeeSkill(26, "Content Strategy", 4, "Marketing", "Nov 2024"),
      EmployeeSkill(27, "SEO/SEM", 4, "Marketing", "Oct 2024"),
      EmployeeSkill(28, "Social Media Marketing", 5, "Marketing", "Nov 2024"),
      EmployeeSkill(29, "Team Management", 4, "Management", "Oct 2024"),
      EmployeeSkill(30, "Analytics & Reporting", 3, "Analytics", "Nov 2024")
    ]),
    Employee(5, "Lisa Anderson", "Operations", "Operations Lead",
      "lisa.anderson@company.com", "+1 (555) 567-8901", "Chicago, IL", "Feb 2022", 7, [
      EmployeeSkill(31, "Project Management", 5, "Management", "Nov 2024"),
      EmployeeSkill(32, "Process Optimization", 4, "Management", "Oct 2024"),
      EmployeeSkill(33, "Stakeholder Management", 5, "Management", "Nov 2024"),
      EmployeeSkill(34, "Risk Management", 4, "Management", "Nov 2024"),
      EmployeeSkill(35, "Budget Planning", 3, "Management", "Sep 2024"),
      EmployeeSkill(36, "Communication", 5, "Communication", "Nov 2024"),
      EmployeeSkill(37, "Data Analysis", 3, "Analytics", "Oct 2024")
    ]),
    Employee(6, "James Wilson", "Analytics", "Business Analyst",
      "james.wilson@company.com", "+1 (555) 678-9012", "Boston, MA", "Sep 2023", 6, [
      EmployeeSkill(38, "Data Analysis", 5, "Analytics", "Nov 2024"),
      EmployeeSkill(39, "Excel Advanced", 5, "Technical", "Nov 2024"),
      EmployeeSkill(40, "SQL", 4, "Technical", "Oct 2024"),
      EmployeeSkill(41, "Tableau", 4, "Analytics", "Nov 2024"),
      EmployeeSkill(42, "Business Intelligence", 4, "Analytics", "Nov 2024"),
      EmployeeSkill(43, "Report Writing", 3, "Communication", "Oct 2024")
    ])
  ]

  const SkillChangeRequests: seq<SkillChangeRequest> := [
    SkillChangeRequest(1, "Sarah Johnson", "Engineering", "Senior Software Engineer",
      "React Development", 4, 5, "Nov 15, 2024", "pending"),
    SkillChangeRequest(2, "Michael Chen", "Design", "Lead Product Designer",
      "Figma", 4, 5, "Nov 14, 2024", "pending"),
    SkillChangeRequest(3, "Emily Rodriguez", "Data Science", "Data Scientist",
      "Python Programming", 4, 5, "Nov 13, 2024", "pending")
  ]

  /** Every employee's skills, in table order. */
  function AllSkills(employees: seq<Employee>): seq<EmployeeSkill>
  {
    if employees == [] then [] else employees[0].skills + AllSkills(employees[1..])
  }

  /** The employees carry the ids 1..6, and each one's skill count is the length of its skill list. */
  lemma SampleEmployeesConsistent()
    ensures |SampleEmployees| == 6
    ensures forall k :: 0 <= k < |SampleEmployees| ==> SampleEmployees[k].id == k + 1
    ensures forall k :: 0 <= k < |SampleEmployees| ==> SampleEmployees[k].skillCount == |SampleEmployees[k].skills|
  {
  }

  /** Across all employees the skill ids run 1..43 in order, so no two skills share an id. */
  lemma SampleSkillIdsSequential()
    ensures |AllSkills(SampleEmployees)| == 43
    ensures forall k :: 0 <= k < |AllSkills(SampleEmployees)| ==> AllSkills(SampleEmployees)[k].id == k + 1
  {
    var e := SampleEmployees;
    assert AllSkills(e[6..]) == [];
    assert AllSkills(e[5..]) == e[5].skills by { assert e[5..][1..] == e[6..]; }
    assert AllSkills(e[4..]) == e[4].skills + e[5].skills by { assert e[4..][1..] == e[5..]; }
    assert AllSkills(e[3..]) == e[3].skills + AllSkills(e[4..]) by { assert e[3..][1..] == e[4..]; }
    assert AllSkills(e[2..]) == e[2].skills + AllSkills(e[3..]) by { assert e[2..][1..] == e[3..]; }
    assert AllSkills(e[1..]) == e[1].skills + AllSkills(e[2..]) by { assert e[1..][1..] == e[2..]; }
    assert AllSkills(e) == e[0].skills + AllSkills(e[1..]);
  }

  /** Distinct positions in the flattened skill list hold distinct ids. */
  lemma SampleSkillIdsUnique(i: int, j: int)
    requires 0 <= i < |AllSkills(SampleEmployees)| && 0 <= j < |AllSkills(SampleEmployees)| && i != j
    ensures AllSkills(SampleEmployees)[i].id != AllSkills(SampleEmployees)[j].id
  {
    SampleSkillIdsSequential();
  }

  /** `find` over the requests: the first request with the id, or None when none has it. */
  function FindRequest(requests: seq<SkillChangeRequest>, requestId: int): (r: Option<SkillChangeRequest>)
    ensures r == None <==> forall k :: 0 <= k < |requests| ==> requests[k].id != requestId
    ensures r.Some? ==> r.value in requests && r.value.id == requestId
  {
    if requests == [] then None
    else if requests[0].id == requestId then Some(requests[0])
    else FindRequest(requests[1..], requestId)
  }

  /** The request found is the first one carrying the id. */
  lemma {:induction false} FindRequestIsFirst(requests: seq<SkillChangeRequest>, requestId: int, k: int)
    requires 0 <= k < |requests| && requests[k].id == requestId
    requires forall j :: 0 <= j < k ==> requests[j].id != requestId
    ensures FindRequest(requests, requestId) == Some(requests[k])
  {
    if k > 0 {
      FindRequestIsFirst(requests[1..], requestId, k - 1);
    }
  }

  /** In the sample, request id n (1..3) finds the n-th request and any other id finds nothing. */
  lemma SampleRequestLookup(requestId: int)
    ensures 1 <= requestId <= 3 ==> FindRequest(SkillChangeRequests, requestId) == Some(SkillChangeRequests[requestId - 1])
    ensures !(1 <= requestId <= 3) ==> FindRequest(SkillChangeRequests, requestId) == None
  {
    if 1 <= requestId <= 3 {
      FindRequestIsFirst(SkillChangeRequests, requestId, requestId - 1);
    }
  }

  /** A file offered by the file picker. */
  datatype ChosenFile = ChosenFile(name: string, fileType: string)

  /** The CSV test: the MIME type is text/csv or the name ends in ".csv". */
  predicate IsCsv(f: ChosenFile)
  {
    f.fileType == "text/csv" || EndsWith(f.name, ".csv")
  }

  /** The notice shown for a chosen file. */
  datatype ImportOutcome = CsvAccepted(fileName: string) | NotCsv

  /** `handleFileChange`'s verdict on the first chosen file, or None when no file was chosen. */
  function ImportVerdict(files: Option<seq<ChosenFile>>): (v: Option<ImportOutcome>)
    ensures v == None <==> files == None || files.value == []
    ensures v.Some? ==> (v.value.CsvAccepted? <==> IsCsv(files.value[0]))
    ensures v.Some? && v.value.CsvAccepted? ==> v.value.fileName == files.value[0].name
  {
    if files.Some? && files.value != [] then
      var f := files.value[0];
      if IsCsv(f) then Some(CsvAccepted(f.name)) else Some(NotCsv)
    else None
  }

  /** Only the first chosen file is judged: the others never change the verdict. */
  lemma VerdictIgnoresLaterFiles(f: ChosenFile, rest: seq<ChosenFile>, other: seq<ChosenFile>)
    ensures ImportVerdict(Some([f] + rest)) == ImportVerdict(Some([f] + other))
  {
  }

  /** The guard of `handleSubmitFeedback`: the trimmed feedback is non-empty. */
  predicate FeedbackAccepted(feedback: string)
  {
    Trim(feedback) != ""
  }

  /** The reviewer's choice on a request row; the page does not record which one was made. */
  datatype Decision = Accept | Decline

  /** The state of the employee profiles page. */
  class ProfilesPage {
    var selectedEmployee: Option<Employee>
    var isModalOpen: bool
    var isRequestsModalOpen: bool
    var isFeedbackModalOpen: bool
    var selectedRequest: Option<SkillChangeRequest>
    var feedback: string
    /** The file input's current selection; the handler clears it after judging a file. */
    var inputFiles: seq<ChosenFile>
    /** The employee list's page; no control changes it. */
    var currentPage: int

    constructor()
      ensures selectedEmployee == None && !isModalOpen && !isRequestsModalOpen && !isFeedbackModalOpen
      ensures selectedRequest == None && feedback == "" && inputFiles == [] && currentPage == 1
    {
      selectedEmployee := None;
      isModalOpen := false;
      isRequestsModalOpen := false;
      isFeedbackModalOpen := false;
      selectedRequest := None;
      feedback := "";
      inputFiles := [];
      currentPage := 1;
    }

    /** The state of the feedback modal, as one value. */
    function FeedbackState(): (bool, Option<SkillChangeRequest>, string)
      reads this
    {
      (isFeedbackModalOpen, selectedRequest, feedback)
    }

    /** View Details on an employee card. */
    method ViewDetails(employee: Employee)
      modifies this
      ensures selectedEmployee == Some(employee) && isModalOpen
      ensures isRequestsModalOpen == old(isRequestsModalOpen) && FeedbackState() == old(FeedbackState())
      ensures inputFiles == old(inputFiles) && currentPage == old(currentPage)
    {
      selectedEmployee := Some(employee);
      isModalOpen := true;
    }

    /** `handleCloseModal`: the details modal closes and forgets the employee. */
    method CloseModal()
      modifies this
      ensures selectedEmployee == None && !isModalOpen
      ensures isRequestsModalOpen == old(isRequestsModalOpen) && FeedbackState() == old(FeedbackState())
      ensures inputFiles == old(inputFiles) && currentPage == old(currentPage)
    {
      isModalOpen := false;
      selectedEmployee := None;
    }

    /** The View Requests button and the requests modal's open-change handler. */
    method SetRequestsModalOpen(open: bool)
      modifies this
      ensures isRequestsModalOpen == open
      ensures selectedEmployee == old(selectedEmployee) && isModalOpen == old(isModalOpen)
      ensures FeedbackState() == old(FeedbackState())
      ensures inputFiles == old(inputFiles) && currentPage == old(currentPage)
    {
      isRequestsModalOpen := open;
    }

    /**
     * Accept or Decline on a request row: open the feedback modal on the
     * request with that id, or on none; the requests modal stays open and
     * the feedback text is kept.
     */
    method Respond(requestId: int, decision: Decision)
      modifies this
      ensures isFeedbackModalOpen
      ensures selectedRequest == FindRequest(SkillChangeRequests, requestId)
      ensures feedback == old(feedback) && isRequestsModalOpen == old(isRequestsModalOpen)
      ensures selectedEmployee == old(selectedEmployee) && isModalOpen == old(isModalOpen)
      ensures inputFiles == old(inputFiles) && currentPage == old(currentPage)
    {
      isFeedbackModalOpen := true;
      selectedRequest := FindRequest(SkillChangeRequests, requestId);
    }

    method SetFeedback(text: string)
      modifies this
      ensures feedback == text
      ensures isFeedbackModalOpen == old(isFeedbackModalOpen) && selectedRequest == old(selectedRequest)
      ensures selectedEmployee == old(selectedEmployee) && isModalOpen == old(isModalOpen)
      ensures isRequestsModalOpen == old(isRequestsModalOpen)
      ensures inputFiles == old(inputFiles) && currentPage == old(currentPage)
    {
      feedback := text;
    }

    /** `handleSubmitFeedback`: non-blank feedback closes and clears the modal; blank feedback changes nothing. */
    method SubmitFeedback() returns (submitted: bool)
      modifies this
      ensures submitted <==> FeedbackAccepted(old(feedback))
      ensures submitted ==> !isFeedbackModalOpen && feedback == "" && selectedRequest == None
      ensures !submitted ==> FeedbackState() == old(FeedbackState())
      ensures selectedEmployee == old(selectedEmployee) && isModalOpen == old(isModalOpen)
      ensures isRequestsModalOpen == old(isRequestsModalOpen)
      ensures inputFiles == old(inputFiles) && currentPage == old(currentPage)
    {
      if Trim(feedback) != "" {
        isFeedbackModalOpen := false;
        feedback := "";
        selectedRequest := None;
        submitted := true;
      } else {
        submitted := false;
      }
    }

    /** The feedback modal's Cancel button: close and clear, whatever the text. */
    method CancelFeedback()
      modifies this
      ensures !isFeedbackModalOpen && feedback == "" && selectedRequest == None
      ensures selectedEmployee == old(selectedEmployee) && isModalOpen == old(isModalOpen)
      ensures isRequestsModalOpen == old(isRequestsModalOpen)
      ensures inputFiles == old(inputFiles) && currentPage == old(currentPage)
    {
      isFeedbackModalOpen := false;
      feedback := "";
      selectedRequest := None;
    }

    /** The feedback modal's open-change handler only sets the flag: text and request survive a close. */
    method SetFeedbackModalOpen(open: bool)
      modifies this
      ensures isFeedbackModalOpen == open
      ensures feedback == old(feedback) && selectedRequest == old(selectedRequest)
      ensures selectedEmployee == old(selectedEmployee) && isModalOpen == old(isModalOpen)
      ensures isRequestsModalOpen == old(isRequestsModalOpen)
      ensures inputFiles == old(inputFiles) && currentPage == old(currentPage)
    {
      isFeedbackModalOpen := open;
    }

    /**
     * The file input's change: the picker has put `files` in the input; when
     * a first file exists it is judged and the input is emptied again.
     */
    method HandleFileChange(files: Option<seq<ChosenFile>>) returns (outcome: Option<ImportOutcome>)
      modifies this
      ensures outcome == ImportVerdict(files)
      ensures outcome.Some? ==> inputFiles == []
      ensures outcome == None ==> inputFiles == files.GetOr([])
      ensures selectedEmployee == old(selectedEmployee) && isModalOpen == old(isModalOpen)
      ensures isRequestsModalOpen == old(isRequestsModalOpen) && FeedbackState() == old(FeedbackState())
      ensures currentPage == old(currentPage)
    {
      inputFiles := files.GetOr([]);
      if files.Some? && files.value != [] {
        var f := files.value[0];
        outcome := if IsCsv(f) then Some(CsvAccepted(f.name)) else Some(NotCsv);
        inputFiles := [];
      } else {
        outcome := None;
      }
    }
  }
}
