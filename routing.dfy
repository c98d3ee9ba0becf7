/**
 * The application shell: which screen a URL pathname shows, which path a
 * page change navigates to, and which page component the dashboard renders.
 */
module Routing {

  /** The five dashboard pages. */
  datatype Page = AiChat | MySkills | CvProcessing | SkillSearch | EmployeeProfiles

  /** What the shell shows: one of the two stand-alone screens, or the dashboard on a page. */
  datatype Screen = LoginScreen | RegisterScreen | Dashboard(page: Page)

  /** The page components `renderContent` can return. */
  datatype Content = AIChatPage | MySkillsPage | CVProcessingPage | SkillSearchPage | EmployeeProfilesPage

  /** The string key of a page, as the components pass it around. */
  function Key(p: Page): string
  {
    match p
    case AiChat => "ai-chat"
    case MySkills => "my-skills"
    case CvProcessing => "cv-processing"
    case SkillSearch => "skill-search"
    case EmployeeProfiles => "employee-profiles"
  }

  /** Distinct pages have distinct keys. */
  lemma KeyInjective(p: Page, q: Page)
    requires Key(p) == Key(q)
    ensures p == q
  {
  }

  /** The dashboard page for a pathname: the four named paths, and the chat for every other path. */
  function CurrentPage(pathname: string): (p: Page)
    ensures p == MySkills <==> pathname == "/my-skills"
    ensures p == CvProcessing <==> pathname == "/cv-processing"
    ensures p == SkillSearch <==> pathname == "/skill-search"
    ensures p == EmployeeProfiles <==> pathname == "/employee-profiles"
    ensures p == AiChat <==> pathname !in {"/my-skills", "/cv-processing", "/skill-search", "/employee-profiles"}
  {
    if pathname == "/my-skills" then MySkills
    else if pathname == "/cv-processing" then CvProcessing
    else if pathname == "/skill-search" then SkillSearch
    else if pathname == "/employee-profiles" then EmployeeProfiles
    else AiChat
  }

  /** `AppContent`: the login and register paths are checked before the dashboard. */
  function Resolve(pathname: string): (s: Screen)
    ensures s == LoginScreen <==> pathname == "/login"
    ensures s == RegisterScreen <==> pathname == "/register"
    ensures s.Dashboard? ==> s.page == CurrentPage(pathname)
  {
    if pathname == "/login" then LoginScreen
    else if pathname == "/register" then RegisterScreen
    else Dashboard(CurrentPage(pathname))
  }

  /**
   * `handlePageChange`: the path navigated to for a page key. The mapping is
   * itself what the source promises, so the contract states it case by case;
   * `RoundTrip` and `PathForInjective` say what it means for the pages.
   */
  function PathFor(page: string): (path: string)
    ensures page == "ai-chat" ==> path == "/"
    ensures page != "ai-chat" ==> path == "/" + page
  {
    if page == "ai-chat" then "/" else "/" + page
  }

  /** Navigating to a page's path shows that very page. */
  lemma RoundTrip(p: Page)
    ensures CurrentPage(PathFor(Key(p))) == p
    ensures Resolve(PathFor(Key(p))) == Dashboard(p)
  {
  }

  /** Distinct pages navigate to distinct paths. */
  lemma PathForInjective(p: Page, q: Page)
    requires PathFor(Key(p)) == PathFor(Key(q))
    ensures p == q
  {
    RoundTrip(p);
    RoundTrip(q);
  }

  /** `handlePageChange` is not limited to page keys: the key "login" reaches the login screen. */
  lemma LoginKeyLeavesDashboard()
    ensures Resolve(PathFor("login")) == LoginScreen
  {
  }

  /** `renderContent`: one component per page, the chat as the default case. */
  function RenderContent(p: Page): (c: Content)
    ensures c == AIChatPage <==> p == AiChat
    ensures c == MySkillsPage <==> p == MySkills
    ensures c == CVProcessingPage <==> p == CvProcessing
    ensures c == SkillSearchPage <==> p == SkillSearch
    ensures c == EmployeeProfilesPage <==> p == EmployeeProfiles
  {
    match p
    case MySkills => MySkillsPage
    case CvProcessing => CVProcessingPage
    case SkillSearch => SkillSearchPage
    case EmployeeProfiles => EmployeeProfilesPage
    case AiChat => AIChatPage
  }

  /** Each component is rendered for exactly one page. */
  lemma RenderContentInjective(p: Page, q: Page)
    requires RenderContent(p) == RenderContent(q)
    ensures p == q
  {
  }
}
