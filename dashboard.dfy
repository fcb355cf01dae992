/** The dashboard shell: the seven top-level tabs, the breadcrumb, the
    sub-tabs of the session view, and the dispatch that chooses what the main
    area shows. */
module Dashboard {

  import opened Options

  datatype Tab = Patients | Session | Research | Docs | Analytics | Settings | Support

  /** The string each tab is written as. */
  function TabId(t: Tab): string
  {
    match t
    case Patients => "patients"
    case Session => "session"
    case Research => "research"
    case Docs => "docs"
    case Analytics => "analytics"
    case Settings => "settings"
    case Support => "support"
  }

  /** The tab a string names, if it names one. */
  function ParseTab(s: string): Option<Tab>
  {
    if s == "patients" then Some(Patients)
    else if s == "session" then Some(Session)
    else if s == "research" then Some(Research)
    else if s == "docs" then Some(Docs)
    else if s == "analytics" then Some(Analytics)
    else if s == "settings" then Some(Settings)
    else if s == "support" then Some(Support)
    else None
  }

  lemma ParseTabId(t: Tab)
    ensures ParseTab(TabId(t)) == Some(t)
  {
  }

  lemma TabIdOfParse(s: string)
    ensures ParseTab(s).Some? ==> TabId(ParseTab(s).value) == s
  {
  }

  /** The heading of the top bar, one per tab. */
  function Breadcrumb(t: Tab): string
  {
    if t == Session then "Session Analysis"
    else if t == Patients then "Patient Directory"
    else if t == Research then "Research & Grants"
    else if t == Docs then "Clinical Documentation"
    else if t == Analytics then "Analytics"
    else if t == Settings then "Settings"
    else "Support"
  }

  /** No two tabs share a heading. */
  lemma BreadcrumbInjective(t1: Tab, t2: Tab)
    ensures Breadcrumb(t1) == Breadcrumb(t2) <==> t1 == t2
  {
  }

  // ---------------------------------------------------------------------------
  // The sidebar

  datatype NavItem = NavItem(title: string, id: string)

  /** The sidebar's entries: the main group, then the bottom group. */
  const SidebarItems: seq<NavItem> := [
    NavItem("Patient Directory", "patients"),
    NavItem("Session Analysis", "session"),
    NavItem("Research & Grants", "research"),
    NavItem("Clinical Documentation", "docs"),
    NavItem("Analytics", "analytics"),
    NavItem("Settings", "settings"),
    NavItem("Support", "support")
  ]

  /** Every sidebar id names a tab (so the cast of a clicked id to a tab is
      sound), and each entry is labelled with its tab's breadcrumb. */
  lemma SidebarIdsAreTabs()
    ensures forall i :: 0 <= i < |SidebarItems| ==>
      ParseTab(SidebarItems[i].id).Some? && Breadcrumb(ParseTab(SidebarItems[i].id).value) == SidebarItems[i].title
  {
  }

  /** Every tab has a sidebar entry. */
  lemma SidebarHasEveryTab(t: Tab)
    ensures exists i :: 0 <= i < |SidebarItems| && SidebarItems[i] == NavItem(Breadcrumb(t), TabId(t))
  {
    match t
    case Patients => assert SidebarItems[0] == NavItem(Breadcrumb(t), TabId(t));
    case Session => assert SidebarItems[1] == NavItem(Breadcrumb(t), TabId(t));
    case Research => assert SidebarItems[2] == NavItem(Breadcrumb(t), TabId(t));
    case Docs => assert SidebarItems[3] == NavItem(Breadcrumb(t), TabId(t));
    case Analytics => assert SidebarItems[4] == NavItem(Breadcrumb(t), TabId(t));
    case Settings => assert SidebarItems[5] == NavItem(Breadcrumb(t), TabId(t));
    case Support => assert SidebarItems[6] == NavItem(Breadcrumb(t), TabId(t));
  }

  // ---------------------------------------------------------------------------
  // Session sub-tabs

  datatype SubtabEntry = SubtabEntry(id: string, title: string)

  const SessionSubtabs: seq<SubtabEntry> :=
    [SubtabEntry("video", "Session Recording"), SubtabEntry("metrics", "Behavioral Metrics")]

  predicate IsSubtabId(s: string)
  {
    exists i :: 0 <= i < |SessionSubtabs| && SessionSubtabs[i].id == s
  }

  lemma SubtabIds(s: string)
    ensures IsSubtabId(s) <==> s == "video" || s == "metrics"
  {
    if s == "video" {
      assert SessionSubtabs[0].id == s;
    } else if s == "metrics" {
      assert SessionSubtabs[1].id == s;
    }
  }

  /** The sub-tab bar, like the patient context in the breadcrumb, is drawn only on the session tab. */
  predicate SubtabBarVisible(t: Tab)
  {
    t == Session
  }

  // ---------------------------------------------------------------------------
  // The main area

  datatype View = SessionRecording | MetricsView | PatientsView | ResearchView | DocsView | Placeholder(heading: string)

  predicate IsPlaceholderTab(t: Tab)
  {
    t == Analytics || t == Settings || t == Support
  }

  /** What the main area draws: the six guarded blocks, in page order, each
      contributing its view when its guard holds. */
  function MainContent(t: Tab, sub: string): seq<View>
  {
    (if t == Session && sub == "video" then [SessionRecording] else [])
    + (if t == Session && sub == "metrics" then [MetricsView] else [])
    + (if t == Patients then [PatientsView] else [])
    + (if t == Research then [ResearchView] else [])
    + (if t == Docs then [DocsView] else [])
    + (if IsPlaceholderTab(t) then [Placeholder(Breadcrumb(t))] else [])
  }

  /** The view each tab stands for, given the session sub-tab. */
  function ViewFor(t: Tab, sub: string): View
    requires t == Session ==> IsSubtabId(sub)
  {
    match t
    case Session => if sub == "video" then SessionRecording else MetricsView
    case Patients => PatientsView
    case Research => ResearchView
    case Docs => DocsView
    case _ => Placeholder(Breadcrumb(t))
  }

  /** With a known sub-tab exactly one block is drawn, and it is the tab's own view. */
  lemma ExactlyOneView(t: Tab, sub: string)
    requires IsSubtabId(sub)
    ensures MainContent(t, sub) == [ViewFor(t, sub)]
  {
    SubtabIds(sub);
  }

  /** Outside the session tab the sub-tab plays no part. */
  lemma OtherTabsIgnoreSubtab(t: Tab, sub1: string, sub2: string)
    requires t != Session
    ensures MainContent(t, sub1) == MainContent(t, sub2)
    ensures |MainContent(t, sub1)| == 1
  {
  }

  /** On the session tab an unknown sub-tab leaves the main area empty. */
  lemma UnknownSubtabShowsNothing(sub: string)
    requires !IsSubtabId(sub)
    ensures MainContent(Session, sub) == []
  {
    SubtabIds(sub);
  }

  /** Analytics, settings and support share one placeholder, headed with the breadcrumb. */
  lemma PlaceholderHeading(t: Tab, sub: string)
    ensures IsPlaceholderTab(t) <==> MainContent(t, sub) == [Placeholder(Breadcrumb(t))]
  {
    if !IsPlaceholderTab(t) {
      assert MainContent(t, sub) == [] || !MainContent(t, sub)[0].Placeholder?;
    }
  }

  // ---------------------------------------------------------------------------
  // Navigation state

  datatype NavState = NavState(activeTab: Tab, sessionSubtab: string)

  const InitialNav: NavState := NavState(Session, "video")

  predicate NavValid(s: NavState)
  {
    IsSubtabId(s.sessionSubtab)
  }

  /** A sidebar click. */
  function ChangeTab(s: NavState, t: Tab): (r: NavState)
    ensures NavValid(s) ==> NavValid(r)
  {
    s.(activeTab := t)
  }

  /** The gear button of the top bar. */
  function OpenSettings(s: NavState): (r: NavState)
    ensures NavValid(s) ==> NavValid(r)
  {
    s.(activeTab := Settings)
  }

  /** A click on the `i`-th sub-tab button. */
  function ChooseSubtab(s: NavState, i: nat): (r: NavState)
    requires i < |SessionSubtabs|
    ensures NavValid(r)
  {
    s.(sessionSubtab := SessionSubtabs[i].id)
  }

  /** The initial state is valid and shows the session recording. */
  lemma InitialNavShowsRecording()
    ensures NavValid(InitialNav)
    ensures MainContent(InitialNav.activeTab, InitialNav.sessionSubtab) == [SessionRecording]
  {
    SubtabIds("video");
  }

  /** Leaving the session tab and coming back restores the sub-tab that was chosen. */
  lemma ReturnRestoresSubtab(s: NavState, t: Tab)
    requires s.activeTab == Session
    ensures ChangeTab(ChangeTab(s, t), Session) == s
  {
  }

  /** Opening settings keeps the sub-tab, so returning to the session finds it again. */
  lemma SettingsKeepsSubtab(s: NavState)
    requires s.activeTab == Session
    ensures OpenSettings(s).sessionSubtab == s.sessionSubtab
    ensures ChangeTab(OpenSettings(s), Session) == s
  {
  }

  /** The stateful shell: the two state hooks and their click handlers. */
  class Shell {
    var activeTab: Tab
    var sessionSubtab: string

    function State(): NavState
      reads this
    {
      NavState(activeTab, sessionSubtab)
    }

    ghost predicate Valid()
      reads this
    {
      NavValid(State())
    }

    constructor ()
      ensures Valid() && State() == InitialNav
    {
      activeTab, sessionSubtab := Session, "video";
      SubtabIds("video");
    }

    method OnTabChange(t: Tab)
      requires Valid()
      modifies this
      ensures Valid() && State() == ChangeTab(old(State()), t)
      ensures activeTab == t && sessionSubtab == old(sessionSubtab)
    {
      activeTab := t;
    }

    method OnSettingsClick()
      requires Valid()
      modifies this
      ensures Valid() && State() == OpenSettings(old(State()))
      ensures activeTab == Settings && sessionSubtab == old(sessionSubtab)
    {
      activeTab := Settings;
    }

    /** The sub-tab buttons exist only while the session tab is active. */
    method OnSubtabClick(i: nat)
      requires Valid() && i < |SessionSubtabs| && SubtabBarVisible(activeTab)
      modifies this
      ensures Valid() && State() == ChooseSubtab(old(State()), i)
      ensures sessionSubtab == SessionSubtabs[i].id && activeTab == old(activeTab)
    {
      sessionSubtab := SessionSubtabs[i].id;
    }
  }
}
