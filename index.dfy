/** The page that owns the shared state: the active tab, the newest-first list of
    generated items and the credit balance, and the switch that picks the screen. */
module Index {
  import opened Content

  /** The seven values of `TabType`. */
  const Tabs: seq<string> := ["dashboard", "images", "videos", "text", "social", "gallery", "credits"]

  /** The screen `renderActiveTab` shows. */
  datatype Screen =
    | DashboardScreen | ImageScreen | VideoScreen | TextScreen
    | SocialScreen | GalleryScreen | CreditsScreen

  /** `renderActiveTab`: one screen per tab name, the dashboard for anything else. */
  function ScreenFor(tab: string): (s: Screen)
    ensures tab !in Tabs ==> s == DashboardScreen
  {
    match tab
    case "dashboard" => DashboardScreen
    case "images" => ImageScreen
    case "videos" => VideoScreen
    case "text" => TextScreen
    case "social" => SocialScreen
    case "gallery" => GalleryScreen
    case "credits" => CreditsScreen
    case _ => DashboardScreen
  }

  /** The tab name that selects a screen. */
  function TabOf(s: Screen): (tab: string)
    ensures tab in Tabs
  {
    match s
    case DashboardScreen => "dashboard"
    case ImageScreen => "images"
    case VideoScreen => "videos"
    case TextScreen => "text"
    case SocialScreen => "social"
    case GalleryScreen => "gallery"
    case CreditsScreen => "credits"
  }

  /** Every screen is reached from its own tab, and two different tabs show two
      different screens: the switch is a bijection between tabs and screens. */
  lemma TabsAndScreensCorrespond(s: Screen, i: nat, j: nat)
    requires i < j < |Tabs|
    ensures ScreenFor(TabOf(s)) == s
    ensures TabOf(ScreenFor(Tabs[i])) == Tabs[i]
    ensures ScreenFor(Tabs[i]) != ScreenFor(Tabs[j])
  {
  }

  /** A snapshot of the page's three pieces of state. */
  datatype AppState = AppState(activeTab: string, content: seq<ContentItem>, credits: int)

  /** The state on first render: the dashboard, nothing generated, 100 credits. */
  const InitialState := AppState("dashboard", [], 100)

  /** `addToGallery(item)` applied to a snapshot. */
  function WithItem(s: AppState, item: ContentItem): (r: AppState)
    ensures |r.content| == |s.content| + 1
    ensures r.content[0] == item && r.content[1..] == s.content
    ensures r.credits == s.credits && r.activeTab == s.activeTab
  {
    s.(content := [item] + s.content)
  }

  /** `handleCreditsChange(n)` applied to a snapshot. */
  function WithCredits(s: AppState, n: int): (r: AppState)
    ensures r.credits == n && r.content == s.content && r.activeTab == s.activeTab
  {
    s.(credits := n)
  }

  /** `setActiveTab(tab)` applied to a snapshot. */
  function WithTab(s: AppState, tab: string): (r: AppState)
    ensures r.activeTab == tab && r.content == s.content && r.credits == s.credits
  {
    s.(activeTab := tab)
  }

  /** The store never deduplicates: adding an item that is already there, or one that
      shares its id with a stored item, still adds one more copy. */
  lemma AddNeverDeduplicates(s: AppState, item: ContentItem)
    ensures multiset(WithItem(s, item).content)[item] == multiset(s.content)[item] + 1
    ensures forall x :: x in s.content ==> x in WithItem(s, item).content
  {
    assert WithItem(s, item).content == [item] + s.content;
  }

  /** Two additions read back newest first. */
  lemma NewestFirst(s: AppState, a: ContentItem, b: ContentItem)
    ensures WithItem(WithItem(s, a), b).content[..2] == [b, a]
    ensures WithItem(WithItem(s, a), b).content[2..] == s.content
  {
    var r := WithItem(WithItem(s, a), b);
    assert r.content == [b] + ([a] + s.content);
  }

  /** The page component's state, replaced only through its three setters. */
  class Studio {
    var activeTab: string
    var content: seq<ContentItem>
    var credits: int

    /** The page as first rendered. */
    constructor ()
      ensures State() == InitialState
    {
      activeTab := "dashboard";
      content := [];
      credits := 100;
    }

    function State(): AppState
      reads this
    {
      AppState(activeTab, content, credits)
    }

    /** The screen currently rendered. */
    function ActiveScreen(): Screen
      reads this
    {
      ScreenFor(activeTab)
    }

    /** `addToGallery`: the new item goes in front of the list. */
    method AddToGallery(item: ContentItem)
      modifies this
      ensures State() == WithItem(old(State()), item)
    {
      content := [item] + content;
    }

    /** `handleCreditsChange`: the balance is replaced by the given value. */
    method HandleCreditsChange(newCredits: int)
      modifies this
      ensures State() == WithCredits(old(State()), newCredits)
    {
      credits := newCredits;
    }

    /** `setActiveTab`, as the header and the dashboard call it. */
    method SetActiveTab(tab: string)
      modifies this
      ensures State() == WithTab(old(State()), tab)
      ensures ActiveScreen() == ScreenFor(tab)
    {
      activeTab := tab;
    }
  }
}
