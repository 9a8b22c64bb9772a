/**
 * The extracurricular section (src/components/sections/Extracurricular.tsx):
 * four tabs, each owning a list of activities, and one carousel that shows
 * the list of the active tab under the tab's label.
 */
module Extracurricular {
  import opened Options
  import opened CategoryCarousel

  datatype Tab = Tab(id: string, name: string)

  const Tabs: seq<Tab> := [
    Tab("literary", "Literary & Cultural"),
    Tab("sports", "Sports & Physical"),
    Tab("leadership", "Leadership & Governance"),
    Tab("community", "Community Service")
  ]

  const Literary: seq<Activity> := [
    Activity("Published Author - \"Navigating Bias\"", "Amazon Kindle Direct Publishing"),
    Activity("State Level Debate Championships", "All Bengal Teachers Association"),
    Activity("State Level Extempore Speech Excellence", "All Bengal Teachers Association"),
    Activity("Senior Diploma in Drawing & Painting - 1st Division", "Calcutta Talent Search School"),
    Activity("Senior Diploma in Recitation - 1st Division", "Sarbabharatiya Sangeet-O-Sanskriti Parishad")
  ]

  const Sports: seq<Activity> := [
    Activity("Hockey Team Member - Radhakrishnan Hall", "IIT Kharagpur")
  ]

  const Leadership: seq<Activity> := [
    Activity("Undergraduate Representative Candidate", "IIT Kharagpur Student Gymkhana"),
    Activity("Department Representative - Undergraduate Council", "Ocean Engineering & Naval Architecture Department"),
    Activity("Social & Cultural Coordinator - Radhakrishnan Hall", "IIT Kharagpur")
  ]

  const Community: seq<Activity> := [
    Activity("NSS Volunteer - Unit 3 Sub Unit D", "National Service Scheme, IIT Kharagpur"),
    Activity("Mentoring for Free on Mentor Together", "Mentor Together Platform"),
    Activity("Rural Development Programs", "NSS Adopted Villages")
  ]

  /** `id` names one of the tabs. */
  predicate IsTabId(id: string)
  {
    exists t :: t in Tabs && t.id == id
  }

  /** The `activities` record looked up by tab id. */
  function ActivitiesFor(id: string): (r: Option<seq<Activity>>)
    ensures r.Some? <==> IsTabId(id)
    ensures r.Some? ==> |r.value| > 0
  {
    if id == "literary" then assert Tabs[0] in Tabs; Some(Literary)
    else if id == "sports" then assert Tabs[1] in Tabs; Some(Sports)
    else if id == "leadership" then assert Tabs[2] in Tabs; Some(Leadership)
    else if id == "community" then assert Tabs[3] in Tabs; Some(Community)
    else None
  }

  /** `tabs.find(tab => tab.id === id)?.label`: the label of the first tab with that id. */
  function FindLabel(tabs: seq<Tab>, id: string): (r: Option<string>)
    ensures r.None? <==> forall t :: t in tabs ==> t.id != id
    ensures r.Some? ==> exists k :: (0 <= k < |tabs| && tabs[k].id == id && tabs[k].name == r.value
                                     && forall j :: 0 <= j < k ==> tabs[j].id != id)
  {
    if |tabs| == 0 then None
    else if tabs[0].id == id then Some(tabs[0].name)
    else
      var rest := FindLabel(tabs[1..], id);
      assert forall t :: t in tabs ==> t == tabs[0] || t in tabs[1..];
      if rest.Some? then
        var k :| (0 <= k < |tabs[1..]| && tabs[1..][k].id == id && tabs[1..][k].name == rest.value
                  && forall j :: 0 <= j < k ==> tabs[1..][j].id != id);
        assert tabs[k + 1].id == id && tabs[k + 1].name == rest.value;
        assert forall j :: 0 <= j < k + 1 ==> tabs[j].id != id by {
          forall j | 0 <= j < k + 1 ensures tabs[j].id != id {
            if j > 0 { assert tabs[j] == tabs[1..][j - 1]; }
          }
        }
        rest
      else rest
  }

  /** The carousel's `categoryName`: the active tab's label, or "" when no tab matches. */
  function CategoryName(id: string): (name: string)
    ensures IsTabId(id) ==> name != ""
    ensures !IsTabId(id) ==> name == ""
  {
    match FindLabel(Tabs, id)
    case None => ""
    case Some(n) => n
  }

  /** Each tab id has its own list and its own heading. */
  lemma TabContents()
    ensures ActivitiesFor("literary") == Some(Literary) && CategoryName("literary") == "Literary & Cultural"
    ensures ActivitiesFor("sports") == Some(Sports) && CategoryName("sports") == "Sports & Physical"
    ensures ActivitiesFor("leadership") == Some(Leadership) && CategoryName("leadership") == "Leadership & Governance"
    ensures ActivitiesFor("community") == Some(Community) && CategoryName("community") == "Community Service"
    ensures |Literary| == 5 && |Sports| == 1 && |Leadership| == 3 && |Community| == 3
  {
    assert Tabs[0].id != "sports";
    assert Tabs[0].id != "leadership" && Tabs[1].id != "leadership";
    assert Tabs[0].id != "community" && Tabs[1].id != "community" && Tabs[2].id != "community";
  }

  /** The four tab ids are pairwise distinct, so `find` never has a choice to make. */
  lemma TabIdsDistinct()
    ensures forall i, j :: 0 <= i < j < |Tabs| ==> Tabs[i].id != Tabs[j].id
  {
    assert Tabs[0].id[0] == 'l' && Tabs[1].id[0] == 's' && Tabs[2].id[0] == 'l' && Tabs[3].id[0] == 'c';
    assert Tabs[0].id[1] == 'i' && Tabs[2].id[1] == 'e';
  }

  class Section {
    /** `activeTab`. */
    var activeTab: string
    /** The one carousel instance, kept mounted across tab switches. */
    const carousel: Carousel

    /** The carousel shows the list of the active tab. */
    predicate Valid()
      reads this, carousel
    {
      IsTabId(activeTab) && ActivitiesFor(activeTab) == Some(carousel.activities)
    }

    /** `useState('literary')`, and the carousel mounted on the literary list. */
    constructor ()
      ensures Valid() && activeTab == "literary" && fresh(carousel)
      ensures carousel.activities == Literary && carousel.currentIndex == 0 && carousel.InRange()
      ensures carousel.selected == None && carousel.autoPlaying
    {
      activeTab := "literary";
      carousel := new Carousel(Literary);
      assert Tabs[0] in Tabs;
    }

    /** A tab button is highlighted exactly when it is the active tab. */
    function Highlighted(tabId: string): (b: bool)
      reads this, carousel
      ensures b && Valid() ==> IsTabId(tabId) && ActivitiesFor(tabId) == Some(carousel.activities)
    {
      activeTab == tabId
    }

    /**
     * A click on a tab button, as written: the section re-renders and the
     * carousel receives the new list while keeping its index.
     */
    method SelectTabAsWritten(id: string)
      requires Valid() && IsTabId(id)
      modifies this, carousel
      ensures Valid() && activeTab == id && Highlighted(id)
      ensures carousel.currentIndex == old(carousel.currentIndex)
      ensures carousel.selected == old(carousel.selected) && carousel.autoPlaying == old(carousel.autoPlaying)
      ensures carousel.InRange() <==> old(carousel.currentIndex) < |carousel.activities|
      ensures carousel.View() == TypeError <==> old(carousel.currentIndex) >= |carousel.activities|
    {
      activeTab := id;
      carousel.ReceiveActivities(ActivitiesFor(id).value);
    }

    /** A click on a tab button that also brings the carousel back to its first card. */
    method SelectTab(id: string)
      requires Valid() && IsTabId(id)
      modifies this, carousel
      ensures Valid() && activeTab == id && Highlighted(id)
      ensures carousel.currentIndex == 0 && carousel.InRange()
      ensures carousel.selected == old(carousel.selected) && carousel.autoPlaying == old(carousel.autoPlaying)
      ensures carousel.View().Shown? && carousel.View().card == ActivitiesFor(id).value[0]
    {
      activeTab := id;
      carousel.ReceiveActivitiesAndReset(ActivitiesFor(id).value);
    }
  }

  /** While the section is consistent, exactly one tab button is highlighted. */
  lemma ExactlyOneHighlighted(section: Section)
    requires section.Valid()
    ensures exists t :: t in Tabs && section.Highlighted(t.id)
    ensures forall i, j :: 0 <= i < j < |Tabs| ==> !(section.Highlighted(Tabs[i].id) && section.Highlighted(Tabs[j].id))
  {
    TabIdsDistinct();
    var t :| t in Tabs && t.id == section.activeTab;
    assert section.Highlighted(t.id);
  }

  /**
   * Four presses of "next" on the literary tab reach its fifth card; a switch
   * to the sports tab, which has one card, then leaves the index past the end.
   */
  method StaleIndexAfterTabSwitch() returns (view: CarouselView)
    ensures view == TypeError
  {
    var section := new Section();
    section.carousel.Next();
    section.carousel.Next();
    section.carousel.Next();
    section.carousel.Next();
    assert section.carousel.currentIndex == 4;
    TabContents();
    section.SelectTabAsWritten("sports");
    view := section.carousel.View();
  }

  /** The same clicks with the resetting tab switch show the sports card. */
  method FreshIndexAfterTabSwitch() returns (view: CarouselView)
    ensures view.Shown? && view.card == Sports[0]
  {
    var section := new Section();
    section.carousel.Next();
    section.carousel.Next();
    section.carousel.Next();
    section.carousel.Next();
    TabContents();
    section.SelectTab("sports");
    view := section.carousel.View();
  }
}
