/**
 * The experience timeline's accordion (src/components/sections/Experience.tsx):
 * at most one work entry is expanded, and its toggle button and achievements
 * list follow that choice.
 */
module Experience {
  import opened Options

  /** `toggleExpanded`: collapse the entry if it is the expanded one, expand it otherwise. */
  function Toggle(expanded: Option<nat>, index: nat): (r: Option<nat>)
    ensures r == None <==> expanded == Some(index)
    ensures r != None ==> r == Some(index)
  {
    if expanded == Some(index) then None else Some(index)
  }

  /** Toggling twice restores the state when nothing or the same entry was expanded. */
  lemma ToggleTwice(expanded: Option<nat>, index: nat)
    ensures expanded == None || expanded == Some(index) ==> Toggle(Toggle(expanded, index), index) == expanded
    ensures expanded.Some? && expanded.value != index ==> Toggle(Toggle(expanded, index), index) == None
  {
  }

  /** Toggling another entry switches straight to it. */
  lemma ToggleSwitches(other: nat, index: nat)
    requires other != index
    ensures Toggle(Some(other), index) == Some(index)
  {
  }

  datatype Chevron = Down | Right

  /** What one work entry shows. */
  datatype EntryView = EntryView(chevron: Chevron, achievementsShown: bool, visitLink: bool)

  /** The "Visit" link is left out for the placeholder website `'#'`. */
  function RenderEntry(expanded: Option<nat>, index: nat, website: string): (v: EntryView)
    ensures v.chevron == Down <==> expanded == Some(index)
    ensures v.achievementsShown <==> expanded == Some(index)
    ensures v.visitLink <==> website != "#"
  {
    var open := expanded == Some(index);
    EntryView(if open then Down else Right, open, website != "#")
  }

  /** No two entries show their achievements at the same time. */
  lemma AtMostOneExpanded(expanded: Option<nat>, i: nat, j: nat, wi: string, wj: string)
    requires RenderEntry(expanded, i, wi).achievementsShown && RenderEntry(expanded, j, wj).achievementsShown
    ensures i == j
  {
  }

  class ExperienceSection {
    /** `expandedExperience`: the index of the expanded work entry, if any. */
    var expandedExperience: Option<nat>

    constructor ()
      ensures expandedExperience == None
    {
      expandedExperience := None;
    }

    method ToggleExpanded(index: nat)
      modifies this
      ensures expandedExperience == Toggle(old(expandedExperience), index)
    {
      expandedExperience := if expandedExperience == Some(index) then None else Some(index);
    }
  }
}
