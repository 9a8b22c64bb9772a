/**
 * The activity carousel (src/components/ui/CategoryCarousel.tsx): a current
 * index into the list of activities that wraps around at both ends, an
 * auto-play flag that a 4-second timer consults, and the activity whose
 * details modal is open.
 */
module CategoryCarousel {
  import opened Options

  /** One carousel entry; icon, gradient and long description are presentation only. */
  datatype Activity = Activity(title: string, organization: string)

  /** Index after the "next" arrow or a timer tick: `(i + 1) % n`. */
  function NextIndex(i: nat, n: nat): (r: nat)
    requires n > 0
    ensures r < n
    ensures i + 1 < n ==> r == i + 1
    ensures i + 1 == n ==> r == 0
  {
    (i + 1) % n
  }

  /** Index after the "previous" arrow: `(i - 1 + n) % n`, never negative since `i >= 0`. */
  function PrevIndex(i: nat, n: nat): (r: nat)
    requires n > 0
    ensures r < n
    ensures 0 < i < n ==> r == i - 1
    ensures i == 0 ==> r == n - 1
  {
    (i - 1 + n) % n
  }

  /** Next and previous undo each other on an in-range index. */
  lemma PrevUndoesNext(i: nat, n: nat)
    requires i < n
    ensures PrevIndex(NextIndex(i, n), n) == i
  {
  }

  lemma NextUndoesPrev(i: nat, n: nat)
    requires i < n
    ensures NextIndex(PrevIndex(i, n), n) == i
  {
  }

  /** The index after `k` consecutive advances from `i`. */
  function Advance(i: nat, k: nat, n: nat): (r: nat)
    requires n > 0
    ensures k == 0 ==> r == i
    ensures k > 0 ==> r < n
  {
    if k == 0 then i else NextIndex(Advance(i, k - 1, n), n)
  }

  /** Up to `n` advances from an in-range index move it forward by `k`, wrapping once. */
  lemma {:induction false} AdvanceShifts(i: nat, k: nat, n: nat)
    requires i < n && k <= n
    ensures Advance(i, k, n) == if i + k < n then i + k else i + k - n
  {
    if k > 0 {
      AdvanceShifts(i, k - 1, n);
    }
  }

  /** `n` consecutive advances make a full cycle. */
  lemma FullCycle(i: nat, n: nat)
    requires i < n
    ensures Advance(i, n, n) == i
  {
    AdvanceShifts(i, n, n);
  }

  /** What the component renders. `TypeError` is the render that reads a field of `activities[currentIndex]` when that element is undefined. */
  datatype CarouselView =
    | Nothing
    | TypeError
    | Shown(card: Activity, arrows: bool, dots: seq<bool>, modal: Option<Activity>)

  /** The render: nothing for an empty list, the card at the index with arrows and dots when there is more than one entry, the modal when an activity is selected. */
  function Render(activities: seq<Activity>, index: nat, selected: Option<Activity>): (v: CarouselView)
    ensures v.Nothing? <==> |activities| == 0
    ensures v.TypeError? <==> 0 < |activities| <= index
    ensures v.Shown? ==> index < |activities| && v.card == activities[index]
    ensures v.Shown? ==> (v.arrows <==> |activities| > 1) && v.modal == selected
    ensures v.Shown? ==> |v.dots| == (if |activities| > 1 then |activities| else 0)
    ensures v.Shown? ==> forall k :: 0 <= k < |v.dots| ==> (v.dots[k] <==> k == index)
  {
    if |activities| == 0 then Nothing
    else if index >= |activities| then TypeError
    else
      var n := |activities|;
      Shown(activities[index], n > 1, if n > 1 then seq(n, k => k == index) else [], selected)
  }

  class Carousel {
    /** The `activities` prop: the parent may replace it at any time. */
    var activities: seq<Activity>
    var currentIndex: nat
    var selected: Option<Activity>
    var autoPlaying: bool

    /** The index addresses an element of the current list. */
    predicate InRange()
      reads this
    {
      currentIndex < |activities|
    }

    function View(): (v: CarouselView)
      reads this
      ensures v.Shown? <==> InRange()
    {
      Render(activities, currentIndex, selected)
    }

    /** Mount: index 0, nothing selected, auto-play on. */
    constructor (activities: seq<Activity>)
      ensures this.activities == activities
      ensures currentIndex == 0 && selected == None && autoPlaying
      ensures InRange() <==> |activities| > 0
    {
      this.activities := activities;
      currentIndex := 0;
      selected := None;
      autoPlaying := true;
    }

    /** The "previous" arrow, rendered only when there is more than one activity. */
    method Previous()
      requires |activities| > 1
      modifies this
      ensures activities == old(activities) && selected == old(selected)
      ensures currentIndex == PrevIndex(old(currentIndex), |activities|)
      ensures !autoPlaying
      ensures InRange()
    {
      autoPlaying := false;
      currentIndex := (currentIndex - 1 + |activities|) % |activities|;
    }

    /** The "next" arrow, rendered only when there is more than one activity. */
    method Next()
      requires |activities| > 1
      modifies this
      ensures activities == old(activities) && selected == old(selected)
      ensures currentIndex == NextIndex(old(currentIndex), |activities|)
      ensures !autoPlaying
      ensures InRange()
    {
      autoPlaying := false;
      currentIndex := (currentIndex + 1) % |activities|;
    }

    /** One firing of the 4-second interval, which exists only while auto-play is on and there is more than one activity. */
    method Tick()
      modifies this
      ensures autoPlaying && |activities| > 1 ==> currentIndex == NextIndex(old(currentIndex), |activities|)
      ensures !(autoPlaying && |activities| > 1) ==> currentIndex == old(currentIndex)
      ensures activities == old(activities) && selected == old(selected) && autoPlaying == old(autoPlaying)
      ensures old(InRange()) ==> InRange()
    {
      if autoPlaying && |activities| > 1 {
        currentIndex := (currentIndex + 1) % |activities|;
      }
    }

    /** A click on the card opens its details and stops auto-play. */
    method ActivityClick(activity: Activity)
      modifies this
      ensures selected == Some(activity) && !autoPlaying
      ensures activities == old(activities) && currentIndex == old(currentIndex)
    {
      selected := Some(activity);
      autoPlaying := false;
    }

    /** A click on the card on screen opens the details of exactly that activity. */
    method CardClick()
      requires InRange()
      modifies this
      ensures selected == Some(old(activities[currentIndex])) && !autoPlaying
      ensures activities == old(activities) && currentIndex == old(currentIndex)
      ensures View().Shown? && View().modal == Some(View().card)
    {
      ActivityClick(activities[currentIndex]);
    }

    /** Closing the modal clears the selection and restarts auto-play. */
    method CloseModal()
      modifies this
      ensures selected == None && autoPlaying
      ensures activities == old(activities) && currentIndex == old(currentIndex)
    {
      selected := None;
      autoPlaying := true;
    }

    /** Dot `k`, one per activity and rendered only when there is more than one. */
    method DotClick(k: nat)
      requires 1 < |activities| && k < |activities|
      modifies this
      ensures currentIndex == k && !autoPlaying
      ensures activities == old(activities) && selected == old(selected)
      ensures InRange()
    {
      currentIndex := k;
      autoPlaying := false;
    }

    /** The pointer enters the carousel container. */
    method MouseEnter()
      modifies this
      ensures !autoPlaying
      ensures activities == old(activities) && currentIndex == old(currentIndex) && selected == old(selected)
    {
      autoPlaying := false;
    }

    /** The pointer leaves the carousel container. */
    method MouseLeave()
      modifies this
      ensures autoPlaying
      ensures activities == old(activities) && currentIndex == old(currentIndex) && selected == old(selected)
    {
      autoPlaying := true;
    }

    /**
     * The parent re-renders with a different `activities` prop. The state
     * hooks of the mounted instance survive, so the index is kept as it is.
     */
    method ReceiveActivities(activities: seq<Activity>)
      modifies this
      ensures this.activities == activities
      ensures currentIndex == old(currentIndex) && selected == old(selected) && autoPlaying == old(autoPlaying)
      ensures InRange() <==> old(currentIndex) < |activities|
    {
      this.activities := activities;
    }

    /** A list swap that also brings the index back to the first entry. */
    method ReceiveActivitiesAndReset(activities: seq<Activity>)
      modifies this
      ensures this.activities == activities && currentIndex == 0
      ensures selected == old(selected) && autoPlaying == old(autoPlaying)
      ensures InRange() <==> |activities| > 0
    {
      this.activities := activities;
      currentIndex := 0;
    }
  }
}
