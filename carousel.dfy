/** The success-stories carousel: three stories shown one at a time, moved by
    arrow buttons, by the dots under them and by a seven-second timer. */
module SuccessStories {

  /** The stories' titles, in display order. */
  const StoryTitles: seq<string> := ["TB Detection in West Africa", "Brain Tumor Classification", "COVID-19 Rapid Response"]

  /** `stories.length`. */
  const StoryCount: nat := 3

  /** The timer's period, in milliseconds. */
  const TickMillis: nat := 7000

  lemma StoryCountIsLength()
    ensures |StoryTitles| == StoryCount
  {
  }

  /** `paginate`'s update of the index: step by the direction, and wrap to the
      last story below zero and to the first at or past the end. */
  function Paginated(prev: int, step: int): (r: int)
    ensures 0 <= r < StoryCount
    ensures 0 <= prev + step < StoryCount ==> r == prev + step
    ensures prev + step < 0 ==> r == StoryCount - 1
    ensures prev + step >= StoryCount ==> r == 0
  {
    var next := prev + step;
    if next < 0 then StoryCount - 1 else if next >= StoryCount then 0 else next
  }

  /** On a shown story a single step forward or back is the step modulo the
      number of stories, so the arrows cycle through all of them. */
  lemma ArrowIsModular(prev: int, step: int)
    requires 0 <= prev < StoryCount && (step == 1 || step == -1)
    ensures Paginated(prev, step) == (prev + step) % StoryCount
  {
  }

  /** Back undoes forward and forward undoes back. */
  lemma BackUndoesForward(prev: int)
    requires 0 <= prev < StoryCount
    ensures Paginated(Paginated(prev, 1), -1) == prev
    ensures Paginated(Paginated(prev, -1), 1) == prev
  {
  }

  /** The timer's update `(prev + 1) % stories.length` agrees with the
      forward arrow on every shown story. */
  lemma TickIsForward(prev: int)
    requires 0 <= prev < StoryCount
    ensures (prev + 1) % StoryCount == Paginated(prev, 1)
  {
  }

  /** The story reached after k forward steps from i. */
  function Forward(i: int, k: nat): (r: int)
    requires 0 <= i < StoryCount
    ensures 0 <= r < StoryCount
  {
    if k == 0 then i else Paginated(Forward(i, k - 1), 1)
  }

  /** k forward steps land on (i + k) modulo the number of stories. */
  lemma {:induction false} ForwardIsModular(i: int, k: nat)
    requires 0 <= i < StoryCount
    ensures Forward(i, k) == (i + k) % StoryCount
  {
    if k > 0 {
      ForwardIsModular(i, k - 1);
      ArrowIsModular(Forward(i, k - 1), 1);
    }
  }

  /** Every story comes round again after as many steps as there are stories. */
  lemma ForwardFullCycle(i: int)
    requires 0 <= i < StoryCount
    ensures Forward(i, StoryCount) == i
  {
    ForwardIsModular(i, StoryCount);
  }

  /** The dot's direction: forward when the dot lies after the current story,
      backward otherwise, also for the current story's own dot. */
  function DotDirection(idx: int, current: int): (r: int)
    ensures r == 1 <==> idx > current
    ensures r == -1 <==> idx <= current
  {
    if idx > current then 1 else -1
  }

  /** Where the entering slide starts: from the right when moving forward. */
  function EnterX(direction: int): int
  {
    if direction > 0 then 1000 else -1000
  }

  /** Where the leaving slide goes: to the left when moving forward. */
  function ExitX(direction: int): int
  {
    if direction < 0 then 1000 else -1000
  }

  /** Once the carousel has moved, the old slide leaves on the side opposite
      to the one the new slide enters from; before any move both are on the left. */
  lemma SlidesOpposite(direction: int)
    ensures direction != 0 ==> ExitX(direction) == -EnterX(direction)
    ensures direction == 0 ==> EnterX(direction) == ExitX(direction) == -1000
  {
  }

  class StoryCarousel {
    var currentIndex: int
    var direction: int

    /** A story is shown and the direction is backward, none yet, or forward. */
    ghost predicate Valid()
      reads this
    {
      0 <= currentIndex < StoryCount && -1 <= direction <= 1
    }

    constructor ()
      ensures Valid() && currentIndex == 0 && direction == 0
    {
      currentIndex := 0;
      direction := 0;
    }

    /** `paginate`, as the arrow buttons call it. */
    method Paginate(newDirection: int)
      requires Valid() && (newDirection == 1 || newDirection == -1)
      modifies this
      ensures Valid()
      ensures direction == newDirection
      ensures currentIndex == Paginated(old(currentIndex), newDirection)
    {
      direction := newDirection;
      var next := currentIndex + newDirection;
      if next < 0 {
        next := StoryCount - 1;
      }
      if next >= StoryCount {
        next := 0;
      }
      currentIndex := next;
    }

    /** The interval timer: forward, wrapping past the last story. */
    method Tick()
      requires Valid()
      modifies this
      ensures Valid()
      ensures direction == 1
      ensures currentIndex == (old(currentIndex) + 1) % StoryCount
    {
      direction := 1;
      currentIndex := (currentIndex + 1) % StoryCount;
    }

    /** A dot click: the dot's story is shown, in the dot's direction. */
    method DotClick(idx: int)
      requires Valid() && 0 <= idx < StoryCount
      modifies this
      ensures Valid()
      ensures direction == DotDirection(idx, old(currentIndex))
      ensures currentIndex == idx
    {
      direction := if idx > currentIndex then 1 else -1;
      currentIndex := idx;
    }
  }
}
