/**
 * src/AnimationQueue.ts: the first-in, first-out queue of animations waiting to
 * be played. The array is changed in place: `add` pushes at the tail and
 * `removeCurrent` shifts the head off.
 */
module Queues {
  import opened Wrappers

  class AnimationQueue<T> {
    /** The waiting animations, the current one first. */
    var innerQueue: seq<T>
    /** Every animation ever added, in the order of the `add` calls. */
    ghost var added: seq<T>
    /** Every animation removed so far, in the order of the `removeCurrent` calls. */
    ghost var served: seq<T>

    /** What was served, followed by what is waiting, is what was added. */
    ghost predicate Valid()
      reads this
    {
      served + innerQueue == added
    }

    constructor ()
      ensures Valid()
      ensures innerQueue == [] && added == [] && served == []
    {
      innerQueue := [];
      added := [];
      served := [];
    }

    /**
     * `getCurrent`: the first waiting animation, that is the earliest added one
     * that has not been removed; nothing when the queue is empty.
     */
    function GetCurrent(): (r: Option<T>)
      requires Valid()
      reads this
      ensures r.None? <==> |served| == |added|
      ensures r.Some? ==> |served| < |added| && r.value == added[|served|]
    {
      assert added[|served|..] == innerQueue;
      if innerQueue == [] then None else Some(innerQueue[0])
    }

    /** `add`: the animation goes to the tail; the waiting ones keep their order. */
    method Add(animation: T)
      requires Valid()
      modifies this
      ensures Valid()
      ensures innerQueue == old(innerQueue) + [animation]
      ensures added == old(added) + [animation] && served == old(served)
    {
      innerQueue := innerQueue + [animation];
      added := added + [animation];
    }

    /** `removeCurrent`: the head is dropped and the rest keep their order; an empty queue stays empty. */
    method RemoveCurrent()
      requires Valid()
      modifies this
      ensures Valid()
      ensures added == old(added)
      ensures old(innerQueue) == [] ==> innerQueue == [] && served == old(served)
      ensures old(innerQueue) != [] ==>
        innerQueue == old(innerQueue[1..]) && served == old(served) + [old(innerQueue[0])]
    {
      if innerQueue != [] {
        served := served + [innerQueue[0]];
        innerQueue := innerQueue[1..];
      }
    }

    /**
     * First in, first out: the animations leave the queue in exactly the
     * order in which they were added.
     */
    lemma ServedInAddOrder()
      requires Valid()
      ensures |served| <= |added| && served == added[..|served|]
      ensures innerQueue == added[|served|..]
    {
      assert added[..|served|] == served;
    }
  }
}
