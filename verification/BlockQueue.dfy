// The first-in first-out queue between the connections and the match thread.
module BlockQueues {
  import opened Basics

  // What the other threads did while the caller was asleep.
  datatype Wake<T> = Wake(pushed: seq<T>, shut: bool)

  // Pushes and shutdowns of several naps together.
  function PushedIn<T>(wakes: seq<Wake<T>>): seq<T> {
    if wakes == [] then [] else PushedIn(wakes[..|wakes| - 1]) + wakes[|wakes| - 1].pushed
  }

  predicate ShutIn<T>(wakes: seq<Wake<T>>) {
    exists k :: 0 <= k < |wakes| && wakes[k].shut
  }

  class BlockQueue<T> {
    var queue: seq<T>
    var shut: bool

    constructor ()
      ensures queue == [] && !shut
    {
      queue := [];
      shut := false;
    }

    // A queue that is shut swallows what is pushed.
    method Push(x: T)
      modifies this
      ensures queue == (if old(shut) then old(queue) else old(queue) + [x]) && shut == old(shut)
    {
      if shut {
        return;
      }
      queue := queue + [x];
    }

    // Sleeps while the queue is empty and open; `wakes` is what the other threads
    // do during each nap before the deadline.  The oldest element is taken if
    // there is one, also after a shutdown.  `naps` counts the naps that ended
    // before the deadline: no more of them than needed.
    method TimedPop(wakes: seq<Wake<T>>) returns (x: Option<T>, ghost naps: nat)
      modifies this
      ensures naps <= |wakes|
      ensures forall k :: 0 <= k < naps ==> old(queue) + PushedIn(wakes[..k]) == [] && !old(shut) && !ShutIn(wakes[..k])
      ensures shut == (old(shut) || ShutIn(wakes[..naps]))
      ensures x.Some? ==> [x.value] + queue == old(queue) + PushedIn(wakes[..naps])
      ensures x.None? ==> queue == [] && old(queue) + PushedIn(wakes[..naps]) == [] && (shut || naps == |wakes|)
    {
      var i := 0;
      while queue == [] && !shut && i < |wakes|
        invariant 0 <= i <= |wakes|
        invariant queue == old(queue) + PushedIn(wakes[..i]) && shut == (old(shut) || ShutIn(wakes[..i]))
        invariant forall k :: 0 <= k < i ==> old(queue) + PushedIn(wakes[..k]) == [] && !old(shut) && !ShutIn(wakes[..k])
      {
        assert wakes[..i + 1][..i] == wakes[..i];
        assert forall k :: 0 <= k < i + 1 ==> wakes[..i + 1][k] == wakes[k];
        assert wakes[i].shut ==> ShutIn(wakes[..i + 1]);
        queue := queue + wakes[i].pushed;
        shut := shut || wakes[i].shut;
        i := i + 1;
      }
      naps := i;
      if queue == [] {
        return None, naps;
      }
      x := Some(queue[0]);
      queue := queue[1..];
    }

    method Shutdown()
      modifies this
      ensures queue == old(queue) && shut
    {
      shut := true;
    }
  }
}
