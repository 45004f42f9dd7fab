/**
 * The `Timer` service: a table of repeating timers keyed by a counter that
 * only grows, a pause flag, and the `$rootScope` events that cancel timers
 * by their cancel event. `$timeout` is represented by the set of indices
 * whose timeout is still scheduled; a timeout going off is the step `Fire`.
 */
module Timer {
  import opened JsValue

  /** What `add` stores for a timer: the callback, its interval and the event that cancels it. */
  datatype Entry = Entry(func: Value, interval: Value, event: Value, immediateStart: Value)

  const PageChange: Value := Str("pageChange")
  const Resolve: Value := Str("resolve")

  /** The table without the entries whose event is `event`. */
  function Without(timers: map<nat, Entry>, event: Value): (r: map<nat, Entry>)
    ensures forall k :: k in r <==> k in timers && timers[k].event != event
    ensures forall k :: k in r ==> r[k] == timers[k]
  {
    map k | k in timers && timers[k].event != event :: timers[k]
  }

  /** The table part-way through `cancelTimers`: the entries still to be visited are kept whatever their event. */
  function WithoutVisited(timers: map<nat, Entry>, event: Value, unvisited: set<nat>): map<nat, Entry>
  {
    map k | k in timers && (k in unvisited || timers[k].event != event) :: timers[k]
  }

  /** Visiting one more entry removes it exactly when its event matches. */
  lemma WithoutVisitedStep(timers: map<nat, Entry>, event: Value, unvisited: set<nat>, k: nat)
    requires k in unvisited && k in timers
    ensures WithoutVisited(timers, event, unvisited - {k})
      == if timers[k].event == event then WithoutVisited(timers, event, unvisited) - {k} else WithoutVisited(timers, event, unvisited)
  {
  }

  /** Before any visit the table is whole; after all of them it is `Without`. */
  lemma WithoutVisitedEnds(timers: map<nat, Entry>, event: Value)
    ensures WithoutVisited(timers, event, timers.Keys) == timers
    ensures WithoutVisited(timers, event, {}) == Without(timers, event)
  {
  }

  class Timers {
    var timers: map<nat, Entry>
    var paused: bool
    /** The index the next `add` hands out. */
    var next: nat
    /** Indices whose `$timeout` has not yet gone off nor been cancelled. */
    var scheduled: set<nat>

    /** Every index in use was handed out before, and only table entries have a pending timeout. */
    ghost predicate Valid()
      reads this
    {
      (forall k :: k in timers ==> k < next) && scheduled <= timers.Keys
    }

    /** Every entry of the table still has its timeout pending. */
    ghost predicate Tidy()
      reads this
    {
      scheduled == timers.Keys
    }

    constructor ()
      ensures Valid() && Tidy()
      ensures timers == map[] && !paused && next == 0 && scheduled == {}
    {
      timers := map[];
      paused := false;
      next := 0;
      scheduled := {};
    }

    /**
     * `add(func, interval, immediateStart, cancelEvent)`: calls `func` once
     * straight away only when `immediateStart === true`, stores the entry
     * under a fresh index, schedules it and returns the index.
     */
    method Add(func: Value, interval: Value, immediateStart: Value, cancelEvent: Value) returns (index: nat, ranNow: bool)
      requires Valid()
      modifies this
      ensures Valid()
      ensures old(Tidy()) ==> Tidy()
      ensures index == old(next) && next == old(next) + 1
      ensures index !in old(timers)
      ensures timers == old(timers)[index := Entry(func, interval, cancelEvent, immediateStart)]
      ensures scheduled == old(scheduled) + {index}
      ensures paused == old(paused)
      ensures ranNow <==> immediateStart == Bool(true)
    {
      ranNow := immediateStart == Bool(true);
      timers := timers[next := Entry(func, interval, cancelEvent, immediateStart)];
      scheduled := scheduled + {next};
      next := next + 1;
      index := next - 1;
    }

    /** `cancel(index)`: reports whether an entry existed, and removes it and its timeout. */
    method Cancel(index: nat) returns (existed: bool)
      requires Valid()
      modifies this
      ensures Valid()
      ensures old(Tidy()) ==> Tidy()
      ensures existed <==> index in old(timers)
      ensures timers == old(timers) - {index}
      ensures scheduled == old(scheduled) - {index}
      ensures paused == old(paused) && next == old(next)
    {
      existed := index in timers;
      if existed {
        timers := timers - {index};
        scheduled := scheduled - {index};
        assert old(Tidy()) ==> scheduled == timers.Keys;
      } else {
        assert scheduled - {index} == scheduled;
      }
    }

    /** `cancelTimers(event)`: cancels exactly the entries whose event is `event`. */
    method CancelTimers(event: Value)
      requires Valid()
      modifies this
      ensures Valid()
      ensures old(Tidy()) ==> Tidy()
      ensures timers == Without(old(timers), event)
      ensures scheduled == old(scheduled) * timers.Keys
      ensures paused == old(paused) && next == old(next)
    {
      var keys := timers.Keys;
      WithoutVisitedEnds(timers, event);
      while keys != {}
        invariant Valid()
        invariant old(Tidy()) ==> Tidy()
        invariant keys <= old(timers).Keys
        invariant timers == WithoutVisited(old(timers), event, keys)
        invariant scheduled == old(scheduled) * timers.Keys
        invariant paused == old(paused) && next == old(next)
        decreases keys
      {
        var k :| k in keys;
        WithoutVisitedStep(old(timers), event, keys, k);
        if timers[k].event == event {
          var _ := Cancel(k);
        }
        keys := keys - {k};
      }
    }

    /** `$locationChangeStart` cancels the page-change and resolve timers. */
    method OnLocationChangeStart()
      requires Valid()
      modifies this
      ensures Valid()
      ensures old(Tidy()) ==> Tidy()
      ensures timers == Without(Without(old(timers), PageChange), Resolve)
      ensures paused == old(paused) && next == old(next)
    {
      CancelTimers(PageChange);
      CancelTimers(Resolve);
    }

    /** `userUpdated` cancels the page-change timers only. */
    method OnUserUpdated()
      requires Valid()
      modifies this
      ensures Valid()
      ensures old(Tidy()) ==> Tidy()
      ensures timers == Without(old(timers), PageChange)
      ensures paused == old(paused) && next == old(next)
    {
      CancelTimers(PageChange);
    }

    /** `pageHidden` pauses the timers. */
    method OnPageHidden()
      modifies this
      ensures paused && timers == old(timers) && next == old(next) && scheduled == old(scheduled)
    {
      paused := true;
    }

    /** `pageVisible` restarts them. */
    method OnPageVisible()
      modifies this
      ensures !paused && timers == old(timers) && next == old(next) && scheduled == old(scheduled)
    {
      paused := false;
    }

    /** `cancelAll`: pauses, cancels every entry, restarts; the table ends empty and unpaused. */
    method CancelAll()
      requires Valid()
      modifies this
      ensures Valid() && Tidy()
      ensures timers == map[] && scheduled == {}
      ensures !paused && next == old(next)
    {
      paused := true;
      var keys := timers.Keys;
      while keys != {}
        invariant Valid()
        invariant timers.Keys == keys
        invariant next == old(next)
        decreases keys
      {
        var k :| k in keys;
        var _ := Cancel(k);
        keys := keys - {k};
      }
      paused := false;
    }

    /**
     * The timeout of entry `index` going off, as written: `func` runs unless
     * paused, then `delete timers[i]` removes the entry at the NEXT index
     * (which does not exist) instead of this one, and a new entry is added.
     * The fired entry stays in the table without a pending timeout.
     */
    method FireAsWritten(index: nat) returns (ran: bool, newIndex: nat)
      requires Valid() && index in scheduled
      requires timers[index].event != Resolve
      modifies this
      ensures Valid()
      ensures ran <==> !old(paused)
      ensures index in timers && timers[index] == old(timers)[index] && index !in scheduled
      ensures !Tidy()
      ensures newIndex == old(next)
      ensures timers == old(timers)[newIndex := old(timers)[index].(immediateStart := Bool(false))]
      ensures paused == old(paused)
    {
      var entry := timers[index];
      ran := !paused;
      scheduled := scheduled - {index};
      timers := timers - {next};
      var immediate;
      newIndex, immediate := Add(entry.func, entry.interval, Bool(false), entry.event);
    }

    /**
     * The timeout of entry `index` going off, deleting its own entry: the
     * table then holds exactly the pending timers, one per repeating timer.
     */
    method Fire(index: nat) returns (ran: bool, newIndex: nat)
      requires Valid() && index in scheduled
      requires timers[index].event != Resolve
      modifies this
      ensures Valid()
      ensures old(Tidy()) ==> Tidy()
      ensures ran <==> !old(paused)
      ensures index !in timers
      ensures |timers| == |old(timers)|
      ensures newIndex == old(next)
      ensures timers == (old(timers) - {index})[newIndex := old(timers)[index].(immediateStart := Bool(false))]
      ensures paused == old(paused)
    {
      var entry := timers[index];
      ran := !paused;
      scheduled := scheduled - {index};
      timers := timers - {index};
      var immediate;
      newIndex, immediate := Add(entry.func, entry.interval, Bool(false), entry.event);
    }
  }
}
