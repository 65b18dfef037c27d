/**
 The critical sections of `CommandQueue` and `Event` in their own, imperative form, proved against
 the steps of the transition system: a section that no other thread disturbs is a run of steps.
 */
module CommandQueues {
  import opened Wrappers
  import opened Sequences
  import opened SchedulerModel
  import opened SchedulerDrain
  import opened SchedulerInvariant
  import opened SchedulerScan
  import opened SchedulerComplete
  import opened SchedulerSafety
  import opened SchedulerTheorems
  import opened SchedulerRuns
  import opened SchedulerProgress

  // ----- Cleaning and snapshots

  /** All iterations of `cleanEvents`. */
  function CleanAll(q: Queue, ev: seq<Event>): (r: Queue)
    requires QueueTyped(q, |ev|)
    ensures QueueTyped(r, |ev|)
    decreases if q.section.Cleaning? then |q.list| - q.section.index + 1 else 0
  {
    if q.section.Cleaning? then CleanAll(CleanIteration(q, ev), ev) else q
  }

  /** The three outcomes of an iteration of `cleanEvents`. */
  lemma CleanStep(q: Queue, ev: seq<Event>)
    requires QueueTyped(q, |ev|) && q.section.Cleaning?
    ensures var i := q.section.index;
      if i == |q.list| || (!ev[q.list[i]].Done() && !q.outOfOrder) then
        CleanAll(q, ev) == if q.inQueue == 0 then Broadcast(q.(section := Free)) else q.(section := Free)
      else
        var q' := if ev[q.list[i]].Done() then DropCompleted(q, i) else q.(section := Cleaning(i + 1));
        QueueTyped(q', |ev|) && CleanAll(q', ev) == CleanAll(q, ev)
  {
  }

  /** The entries that `events(count, false)` copies. */
  function Unfinished(list: seq<EventId>, ev: seq<Event>): (r: seq<EventId>)
    requires forall i :: 0 <= i < |list| ==> list[i] < |ev|
  {
    if list == [] then []
    else
      var rest := Unfinished(list[..|list| - 1], ev);
      if ev[list[|list| - 1]].Done() then rest else rest + [list[|list| - 1]]
  }

  /** The events that entered the history of dispatches are commands, but for `instant`, whose status
      is still Queued. */
  ghost predicate OnlyInstant(before: set<EventId>, after: set<EventId>, ev: seq<Event>, instant: Option<EventId>) {
    && (forall e :: e in after && e !in before ==> e < |ev| && (instant == Some(e) <==> ev[e].Instantaneous()))
    && (instant.Some? ==> instant.value in after && instant.value < |ev| && ev[instant.value].status == Queued)
  }

  /** What an iteration does with the iterator. */
  datatype Move = Advance | Stay | Stop | Leave

  /** The queue `v`, seen after the iteration, stands for `q`. */
  ghost predicate After(q: Queue, v: Queue, move: Move, c: Section)
    requires c.Pushing?
  {
    match move
    case Advance => q == v.(section := c.(index := c.index + 1))
    case Stay => q == v.(section := c)
    case Stop => q == EndScan(v.(section := c))
    case Leave => q == v.(section := Free)
  }

  /** `v` and `ev'` are the queue and the events after the outcome `r` for event `e` of `q`. */
  ghost predicate Outcome(r: (Queue, bool), q: Queue, ev: seq<Event>, e: EventId, v: Queue, ev': seq<Event>,
                          move: Move, c: Section)
    requires q.section.Pushing? && q.section.index < |q.list| && e < |ev| && c.Pushing?
  {
    var (q', submit) := r;
    var result := ev' == AfterScan(ev, e, submit) && After(q', v, move, c);
    var progress := && (move == Advance || move == Stop ==> v.list == q.list)
                    && (move == Stay ==> |v.list| < |q.list| || (submit && v.list == q.list && ev[e].status == Queued));
    var dispatches := v.dispatched == (if move == Leave || submit then q.dispatched + {e} else q.dispatched);
    var kinds := && (move == Leave ==> ev[e].Instantaneous() && ev[e].status == Queued && !submit)
                 && (submit ==> !ev[e].Instantaneous());
    result && progress && dispatches && kinds
  }

  ghost predicate Iterated(q: Queue, ev: seq<Event>, e: EventId, v: Queue, ev': seq<Event>, move: Move, c: Section)
    requires q.section.Pushing? && q.section.index < |q.list| && e < |ev| && c.Pushing?
  {
    Outcome(ScanIteration(q, ev[e]), q, ev, e, v, ev', move, c)
  }

  lemma DropIterated(q: Queue, ev: seq<Event>, e: EventId)
    requires q.section.Pushing? && q.section.index < |q.list| && e < |ev| && ev[e].Done()
    ensures Iterated(q, ev, e, DropCompleted(q, q.section.index).(section := Free), ev, Stay, q.section)
  {
    IterationCases(q, ev[e]);
    hide ScanIteration;
  }

  lemma StopIterated(q: Queue, ev: seq<Event>, e: EventId, v: Queue)
    requires q.section.Pushing? && q.section.index < |q.list| && e < |ev| && !ev[e].Done()
    requires var c := q.section;
      if c.ready.None? && c.traversed > OOO_QUEUE_PUSH_EVENTS_THRESHOLD then v == q.(section := Free)
      else v == q.(section := Free, flushed := false)
           && ((!q.outOfOrder && !c.first) || (ev[e].kind == Barrier && !c.first))
    ensures Iterated(q, ev, e, v, ev, Stop, q.section)
  {
    IterationCases(q, ev[e]);
    hide ScanIteration;
  }

  lemma VisitIterated(q: Queue, ev: seq<Event>, e: EventId, v: Queue, ev': seq<Event>, move: Move)
    requires q.section.Pushing? && q.section.index < |q.list| && e < |ev| && !ev[e].Done()
    requires var c := q.section;
      && !(c.ready.None? && c.traversed > OOO_QUEUE_PUSH_EVENTS_THRESHOLD)
      && !((!q.outOfOrder && !c.first) || (ev[e].kind == Barrier && !c.first))
    requires var c := Pushing(q.section.index, false, q.section.traversed + 1, q.section.ready);
      Outcome(ScanEvent(q.(section := c), ev[e]), q.(section := c), ev, e, v, ev', move, c)
    ensures Iterated(q, ev, e, v, ev', move, Pushing(q.section.index, false, q.section.traversed + 1, q.section.ready))
  {
    IterationCases(q, ev[e]);
    hide ScanIteration, ScanEvent, After;
  }

  lemma InstantStart(d: set<EventId>, ev: seq<Event>)
    ensures OnlyInstant(d, d, ev, None)
  {
  }

  lemma InstantStep(before: set<EventId>, q: Queue, ev: seq<Event>, e: EventId, v: Queue, ev': seq<Event>,
                    move: Move, c: Section)
    requires q.section.Pushing? && q.section.index < |q.list| && e < |ev| && c.Pushing?
    requires OnlyInstant(before, q.dispatched, ev, None) && Iterated(q, ev, e, v, ev', move, c)
    ensures OnlyInstant(before, v.dispatched, ev', if move == Leave then Some(e) else None)
  {
    hide ScanIteration, After;
  }

  /** After an iteration that goes on, the rest of the loop computes what the whole scan computes. */
  lemma LoopStep(q: Queue, ev: seq<Event>, e: EventId, v: Queue, ev': seq<Event>, move: Move, c: Section)
    requires QueueTyped(q, |ev|) && q.section.Pushing?
    requires q.section.index < |q.list| && q.list[q.section.index] == e < |ev|
    requires c.Pushing? && c.index == q.section.index && Iterated(q, ev, e, v, ev', move, c)
    requires move == Advance || move == Stay
    ensures var w := v.(section := if move == Advance then c.(index := c.index + 1) else c);
      |ev'| == |ev| && QueueTyped(w, |ev'|) && Drain(w, ev') == Drain(q, ev)
    ensures move == Advance ==> v.list == q.list
    ensures move == Stay ==>
      |v.list| < |q.list| || (v.list == q.list && e < |ev'| && ev[e].status == Queued && ev'[e].status != Queued)
  {
    DrainStep(q, ev);
    hide Drain, ScanIteration, QueueTyped;
    var (q', submit) := ScanIteration(q, ev[e]);
    assert q' == v.(section := if move == Advance then c.(index := c.index + 1) else c);
    assert ev' == AfterScan(ev, e, submit);
    hide After;
  }

  /** After an iteration that ends the loop, this is what the scan computes. */
  lemma LoopEnd(q: Queue, ev: seq<Event>, e: EventId, v: Queue, ev': seq<Event>, move: Move, c: Section)
    requires QueueTyped(q, |ev|) && q.section.Pushing?
    requires q.section.index < |q.list| && q.list[q.section.index] == e < |ev|
    requires c.Pushing? && c.index == q.section.index && Iterated(q, ev, e, v, ev', move, c)
    ensures move == Stop ==> v.list == q.list && Drain(q, ev) == (EndScan(v.(section := c)), ev')
    ensures move == Leave ==> Drain(q, ev) == (v.(section := Free), ev')
  {
    DrainStep(q, ev);
    hide Drain, ScanIteration, QueueTyped;
  }

  /** The constructor of event `e` has `next` entries of its wait list behind it. */
  predicate Linkable(ev: seq<Event>, e: EventId) {
    && e < |ev| && ev[e].stage.Building? && !ev[e].stage.linked && ev[e].stage.next <= |ev[e].waitList|
    && e !in ev[e].waitList && forall i :: 0 <= i < |ev[e].waitList| ==> ev[e].waitList[i] < |ev|
  }

  /** One iteration of the loop of the constructor: `addDependentEvent` and, if it succeeds,
      `push_back`. */
  function LinkNext(ev: seq<Event>, e: EventId): (r: seq<Event>)
    requires Linkable(ev, e) && ev[e].stage.next < |ev[e].waitList|
    ensures Linkable(r, e) && |r| == |ev|
    ensures |r[e].waitList| - r[e].stage.next < |ev[e].waitList| - ev[e].stage.next
  {
    var k := ev[e].stage.next;
    var x := ev[e].waitList[k];
    if ev[x].Done() then ev[e := ev[e].(stage := Building(k + 1, false))]
    else
      ev[x := ev[x].(dependents := ev[x].dependents + [e])]
        [e := ev[e].(waits := ev[e].waits + [x], stage := Building(k + 1, false))]
  }

  /** The whole loop, and the release of the mutex. */
  function LinkAll(ev: seq<Event>, e: EventId): (r: seq<Event>)
    requires Linkable(ev, e)
    ensures |r| == |ev|
    decreases |ev[e].waitList| - ev[e].stage.next
  {
    if ev[e].stage.next == |ev[e].waitList| then ev[e := ev[e].(stage := Built)] else LinkAll(LinkNext(ev, e), e)
  }

  lemma LinkStep(ev: seq<Event>, e: EventId)
    requires Linkable(ev, e)
    ensures LinkAll(ev, e) == if ev[e].stage.next == |ev[e].waitList| then ev[e := ev[e].(stage := Built)]
                              else LinkAll(LinkNext(ev, e), e)
  {
  }

  /** An event that `e` names `n` times in its wait list. */
  function Gained(x: Event, e: EventId, n: nat): Event {
    if x.Done() then x else x.(dependents := x.dependents + seq(n, _ => e))
  }

  /** What `ev` becomes when the constructor of `e` treats the entries of `list`. */
  ghost predicate LinkedBy(ev: seq<Event>, ev': seq<Event>, e: EventId, list: seq<EventId>)
    requires e < |ev| && forall i :: 0 <= i < |list| ==> list[i] < |ev|
  {
    && |ev'| == |ev|
    && ev'[e] == ev[e].(waits := ev[e].waits + Unfinished(list, ev), stage := Built)
    && forall x :: 0 <= x < |ev| && x != e ==> ev'[x] == Gained(ev[x], e, multiset(list)[x])
  }

  lemma {:induction false} UnfinishedSame(list: seq<EventId>, ev: seq<Event>, ev': seq<Event>)
    requires |ev'| == |ev| && forall i :: 0 <= i < |list| ==> list[i] < |ev|
    requires forall i :: 0 <= i < |list| ==> ev'[list[i]].Done() == ev[list[i]].Done()
    ensures Unfinished(list, ev') == Unfinished(list, ev)
  {
    if list != [] { UnfinishedSame(list[..|list| - 1], ev, ev'); }
  }

  lemma GainedMore(x: Event, e: EventId, n: nat)
    ensures Gained(Gained(x, e, 1), e, n) == Gained(x, e, n + 1)
  {
    if !x.Done() { assert [e] + seq(n, _ => e) == seq(n + 1, _ => e); }
  }

  lemma GainedNone(x: Event, e: EventId)
    ensures Gained(x, e, 0) == x
  {
    assert x.dependents + [] == x.dependents;
  }

  lemma LinkNextExact(ev: seq<Event>, e: EventId)
    requires Linkable(ev, e) && ev[e].stage.next < |ev[e].waitList|
    ensures var x := ev[e].waitList[ev[e].stage.next];
      var ev1 := LinkNext(ev, e);
      && ev1[e] == ev[e].(waits := ev[e].waits + (if ev[x].Done() then [] else [x]),
                          stage := Building(ev[e].stage.next + 1, false))
      && forall y :: 0 <= y < |ev| && y != e ==> ev1[y] == Gained(ev[y], e, if y == x then 1 else 0)
  {
    var x := ev[e].waitList[ev[e].stage.next];
    assert x in ev[e].waitList && ev[e].waits + [] == ev[e].waits;
    assert seq(1, _ => e) == [e];
    forall y | 0 <= y < |ev| && y != e ensures LinkNext(ev, e)[y] == Gained(ev[y], e, if y == x then 1 else 0) {
      GainedNone(ev[y], e);
    }
  }

  lemma GainedAfter(a: Event, b: Event, c: Event, e: EventId, x: EventId, y: EventId, rest: seq<EventId>)
    requires b == Gained(a, e, if y == x then 1 else 0) && c == Gained(b, e, multiset(rest)[y])
    ensures c == Gained(a, e, multiset([x] + rest)[y])
  {
    var n := multiset(rest)[y];
    assert multiset([x] + rest)[y] == n + if y == x then 1 else 0;
    if y == x { GainedMore(a, e, n); } else { GainedNone(a, e); }
  }

  /** One iteration, then the rest. */
  lemma LinkedCons(ev: seq<Event>, ev1: seq<Event>, ev': seq<Event>, e: EventId, list: seq<EventId>)
    requires Linkable(ev, e) && ev[e].stage.next < |ev[e].waitList| && ev1 == LinkNext(ev, e)
    requires list == ev[e].waitList[ev[e].stage.next..] && LinkedBy(ev1, ev', e, list[1..])
    ensures LinkedBy(ev, ev', e, list)
  {
    var x, rest := list[0], list[1..];
    assert list == [x] + rest;
    LinkNextExact(ev, e);
    hide LinkNext;
    UnfinishedCons(x, rest, ev);
    RestSame(ev, ev1, e, x, rest);
    hide Unfinished, Linkable;
    var unit := if ev[x].Done() then [] else [x];
    Regroup(ev[e].waits, unit, Unfinished(rest, ev));
    forall y | 0 <= y < |ev| && y != e ensures ev'[y] == Gained(ev[y], e, multiset(list)[y]) {
      GainedAfter(ev[y], ev1[y], ev'[y], e, x, y, rest);
    }
    hide Gained;
  }

  lemma RestSame(ev: seq<Event>, ev1: seq<Event>, e: EventId, x: EventId, rest: seq<EventId>)
    requires e < |ev| == |ev1| && forall i :: 0 <= i < |rest| ==> rest[i] < |ev|
    requires ev1[e].status == ev[e].status
    requires forall y :: 0 <= y < |ev| && y != e ==> ev1[y] == Gained(ev[y], e, if y == x then 1 else 0)
    ensures Unfinished(rest, ev1) == Unfinished(rest, ev)
  {
    UnfinishedSame(rest, ev, ev1);
  }

  /** The wait set of the new event becomes the unfinished entries of its wait list in order, and each
      unfinished event gains it as a dependent once per entry; nothing else changes. */
  lemma {:induction false} LinkExact(ev: seq<Event>, e: EventId)
    requires Linkable(ev, e)
    ensures LinkedBy(ev, LinkAll(ev, e), e, ev[e].waitList[ev[e].stage.next..])
    decreases |ev[e].waitList| - ev[e].stage.next
  {
    var k := ev[e].stage.next;
    var list := ev[e].waitList[k..];
    if list == [] {
      assert ev[e].waits + [] == ev[e].waits;
      forall x | 0 <= x < |ev| && x != e ensures LinkAll(ev, e)[x] == Gained(ev[x], e, multiset(list)[x]) {
        GainedNone(ev[x], e);
      }
    } else {
      var ev1 := LinkNext(ev, e);
      assert ev1[e].waitList == ev[e].waitList && ev1[e].stage.next == k + 1;
      assert list[1..] == ev[e].waitList[k + 1..];
      LinkExact(ev1, e);
      hide LinkNext, LinkedBy;
      LinkedCons(ev, ev1, LinkAll(ev1, e), e, list);
    }
  }

  lemma WithoutSnoc(list: seq<EventId>, y: EventId, x: EventId)
    ensures Without(list + [y], x) == Without(list, x) + if y == x then [] else [y]
  {
    if list == [] {
      assert [y][1..] == [];
    } else {
      assert (list + [y])[1..] == list[1..] + [y];
      WithoutSnoc(list[1..], y, x);
    }
  }

  /** What is kept of a wait set keeps its order. */
  lemma WithoutInOrder(list: seq<EventId>, x: EventId)
    ensures Selected(list, (set i: nat | i < |list| && list[i] != x), Without(list, x))
  {
    var keep := set i: nat | i < |list| && list[i] != x;
    WithoutSelects(list, x, keep);
    SelectExact(list, keep);
  }

  lemma {:induction false} WithoutSelects(list: seq<EventId>, x: EventId, keep: set<nat>)
    requires forall i: nat :: i < |list| ==> (i in keep <==> list[i] != x)
    ensures Without(list, x) == Select(list, keep)
  {
    if list != [] {
      var init, last := list[..|list| - 1], list[|list| - 1];
      WithoutSelects(init, x, keep);
      assert list == init + [last];
      WithoutSnoc(init, last, x);
    }
  }

  class EventTable {
    var events: seq<Event>

    constructor ()
      ensures events == []
    {
      events := [];
    }

    method AddDependentEvent(x: EventId, e: EventId) returns (added: bool)
      requires x < |events|
      modifies this
      ensures added <==> !old(events)[x].Done()
      ensures events == if added then old(events)[x := old(events)[x].(dependents := old(events)[x].dependents + [e])]
                        else old(events)
    {
      if events[x].Done() { return false; }
      events := events[x := events[x].(dependents := events[x].dependents + [e])];
      return true;
    }

    /** The loop of the constructor over the wait list, under the mutex of the new event. */
    method LinkWaits(e: EventId)
      requires Linkable(events, e)
      modifies this
      ensures events == LinkAll(old(events), e)
    {
      hide LinkAll;
      var waitList := events[e].waitList;
      ghost var result := LinkAll(events, e);
      for i := events[e].stage.next to |waitList|
        invariant Linkable(events, e) && events[e].stage.next == i && events[e].waitList == waitList
        invariant LinkAll(events, e) == result
      {
        LinkStep(events, e);
        ghost var ev := events;
        assert waitList[i] in waitList;
        var added := AddDependentEvent(waitList[i], e);
        if added {
          events := events[e := events[e].(waits := events[e].waits + [waitList[i]])];
        }
        events := events[e := events[e].(stage := Building(i + 1, false))];
        assert events == LinkNext(ev, e);
      }
      LinkStep(events, e);
      events := events[e := events[e].(stage := Built)];
    }

    /** Removes every occurrence of `x`, and says whether the wait set of `d` is now empty. */
    method RemoveWaitEvent(d: EventId, x: EventId) returns (empty: bool)
      requires d < |events|
      modifies this
      ensures events == old(events)[d := old(events)[d].(waits := Without(old(events)[d].waits, x))]
      ensures empty <==> forall y :: y in old(events)[d].waits ==> y == x
      ensures empty <==> events[d].waits == []
    {
      var waits, kept := events[d].waits, [];
      for i := 0 to |waits|
        invariant events == old(events) && kept == Without(waits[..i], x)
      {
        assert waits[..i + 1] == waits[..i] + [waits[i]];
        WithoutSnoc(waits[..i], waits[i], x);
        if waits[i] != x { kept := kept + [waits[i]]; }
      }
      assert waits[..|waits|] == waits;
      WithoutFacts(waits, x);
      events := events[d := events[d].(waits := kept)];
      HeadIsMember(kept);
      empty := kept == [];
    }
  }

  class CommandQueue {
    const table: EventTable
    const outOfOrder: bool
    var list: seq<EventId>
    var inQueue: int
    var onDevice: int
    var completed: int
    var flushed: bool
    var sleepers: nat
    var woken: nat
    ghost var pushes: multiset<Push>
    ghost var dispatched: set<EventId>
    ghost var accounted: set<EventId>

    constructor (table: EventTable, outOfOrder: bool)
      ensures this.table == table && this.outOfOrder == outOfOrder
      ensures View(Free) == Queue(outOfOrder, [], 0, 0, 0, true, Free, multiset{}, 0, 0, {}, {})
    {
      this.table, this.outOfOrder := table, outOfOrder;
      list, inQueue, onDevice, completed, flushed, sleepers, woken := [], 0, 0, 0, true, 0, 0;
      pushes, dispatched, accounted := multiset{}, {}, {};
    }

    /** The queue as the transition system sees it. */
    ghost function View(section: Section): Queue
      reads this
    {
      Queue(outOfOrder, list, inQueue, onDevice, completed, flushed, section, pushes, sleepers, woken,
            dispatched, accounted)
    }

    ghost predicate Typed(section: Section)
      reads this, table
      ensures Typed(section) ==> forall i :: 0 <= i < |list| ==> list[i] < |table.events|
    {
      QueueTyped(View(section), |table.events|)
    }

    /** `pthread_cond_broadcast`: all threads that sleep in `finish` wake up. */
    method BroadcastAll()
      modifies this
      ensures View(Free) == Broadcast(old(View(Free)))
      ensures sleepers == 0 && woken == old(woken) + old(sleepers)
    {
      sleepers, woken := 0, woken + sleepers;
    }

    method QueueEvent(e: EventId)
      modifies this
      ensures View(Free) == Longer(old(View(Free)), e)
      ensures list == old(list) + [e] && inQueue == old(inQueue) + 1 && !flushed
      ensures onDevice == old(onDevice) && completed == old(completed)
      ensures sleepers == old(sleepers) && woken == old(woken)
    {
      list := list + [e];
      inQueue := inQueue + 1;
      flushed := false;
      pushes := pushes + multiset{Push(None, None)};
    }

    /** An instantaneous event leaves the list before its status changes, lest another thread
        complete it again. */
    method TakeInstantaneous(index: nat)
      requires index < |list|
      modifies this
      ensures View(Free) == DispatchInstantaneous(old(View(Free)), index)
      ensures list == old(list[..index] + list[index + 1..]) && inQueue == old(inQueue) - 1
      ensures onDevice == old(onDevice) + 1 && completed == old(completed)
      ensures flushed <==> inQueue == 0
      ensures sleepers == (if inQueue == 0 then 0 else old(sleepers))
      ensures woken == (if inQueue == 0 then old(woken + sleepers) else old(woken))
    {
      dispatched := dispatched + {list[index]};
      inQueue := inQueue - 1;
      list := RemoveAt(list, index);
      flushed := inQueue == 0;
      onDevice := onDevice + 1;
      if flushed { BroadcastAll(); }
    }

    /** The end of an iteration: skip, submit, or take off the list the event under the iterator. */
    method VisitEvent(e: EventId, index: nat, traversed: nat, ready: Option<EventId>) returns (move: Move)
      requires index < |list| && list[index] == e < |table.events|
      modifies this, table
      ensures var c := Pushing(index, false, traversed, ready);
        Outcome(ScanEvent(old(View(c)), old(table.events)[e]), old(View(c)), old(table.events), e,
                View(Free), table.events, move, c)
    {
      var event := table.events[e];
      if event.status != Queued {
        return if ready == Some(e) then Stop else Advance;
      }
      if event.waits != [] {
        flushed := false;
        return if event.kind == WaitForEvents then Stop else Advance;
      }
      if event.Instantaneous() {
        TakeInstantaneous(index);
        return Leave;
      }
      table.events := table.events[e := event.(status := Submitted)];
      onDevice := onDevice + 1;
      dispatched := dispatched + {e};
      return Stay;
    }

    /** A completed event under the iterator leaves the list. */
    method EraseCompleted(index: nat)
      requires index < |list|
      modifies this
      ensures View(Free) == DropCompleted(old(View(Free)), index)
      ensures list == old(list[..index] + list[index + 1..])
      ensures inQueue == old(inQueue) - 1 && completed == old(completed) - 1 && onDevice == old(onDevice)
    {
      completed := completed - 1;
      inQueue := inQueue - 1;
      list := RemoveAt(list, index);
    }

    /** One iteration of the loop of `pushEventsOnDevice`. */
    method Iterate(e: EventId, index: nat, first: bool, traversed: nat, ready: Option<EventId>)
      returns (move: Move, first': bool, traversed': nat)
      requires index < |list| && list[index] == e < |table.events|
      modifies this, table
      ensures Iterated(old(View(Pushing(index, first, traversed, ready))), old(table.events), e,
                       View(Free), table.events, move, Pushing(index, first', traversed', ready))
    {
      hide Iterated, Outcome;
      var event := table.events[e];
      ghost var q, ev := View(Pushing(index, first, traversed, ready)), table.events;
      first', traversed' := first, traversed;
      if event.Done() {
        EraseCompleted(index);
        move := Stay;
        DropIterated(q, ev, e);
      } else if ready.None? && traversed > OOO_QUEUE_PUSH_EVENTS_THRESHOLD {
        move := Stop;
        StopIterated(q, ev, e, View(Free));
      } else if (!outOfOrder && !first) || (event.kind == Barrier && !first) {
        flushed := false;
        move := Stop;
        StopIterated(q, ev, e, View(Free));
      } else {
        first', traversed' := false, traversed + 1;
        move := VisitEvent(e, index, traversed', ready);
        VisitIterated(q, ev, e, View(Free), table.events, move);
      }
    }

    /** The loop of `pushEventsOnDevice` up to the release of the mutex; `instant` is the
        instantaneous event whose completion the caller processes next. */
    method ScanList(ready: Option<EventId>) returns (instant: Option<EventId>)
      requires Typed(Pushing(0, true, 0, ready))
      modifies this, table
      ensures (View(Free), table.events) == Drain(old(View(Pushing(0, true, 0, ready))), old(table.events))
      ensures OnlyInstant(old(dispatched), dispatched, table.events, instant)
    {
      hide Drain, Iterated, OnlyInstant, EndScan;
      InstantStart(dispatched, table.events);
      var index: nat, first, traversed: nat := 0, true, 0;
      ghost var result := Drain(View(Pushing(0, true, 0, ready)), table.events);
      while index < |list|
        invariant index <= |list|
        invariant Typed(Pushing(index, first, traversed, ready))
        invariant Drain(View(Pushing(index, first, traversed, ready)), table.events) == result
        invariant OnlyInstant(old(dispatched), dispatched, table.events, None)
        decreases |list| - index, if index < |list| && table.events[list[index]].status == Queued then 1 else 0
      {
        var e := list[index];
        ghost var q, ev := View(Pushing(index, first, traversed, ready)), table.events;
        var move;
        move, first, traversed := Iterate(e, index, first, traversed, ready);
        InstantStep(old(dispatched), q, ev, e, View(Free), table.events, move, Pushing(index, first, traversed, ready));
        LoopEnd(q, ev, e, View(Free), table.events, move, Pushing(index, first, traversed, ready));
        if move == Leave { return Some(e); }
        if move == Stop { break; }
        LoopStep(q, ev, e, View(Free), table.events, move, Pushing(index, first, traversed, ready));
        if move == Advance { index := index + 1; }
      }
      if index == |list| { DrainEnd(View(Pushing(index, first, traversed, ready)), table.events); }
      EndSection(ready);
      instant := None;
    }

    /** The end of `pushEventsOnDevice`. */
    method EndSection(ready: Option<EventId>)
      modifies this
      ensures dispatched == old(dispatched)
      ensures flushed <==> old(flushed) && (ready.Some? ==> inQueue == 0)
      ensures sleepers == (if flushed then 0 else old(sleepers))
      ensures woken == (if flushed then old(woken + sleepers) else old(woken))
      ensures forall index: nat, first, traversed: nat ::
        View(Free) == EndScan(old(View(Pushing(index, first, traversed, ready))))
    {
      if ready.Some? && flushed {
        flushed := inQueue == 0;
      }
      if flushed { BroadcastAll(); }
    }

    method CountCompletion(ghost ready: Option<EventId>, done: Option<EventId>)
      modifies this
      ensures View(Free) == TakePush(old(View(Free)), Push(ready, done))
      ensures onDevice == old(onDevice) - (if done.Some? then 1 else 0)
      ensures completed == old(completed) + (if done.Some? then 1 else 0)
    {
      ghost var q := View(Free);
      pushes := pushes - multiset{Push(ready, done)};
      if done.Some? {
        onDevice := onDevice - 1;
        completed := completed + 1;
        accounted := accounted + {done.value};
        assert View(Free) == TakePush(q, Push(ready, done));
      } else {
        assert View(Free) == TakePush(q, Push(ready, done));
      }
    }

    method PushEventsOnDevice(ready: Option<EventId>, done: Option<EventId>, enough: bool)
      returns (instant: Option<EventId>)
      requires Typed(Free)
      modifies this, table
      ensures (View(Free), table.events) ==
              Drain(EnterPush(old(View(Free)), Push(ready, done), enough), old(table.events))
      ensures OnlyInstant(old(dispatched), dispatched, table.events, instant)
    {
      hide Drain;
      CountCompletion(ready, done);
      if outOfOrder && ready.None? && onDevice > 2 && enough {
        DrainEnd(View(Free), table.events);
        return None;
      }
      flushed := true;
      instant := ScanList(ready);
    }

    method CleanEvents()
      requires Typed(Free)
      modifies this
      ensures View(Free) ==
        if old(completed) < 16 && old(onDevice) > 0 && old(inQueue - completed) > 0 then old(View(Free))
        else CleanAll(old(View(Cleaning(0))), table.events)
    {
      if completed < CLEAN_THRESHOLD && onDevice > 0 && inQueue - completed > 0 {
        return;
      }
      CleanList();
    }

    /** The loop of `cleanEvents`. */
    method CleanList()
      requires Typed(Cleaning(0))
      modifies this
      ensures View(Free) == CleanAll(old(View(Cleaning(0))), table.events)
    {
      hide CleanAll, QueueTyped;
      ghost var result := CleanAll(View(Cleaning(0)), table.events);
      var index: nat := 0;
      while index < |list|
        invariant index <= |list| && Typed(Cleaning(index))
        invariant CleanAll(View(Cleaning(index)), table.events) == result
      {
        CleanStep(View(Cleaning(index)), table.events);
        ghost var q := View(Cleaning(index));
        if table.events[list[index]].Done() {
          EraseCompleted(index);
          assert View(Cleaning(index)) == DropCompleted(q, index);
        } else if !outOfOrder {
          break;
        } else {
          index := index + 1;
        }
      }
      CleanStep(View(Cleaning(index)), table.events);
      if inQueue == 0 { BroadcastAll(); }
    }

    /** `events()`: the snapshot fits the allocation of `p_num_events_in_queue` entries. */
    method Events(includeCompleted: bool) returns (result: array<EventId>, count: nat)
      requires Typed(Free) && inQueue == |list|
      ensures fresh(result) && result.Length == inQueue && count <= result.Length
      ensures result[..count] == if includeCompleted then list else Unfinished(list, table.events)
    {
      result := new EventId[inQueue];
      count := 0;
      for i := 0 to |list|
        invariant count <= i
        invariant result[..count] == if includeCompleted then list[..i] else Unfinished(list[..i], table.events)
      {
        assert list[..i + 1][..i] == list[..i];
        if includeCompleted || !table.events[list[i]].Done() {
          result[count] := list[i];
          count := count + 1;
        }
      }
      assert list[..|list|] == list;
    }
  }

  /** The snapshot without completed events names exactly the unfinished listed events. */
  lemma {:induction false} UnfinishedExact(list: seq<EventId>, ev: seq<Event>, x: EventId)
    requires forall i :: 0 <= i < |list| ==> list[i] < |ev|
    ensures x in Unfinished(list, ev) <==> x in list && x < |ev| && !ev[x].Done()
  {
    if list != [] {
      var prefix, last := list[..|list| - 1], list[|list| - 1];
      UnfinishedExact(prefix, ev, x);
      assert list == prefix + [last];
    }
  }

  lemma {:induction false} UnfinishedCons(x: EventId, list: seq<EventId>, ev: seq<Event>)
    requires x < |ev| && forall i :: 0 <= i < |list| ==> list[i] < |ev|
    ensures Unfinished([x] + list, ev) == (if ev[x].Done() then [] else [x]) + Unfinished(list, ev)
  {
    var all := [x] + list;
    if list == [] {
      assert all == [x] && all[..0] == [];
    } else {
      var prefix := list[..|list| - 1];
      assert all[..|all| - 1] == [x] + prefix && all[|all| - 1] == list[|list| - 1];
      UnfinishedCons(x, prefix, ev);
    }
  }

  /** The list without its leading completed events. */
  function DropDone(list: seq<EventId>, ev: seq<Event>): seq<EventId>
    requires forall i :: 0 <= i < |list| ==> list[i] < |ev|
  {
    if list != [] && ev[list[0]].Done() then DropDone(list[1..], ev) else list
  }

  /** What is dropped is the longest prefix of completed events. */
  lemma {:induction false} DropDoneExact(list: seq<EventId>, ev: seq<Event>) returns (k: nat)
    requires forall i :: 0 <= i < |list| ==> list[i] < |ev|
    ensures k <= |list| && DropDone(list, ev) == list[k..]
    ensures (forall i :: 0 <= i < k ==> ev[list[i]].Done()) && (k < |list| ==> !ev[list[k]].Done())
  {
    k := 0;
    if list != [] && ev[list[0]].Done() {
      var n := DropDoneExact(list[1..], ev);
      k := n + 1;
      assert list[1..][n..] == list[k..];
      assert forall i :: 1 <= i < k ==> list[i] == list[1..][i - 1];
    }
  }

  /** The unfinished entries stand in the order of the list. */
  lemma {:induction false} UnfinishedInOrder(list: seq<EventId>, ev: seq<Event>)
    requires forall i :: 0 <= i < |list| ==> list[i] < |ev|
    ensures Selected(list, (set i: nat | i < |list| && !ev[list[i]].Done()), Unfinished(list, ev))
  {
    var keep := set i: nat | i < |list| && !ev[list[i]].Done();
    UnfinishedSelects(list, ev, keep);
    SelectExact(list, keep);
  }

  lemma {:induction false} UnfinishedSelects(list: seq<EventId>, ev: seq<Event>, keep: set<nat>)
    requires forall i :: 0 <= i < |list| ==> list[i] < |ev|
    requires forall i: nat :: i < |list| ==> (i in keep <==> !ev[list[i]].Done())
    ensures Unfinished(list, ev) == Select(list, keep)
  {
    if list != [] { UnfinishedSelects(list[..|list| - 1], ev, keep); }
  }

  /** What `cleanEvents` leaves in a list. */
  function Cleaned(list: seq<EventId>, outOfOrder: bool, ev: seq<Event>): seq<EventId>
    requires forall i :: 0 <= i < |list| ==> list[i] < |ev|
  {
    if outOfOrder then Unfinished(list, ev) else DropDone(list, ev)
  }

  lemma CleanedStep(list: seq<EventId>, outOfOrder: bool, ev: seq<Event>)
    requires forall i :: 0 <= i < |list| ==> list[i] < |ev|
    ensures list == [] ==> Cleaned(list, outOfOrder, ev) == []
    ensures list != [] && ev[list[0]].Done() ==> Cleaned(list, outOfOrder, ev) == Cleaned(list[1..], outOfOrder, ev)
    ensures list != [] && !ev[list[0]].Done() ==>
      Cleaned(list, outOfOrder, ev) == if outOfOrder then [list[0]] + Cleaned(list[1..], outOfOrder, ev) else list
  {
    if list != [] {
      assert list == [list[0]] + list[1..];
      UnfinishedCons(list[0], list[1..], ev);
    }
  }

  /** `r` is `q` after cleaning from the index on: the completed events left the list, in an in-order
      queue the leading ones, both counters went down by their number, and who slept on a queue that is
      now empty is woken. */
  ghost predicate CleanedTo(q: Queue, ev: seq<Event>, r: Queue)
    requires QueueTyped(q, |ev|) && q.section.Cleaning?
  {
    var i := q.section.index;
    var list := r.list == q.list[..i] + Cleaned(q.list[i..], q.outOfOrder, ev);
    var counts := q.inQueue - r.inQueue == q.completed - r.completed == |q.list| - |r.list|;
    var others := r == q.(section := Free, list := r.list, inQueue := r.inQueue, completed := r.completed,
                          sleepers := if r.inQueue == 0 then 0 else q.sleepers,
                          woken := if r.inQueue == 0 then q.woken + q.sleepers else q.woken);
    list && counts && others
  }

  lemma CleanedDrop(q: Queue, ev: seq<Event>, r: Queue)
    requires QueueTyped(q, |ev|) && q.section.Cleaning?
    requires q.section.index < |q.list| && ev[q.list[q.section.index]].Done()
    requires var q' := DropCompleted(q, q.section.index); QueueTyped(q', |ev|) && CleanedTo(q', ev, r)
    ensures CleanedTo(q, ev, r)
  {
    var i := q.section.index;
    var list' := RemoveAt(q.list, i);
    assert list'[i..] == q.list[i..][1..] && list'[..i] == q.list[..i];
    CleanedStep(q.list[i..], q.outOfOrder, ev);
    hide Cleaned, QueueTyped;
  }

  lemma CleanedPass(q: Queue, ev: seq<Event>, r: Queue)
    requires QueueTyped(q, |ev|) && q.section.Cleaning? && q.section.index < |q.list|
    requires q.outOfOrder && !ev[q.list[q.section.index]].Done()
    requires CleanedTo(q.(section := Cleaning(q.section.index + 1)), ev, r)
    ensures CleanedTo(q, ev, r)
  {
    var i := q.section.index;
    assert q.list[..i + 1] == q.list[..i] + [q.list[i]] && q.list[i + 1..] == q.list[i..][1..];
    CleanedStep(q.list[i..], q.outOfOrder, ev);
    hide Cleaned, QueueTyped;
  }

  lemma {:induction false} CleanExact(q: Queue, ev: seq<Event>)
    requires QueueTyped(q, |ev|) && q.section.Cleaning?
    ensures CleanedTo(q, ev, CleanAll(q, ev))
    decreases |q.list| - q.section.index
  {
    var i := q.section.index;
    CleanStep(q, ev);
    if i < |q.list| && ev[q.list[i]].Done() {
      hide CleanAll, CleanedTo;
      CleanExact(DropCompleted(q, i), ev);
      CleanedDrop(q, ev, CleanAll(q, ev));
    } else if i < |q.list| && q.outOfOrder {
      hide CleanAll, CleanedTo;
      CleanExact(q.(section := Cleaning(i + 1)), ev);
      CleanedPass(q, ev, CleanAll(q, ev));
    } else {
      CleanedStep(q.list[i..], q.outOfOrder, ev);
      hide CleanAll, Cleaned;
      assert q.list == q.list[..i] + q.list[i..];
    }
  }

  lemma ListedKnown(s: State, q: QueueId, e: EventId)
    requires Inv(s) && q < |s.queues| && e in s.queues[q].list
    ensures e < |s.events| && s.events[e].stage.Enqueued?
  {
    assert QueueOk(q, s.queues[q], s.events);
    var i :| 0 <= i < |s.queues[q].list| && s.queues[q].list[i] == e;
    assert Mine(q, s.events, s.queues[q].list[i]);
  }

  /** The marker of `clEnqueueMarker`: the snapshot is what `events(count, false)` returned at `r`, the
      marker is built in a later state `s`, and dispatched before `t`. */
  lemma MarkerWaits(r: State, q: QueueId, s: State, snapshot: seq<EventId>, s': State, t: State)
    requires Reachable(r) && q < |r.queues|
    requires forall e :: e in snapshot <==> e in r.queues[q].list && e < |r.events| && !r.events[e].Done()
    requires Reaches(r, s) && s' == s.(events := s.events + [NewEvent(Marker, Some(q), snapshot)])
    requires Reaches(s', t) && InDispatched(t, |s.events|)
    ensures forall e :: e in r.queues[q].list ==> e < |t.events| && t.events[e].Done()
  {
    ReachableInv(r);
    ReachesExtends(r, s);
    RunReachable(r, s);
    hide Reachable, Reaches, InDispatched, Inv;
    var list := r.queues[q].list;
    forall e | e in list ensures Nameable(s.events, e) && (e in snapshot || s.events[e].Done()) {
      ListedKnown(r, q, e);
      assert Persists(r.events[e], s.events[e]);
    }
    hide Extends;
    MarkerSafety(list, s, q, snapshot, s', t);
  }

  // ----- An undisturbed section is a run

  /** The state after `PushEventsOnDevice` ran to the release of the mutex. */
  function Drained(s: State, q: QueueId): State
    requires q < |s.queues| && QueueTyped(s.queues[q], |s.events|)
  {
    var (q', ev) := Drain(s.queues[q], s.events);
    State(ev, s.queues[q := q'], s.clock)
  }

  /** A scan that runs undisturbed is a run of the transition system, so all its theorems hold. */
  lemma {:induction false} DrainReaches(s: State, q: QueueId)
    requires Inv(s) && q < |s.queues| && QueueTyped(s.queues[q], |s.events|)
    ensures Reaches(s, Drained(s, q)) && Inv(Drained(s, q))
    ensures s.queues[q].section.Pushing? ==> Less(WorkOf(Drained(s, q)), WorkOf(s))
    decreases var qu := s.queues[q];
              if qu.section.Pushing? then |qu.list| - qu.section.index else 0,
              var qu := s.queues[q];
              if qu.section.Pushing? && qu.section.index < |qu.list|
                 && s.events[qu.list[qu.section.index]].status == Queued
              then 1 else 0
  {
    hide Drained, Drain, ApplyScan, ScanIteration, Inv, Next, WorkOf, Reaches, Typed, Enabled;
    if !s.queues[q].section.Pushing? {
      DrainedSelf(s, q);
      ReachesSelf(s);
    } else {
      var t := ScanNext(s, q);
      ScanStep(s, q);
      DrainedStep(s, t, q);
      if t.queues[q].section.Pushing? {
        DrainReaches(t, q);
      } else {
        ReachesSelf(t);
      }
      ReachesStep(s, t, Drained(s, q));
    }
  }

  /** An undisturbed cleaning, too. */
  lemma {:induction false} CleanReaches(s: State, q: QueueId)
    requires Inv(s) && q < |s.queues| && QueueTyped(s.queues[q], |s.events|)
    ensures Reaches(s, s.(queues := s.queues[q := CleanAll(s.queues[q], s.events)]))
    decreases if s.queues[q].section.Cleaning? then |s.queues[q].list| - s.queues[q].section.index + 1 else 0
  {
    hide CleanAll, CleanIteration, Inv, Next, Reaches, QueueTyped;
    var qu := s.queues[q];
    if qu.section.Cleaning? {
      CleanProgress(qu, s.events);
      var t := CleanNext(s, q);
      assert t.queues[q := CleanAll(t.queues[q], t.events)] == s.queues[q := CleanAll(qu, s.events)];
      CleanReaches(t, q);
      ReachesStep(s, t, s.(queues := s.queues[q := CleanAll(qu, s.events)]));
    } else {
      CleanSelf(qu, s.events);
      assert s.queues[q := qu] == s.queues;
      ReachesSelf(s);
    }
  }

  /** A call of `cleanEvents`: nothing happens with fewer than 16 completed events while the device is busy
      and other events are listed; otherwise the list is cleaned. */
  lemma CleanCallReaches(s: State, q: QueueId)
    requires Inv(s) && IsFree(s, q) && QueueTyped(s.queues[q], |s.events|)
    ensures var qu := s.queues[q];
      var skip := qu.completed < 16 && qu.onDevice > 0 && qu.inQueue - qu.completed > 0;
      && Enabled(s, BeginClean(q))
      && Apply(s, BeginClean(q)) == (if skip then s else s.(queues := s.queues[q := qu.(section := Cleaning(0))]))
      && (!skip ==> Reaches(s, s.(queues := s.queues[q := CleanAll(qu.(section := Cleaning(0)), s.events)])))
  {
    var qu := s.queues[q];
    if !(qu.completed < 16 && qu.onDevice > 0 && qu.inQueue - qu.completed > 0) {
      var t := StepTo(s, BeginClean(q));
      hide Inv, CleanAll, Reaches;
      CleanReaches(t, q);
      var u := s.(queues := s.queues[q := CleanAll(qu.(section := Cleaning(0)), s.events)]);
      assert t.queues[q := CleanAll(t.queues[q], t.events)] == u.queues;
      ReachesTrans(s, t, u);
    }
  }

  lemma CleanSelf(qu: Queue, ev: seq<Event>)
    requires QueueTyped(qu, |ev|) && !qu.section.Cleaning?
    ensures CleanAll(qu, ev) == qu
  {
  }

  lemma CleanProgress(qu: Queue, ev: seq<Event>)
    requires QueueTyped(qu, |ev|) && qu.section.Cleaning?
    ensures var qu' := CleanIteration(qu, ev);
      && QueueTyped(qu', |ev|) && CleanAll(qu', ev) == CleanAll(qu, ev) && qu.section.index <= |qu.list|
      && (qu'.section.Cleaning? ==>
            qu'.section.index <= |qu'.list| && |qu'.list| - qu'.section.index < |qu.list| - qu.section.index)
  {
    CleanStep(qu, ev);
    hide CleanAll;
    var qu' := CleanIteration(qu, ev);
    if !qu'.section.Cleaning? { CleanSelf(qu', ev); }
  }

  lemma CleanNext(s: State, q: QueueId) returns (t: State)
    requires Inv(s) && q < |s.queues| && s.queues[q].section.Cleaning? && QueueTyped(s.queues[q], |s.events|)
    ensures t == s.(queues := s.queues[q := CleanIteration(s.queues[q], s.events)]) && Next(s, t) && Inv(t)
  {
    hide CleanIteration, EventsOk, WaitsOk, QueuesOk;
    t := s.(queues := s.queues[q := CleanIteration(s.queues[q], s.events)]);
    assert Enabled(s, Clean(q)) && t == Apply(s, Clean(q));
    assert Next(s, t);
    hide Next, Inv;
    NextKeepsInv(s, t);
  }

  lemma DrainedSelf(s: State, q: QueueId)
    requires q < |s.queues| && QueueTyped(s.queues[q], |s.events|) && !s.queues[q].section.Pushing?
    ensures Drained(s, q) == s
  {
    assert s.queues[q := s.queues[q]] == s.queues;
  }

  /** A scan step is a step of the system. */
  lemma ScanNext(s: State, q: QueueId) returns (t: State)
    requires Inv(s) && q < |s.queues| && s.queues[q].section.Pushing?
    ensures Typed(s) && Enabled(s, Scan(q)) && t == ApplyScan(s, q)
    ensures Next(s, t) && Inv(t) && Less(WorkOf(t), WorkOf(s))
  {
    hide WorkOf;
    t := ApplyScan(s, q);
    ScanWork(s, q);
    assert Enabled(s, Scan(q)) && t == Apply(s, Scan(q));
    hide ApplyScan, EventsOk, WaitsOk, QueuesOk;
    assert Next(s, t);
    hide Next, Inv;
    NextKeepsInv(s, t);
  }

  /** It does not change what the scan computes, and comes closer to the end. */
  lemma DrainedStep(s: State, t: State, q: QueueId)
    requires q < |s.queues| && QueueTyped(s.queues[q], |s.events|) && s.queues[q].section.Pushing?
    requires var qu := s.queues[q];
      if qu.section.index == |qu.list| then t == State(s.events, s.queues[q := EndScan(qu)], s.clock)
      else
        var e := qu.list[qu.section.index];
        var r := ScanIteration(qu, s.events[e]);
        t == State(AfterScan(s.events, e, r.1), s.queues[q := r.0], s.clock)
    ensures |t.queues| == |s.queues| && QueueTyped(t.queues[q], |t.events|)
    ensures Drained(t, q) == Drained(s, q)
    ensures !t.queues[q].section.Pushing? ==> Drained(s, q) == t
    ensures t.queues[q].section.Pushing? ==>
      var qu, qu' := s.queues[q], t.queues[q];
      var left, left' := |qu.list| - qu.section.index, |qu'.list| - qu'.section.index;
      && left > 0
      && (left' < left || (left' == left && s.events[qu.list[qu.section.index]].status == Queued
                           && t.events[qu'.list[qu'.section.index]].status != Queued))
  {
    var qu := s.queues[q];
    if qu.section.index == |qu.list| {
      DrainEnd(qu, s.events);
      DrainEnd(EndScan(qu), s.events);
    } else {
      IterationProgress(qu, s.events);
      DrainStep(qu, s.events);
      hide Drain, ScanIteration;
    }
    assert t.queues[q := Drain(t.queues[q], t.events).0] == s.queues[q := Drain(s.queues[q], s.events).0];
    if !t.queues[q].section.Pushing? { assert t.queues[q := t.queues[q]] == t.queues; }
  }

  /** The loop of a constructor that runs undisturbed is a run. */
  lemma {:induction false} LinkReaches(s: State, e: EventId)
    requires Inv(s) && Linkable(s.events, e)
    ensures var t := s.(events := LinkAll(s.events, e)); Reaches(s, t) && Inv(t)
    decreases |s.events[e].waitList| - s.events[e].stage.next
  {
    hide Inv, Next, Reaches, LinkAll;
    LinkStep(s.events, e);
    if s.events[e].stage.next == |s.events[e].waitList| {
      var t := StepTo(s, EndEvent(e));
    } else {
      var t := LinkNextReaches(s, e);
      LinkReaches(t, e);
      ReachesTrans(s, t, s.(events := LinkAll(s.events, e)));
    }
  }

  lemma LinkNextReaches(s: State, e: EventId) returns (t: State)
    requires Inv(s) && Linkable(s.events, e) && s.events[e].stage.next < |s.events[e].waitList|
    ensures t == s.(events := LinkNext(s.events, e)) && Reaches(s, t) && Inv(t)
  {
    hide Inv, Reaches, Typed;
    var x := s.events[e].waitList[s.events[e].stage.next];
    assert x in s.events[e].waitList;
    t := StepTo(s, LinkWait(e));
    if !s.events[x].Done() {
      var s1 := t;
      t := StepTo(s1, RecordWait(e));
      ReachesTrans(s, s1, t);
    }
    assert t.events == LinkNext(s.events, e);
  }
}
