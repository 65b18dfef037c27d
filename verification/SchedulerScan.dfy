/** The critical sections of the queue mutex keep the invariant of their queue. */
module SchedulerScan {
  import opened Wrappers
  import opened SchedulerModel
  import opened SchedulerInvariant
  import opened SchedulerBuild

  /** Without the section, the token condition is about the list, the events and the pushes. */
  ghost predicate Waits(qu: Queue, ev: seq<Event>) {
    qu.list == [] || Blocked(qu.list, ev) || Obliged(qu)
  }

  // ----- Removing the entry under the iterator

  lemma RemoveFacts(q: QueueId, list: seq<EventId>, ev: seq<Event>, i: nat)
    requires Sorted(q, list, ev) && i < |list|
    ensures Sorted(q, RemoveAt(list, i), ev)
    ensures forall e :: e in RemoveAt(list, i) <==> e in list && e != list[i]
  {
    var rest := RemoveAt(list, i);
    assert forall j :: 0 <= j < |list| && j != i ==> list[j] != list[i];
    assert forall j :: 0 <= j < |rest| ==> rest[j] == if j < i then list[j] else list[j + 1];
    forall e | e in list && e != list[i] ensures e in rest {
      var j :| 0 <= j < |list| && list[j] == e;
      assert rest[if j < i then j else j - 1] == e;
    }
  }

  /** What `Shape` says about a listed event. */
  lemma Listed(q: QueueId, qu: Queue, ev: seq<Event>, i: nat)
    requires Shape(q, qu, ev) && i < |qu.list|
    ensures var x := qu.list[i];
      && Mine(q, ev, x) && (x in qu.dispatched <==> ev[x].status != Queued)
      && (x in qu.dispatched ==> ev[x].kind == Command && ev[x].waits == [])
      && (x in qu.accounted ==> x in qu.dispatched)
  {
    assert qu.list[i] in qu.list;
  }

  lemma RemoveShape(q: QueueId, qu: Queue, qu': Queue, ev: seq<Event>, i: nat)
    requires Shape(q, qu, ev) && i < |qu.list| && qu'.list == RemoveAt(qu.list, i)
    requires qu'.pushes == qu.pushes && qu'.accounted == qu.accounted
    requires qu'.dispatched == qu.dispatched + {qu.list[i]}
    requires Mine(q, ev, qu.list[i]) && Settled(qu', ev, qu.list[i]) && ev[qu.list[i]].waits == []
    ensures Shape(q, qu', ev)
  {
    RemoveFacts(q, qu.list, ev, i);
    hide Sorted;
    assert Histories(qu', ev);
    forall e: EventId | Mine(q, ev, e) && e !in qu'.list ensures Settled(qu', ev, e) {
      if e != qu.list[i] { assert Settled(qu, ev, e); }
    }
  }

  lemma RemoveBlocked(list: seq<EventId>, ev: seq<Event>, i: nat)
    requires i < |list| && list[i] < |ev| && ev[list[i]].Done() && Blocked(list, ev)
    ensures Blocked(RemoveAt(list, i), ev)
  {
    var j: nat :| BlockedAt(list, ev, j);
    var rest := RemoveAt(list, i);
    assert forall k :: 0 <= k < |rest| ==> rest[k] == if k < i then list[k] else list[k + 1];
    assert BlockedAt(rest, ev, if j < i then j else j - 1);
  }

  lemma DropCounts(q: QueueId, qu: Queue, ev: seq<Event>, i: nat)
    requires Shape(q, qu, ev) && Accounting(qu, ev) && Reported(qu, ev) && i < |qu.list| && ev[qu.list[i]].Done()
    ensures Accounting(DropCompleted(qu, i), ev) && Reported(DropCompleted(qu, i), ev)
  {
    var qu', x := DropCompleted(qu, i), qu.list[i];
    RemoveFacts(q, qu.list, ev, i);
    Listed(q, qu, ev, i);
    hide Sorted, Histories;
    assert Outstanding(qu', ev) == Outstanding(qu, ev) - {x};
    assert forall e: EventId :: Announced(qu, e) ==> Announced(qu', e);
  }

  lemma SameOrder(q: QueueId, qu: Queue, qu': Queue, ev: seq<Event>)
    requires Order(q, qu, ev) && qu'.dispatched == qu.dispatched && qu'.outOfOrder == qu.outOfOrder
    ensures Order(q, qu', ev)
  {
    assert forall e: EventId :: Settled(qu, ev, e) ==> Settled(qu', ev, e);
  }

  /** A completed event under the iterator of either scan leaves the list. */
  lemma DropKeeps(q: QueueId, qu: Queue, ev: seq<Event>, i: nat)
    requires QueueOk(q, qu, ev) && i < |qu.list| && qu.list[i] < |ev| && ev[qu.list[i]].Done()
    requires (qu.section.Pushing? || qu.section.Cleaning?) && qu.section.index == i
    ensures QueueOk(q, DropCompleted(qu, i), ev)
  {
    hide Shape, Order, Accounting, Reported;
    var qu', x := DropCompleted(qu, i), qu.list[i];
    Listed(q, qu, ev, i);
    assert qu'.dispatched == qu.dispatched + {x};
    RemoveShape(q, qu, qu', ev, i);
    DropCounts(q, qu, ev, i);
    SameOrder(q, qu, qu', ev);
    if Blocked(qu.list, ev) { RemoveBlocked(qu.list, ev, i); }
  }

  // ----- Leaving the scan

  lemma EndScanKeeps(q: QueueId, qu: Queue, ev: seq<Event>)
    requires Shape(q, qu, ev) && Accounting(qu, ev) && Reported(qu, ev) && Order(q, qu, ev)
    requires qu.section.Pushing? && Waits(qu, ev) && (!qu.flushed ==> qu.list != [])
    ensures QueueOk(q, EndScan(qu), ev)
  {
    SamePlace(q, qu, EndScan(qu), ev);
    hide Shape, Order, Reported;
  }

  /** Past the checks that end the scan, the event under the iterator is waited for or dispatched. */
  lemma HeadWaits(qu: Queue, ev: seq<Event>)
    requires ScanOk(qu, ev) && Token(qu, ev) && qu.section.Pushing? && qu.section.index < |qu.list|
    requires var e := qu.list[qu.section.index];
      e < |ev| && !ev[e].Done() && (ev[e].status != Queued || ev[e].waits != [])
    ensures Waits(qu, ev)
  {
    if qu.section.first { assert BlockedAt(qu.list, ev, 0); }
  }

  /** The section after the iterator moved on. */
  function Advanced(c: Section): Section
    requires c.Pushing?
  {
    Pushing(c.index + 1, false, c.traversed + 1, c.ready)
  }

  lemma AdvanceScan(qu: Queue, ev: seq<Event>, flushed: bool)
    requires ScanOk(qu, ev) && qu.section.Pushing? && qu.section.index < |qu.list|
    requires var x := qu.list[qu.section.index];
      x < |ev| && !ev[x].Fence() && (ev[x].kind == Barrier ==> qu.section.first)
    requires flushed ==> qu.flushed
    ensures ScanOk(qu.(section := Advanced(qu.section), flushed := flushed), ev)
  {
  }

  /** The iterator moves on: the event is in flight, or waits without being a fence. */
  lemma AdvanceKeeps(q: QueueId, qu: Queue, ev: seq<Event>, flushed: bool)
    requires QueueOk(q, qu, ev) && qu.section.Pushing? && qu.section.index < |qu.list|
    requires qu.list[qu.section.index] < |ev|
    requires var e := ev[qu.list[qu.section.index]];
      && !e.Done() && (e.status != Queued || (e.waits != [] && e.waitList != [] && e.kind != WaitForEvents))
      && (e.kind == Barrier ==> qu.section.first)
    requires flushed ==> qu.flushed
    ensures QueueOk(q, qu.(section := Advanced(qu.section), flushed := flushed), ev)
  {
    hide Shape, Order, Accounting, Reported, ScanOk;
    Listed(q, qu, ev, qu.section.index);
    SamePlace(q, qu, qu.(section := Advanced(qu.section), flushed := flushed), ev);
    HeadWaits(qu, ev);
    AdvanceScan(qu, ev, flushed);
  }

  // ----- Dispatching the event under the iterator

  lemma ListedBefore(q: QueueId, qu: Queue, ev: seq<Event>, i: nat, e: EventId)
    requires Shape(q, qu, ev) && i < |qu.list| && Before(q, ev, e, qu.list[i])
    ensures Settled(qu, ev, e) || exists j :: 0 <= j < i && qu.list[j] == e
  {
    if e in qu.list {
      var j :| 0 <= j < |qu.list| && qu.list[j] == e;
      assert j < i;
    }
  }

  lemma ScanClears(q: QueueId, qu: Queue, ev: seq<Event>)
    requires Shape(q, qu, ev) && Order(q, qu, ev) && ScanOk(qu, ev) && qu.section.Pushing?
    requires qu.section.index < |qu.list|
    requires !qu.outOfOrder || ev[qu.list[qu.section.index]].kind == Barrier ==> qu.section.first
    ensures Cleared(q, qu, ev, qu.list[qu.section.index])
  {
    var i := qu.section.index;
    var f := qu.list[i];
    forall e: EventId | Before(q, ev, e, f) && (!qu.outOfOrder || ev[f].kind == Barrier) ensures Settled(qu, ev, e) {
      ListedBefore(q, qu, ev, i, e);
    }
    forall e: EventId, b: EventId | Before(q, ev, b, f) && Before(q, ev, e, b) && ev[b].kind == Barrier
      ensures Settled(qu, ev, e)
    {
      ListedBefore(q, qu, ev, i, b);
      if !Settled(qu, ev, b) {
        ListedBefore(q, qu, ev, 0, e);
      }
    }
    forall w: EventId | Before(q, ev, w, f) && ev[w].Fence() ensures w in qu.dispatched {
      ListedBefore(q, qu, ev, i, w);
    }
  }

  lemma OrderGrows(q: QueueId, qu: Queue, qu': Queue, ev: seq<Event>, f: EventId)
    requires Order(q, qu, ev) && Cleared(q, qu, ev, f)
    requires qu'.dispatched == qu.dispatched + {f} && qu'.outOfOrder == qu.outOfOrder
    ensures Order(q, qu', ev)
  {
    assert forall e: EventId :: Settled(qu, ev, e) ==> Settled(qu', ev, e);
  }

  lemma OutstandingGrows(qu: Queue, qu': Queue, ev: seq<Event>, x: EventId)
    requires x in qu.list && x !in qu.dispatched && x < |ev| && qu'.dispatched == qu.dispatched + {x}
    requires forall e :: e in qu'.list <==> e in qu.list && (e != x || !ev[x].Instantaneous())
    ensures |Outstanding(qu', ev)| == |Outstanding(qu, ev)| + 1
    ensures |qu'.dispatched| == |qu.dispatched| + 1
  {
    assert Outstanding(qu', ev) == Outstanding(qu, ev) + {x};
  }

  lemma DispatchCounts(q: QueueId, qu: Queue, qu': Queue, ev: seq<Event>, i: nat)
    requires Shape(q, qu, ev) && Accounting(qu, ev) && Reported(qu, ev) && i < |qu.list|
    requires ev[qu.list[i]].status == Queued
    requires qu'.dispatched == qu.dispatched + {qu.list[i]} && qu'.accounted == qu.accounted && qu'.pushes == qu.pushes
    requires qu'.onDevice == qu.onDevice + 1 && qu'.completed == qu.completed
    requires if ev[qu.list[i]].Instantaneous() then qu'.list == RemoveAt(qu.list, i) && qu'.inQueue == qu.inQueue - 1
             else qu'.list == qu.list && qu'.inQueue == qu.inQueue
    ensures Accounting(qu', ev) && Reported(qu', ev) && Obliged(qu')
  {
    var x := qu.list[i];
    RemoveFacts(q, qu.list, ev, i);
    Listed(q, qu, ev, i);
    hide Sorted, Histories;
    OutstandingGrows(qu, qu', ev, x);
    hide Shape, Outstanding;
    assert x in qu'.dispatched && x !in qu'.accounted;
    assert forall e: EventId :: Announced(qu, e) ==> Announced(qu', e);
  }

  lemma InstantaneousKeeps(q: QueueId, qu: Queue, ev: seq<Event>, i: nat)
    requires QueueOk(q, qu, ev) && i < |qu.list| && Cleared(q, qu, ev, qu.list[i])
    requires qu.list[i] < |ev|
    requires var e := ev[qu.list[i]]; e.Instantaneous() && e.status == Queued && e.waits == []
    ensures QueueOk(q, DispatchInstantaneous(qu, i), ev)
  {
    hide Shape, Order, Reported;
    var qu', x := DispatchInstantaneous(qu, i), qu.list[i];
    Listed(q, qu, ev, i);
    RemoveShape(q, qu, qu', ev, i);
    OrderGrows(q, qu, qu', ev, x);
    DispatchCounts(q, qu, qu', ev, i);
  }

  /** The queue after the event under the iterator was handed to the device. */
  function Submits(qu: Queue): Queue
    requires qu.section.Pushing? && qu.section.index < |qu.list|
  {
    qu.(onDevice := qu.onDevice + 1, dispatched := qu.dispatched + {qu.list[qu.section.index]},
        section := qu.section.(first := false, traversed := qu.section.traversed + 1))
  }

  lemma SubmitShape(q: QueueId, qu: Queue, ev: seq<Event>, ev': seq<Event>)
    requires Shape(q, qu, ev) && qu.section.Pushing? && qu.section.index < |qu.list|
    requires var x := qu.list[qu.section.index];
      && x < |ev| && ev[x].kind == Command && ev[x].status == Queued && ev[x].waits == []
      && ev' == ev[x := ev[x].(status := Submitted)]
    ensures Shape(q, Submits(qu), ev')
  {
    var qu', x := Submits(qu), qu.list[qu.section.index];
    Listed(q, qu, ev, qu.section.index);
    assert Sorted(q, qu'.list, ev');
    hide Sorted;
    assert forall e: EventId :: Mine(q, ev', e) <==> Mine(q, ev, e);
    forall e: EventId | Mine(q, ev', e) && e !in qu'.list ensures Settled(qu', ev', e) { assert Settled(qu, ev, e); }
    assert forall e :: e in qu.accounted ==> e != x;
  }

  /** A submission changes no order and no count but through the history of dispatches. */
  lemma SubmitRest(q: QueueId, qu: Queue, ev: seq<Event>, ev': seq<Event>, x: EventId)
    requires Accounting(qu, ev) && Reported(qu, ev) && Order(q, qu, ev) && x in qu.dispatched
    requires x < |ev| && ev[x].kind == Command && ev[x].status == Queued && ev' == ev[x := ev[x].(status := Submitted)]
    ensures Accounting(qu, ev') && Reported(qu, ev') && Order(q, qu, ev')
  {
    assert Outstanding(qu, ev') == Outstanding(qu, ev);
    assert forall e: EventId :: Mine(q, ev', e) <==> Mine(q, ev, e);
    assert forall e: EventId, f: EventId :: Before(q, ev', e, f) <==> Before(q, ev, e, f);
    assert forall e: EventId :: Settled(qu, ev, e) ==> Settled(qu, ev', e);
  }

  lemma SubmitScan(q: QueueId, qu: Queue, ev: seq<Event>, ev': seq<Event>)
    requires Shape(q, qu, ev) && ScanOk(qu, ev) && qu.section.Pushing? && qu.section.index < |qu.list|
    requires var x := qu.list[qu.section.index]; x < |ev| && ev' == ev[x := ev[x].(status := Submitted)]
    ensures ScanOk(Submits(qu), ev')
  {
    ListedOthers(q, qu, ev, qu.section.index);
    hide Shape;
  }

  lemma SubmitKeeps(q: QueueId, qu: Queue, ev: seq<Event>, ev': seq<Event>)
    requires QueueOk(q, qu, ev) && qu.section.Pushing? && qu.section.index < |qu.list|
    requires Cleared(q, qu, ev, qu.list[qu.section.index])
    requires var x := qu.list[qu.section.index];
      && x < |ev| && ev[x].kind == Command && ev[x].status == Queued && ev[x].waits == []
      && ev' == ev[x := ev[x].(status := Submitted)]
    ensures QueueOk(q, Submits(qu), ev')
  {
    hide Shape, Order, Accounting, Reported, ScanOk, Cleared;
    var qu', x := Submits(qu), qu.list[qu.section.index];
    SubmitShape(q, qu, ev, ev');
    SubmitScan(q, qu, ev, ev');
    OrderGrows(q, qu, qu', ev, x);
    DispatchCounts(q, qu, qu', ev, qu.section.index);
    SubmitRest(q, qu', ev, ev', x);
  }

  lemma ListedOthers(q: QueueId, qu: Queue, ev: seq<Event>, i: nat)
    requires Shape(q, qu, ev) && i < |qu.list|
    ensures forall j :: 0 <= j < i ==> qu.list[j] != qu.list[i]
  {
  }

  // ----- One iteration

  /** Events of the queue after the iteration. */
  function AfterScan(ev: seq<Event>, x: EventId, submit: bool): seq<Event>
    requires x < |ev|
  {
    if submit then ev[x := ev[x].(status := Submitted)] else ev
  }

  lemma ScanEventKeeps(q: QueueId, qu: Queue, ev: seq<Event>)
    requires QueueOk(q, qu, ev) && qu.section.Pushing? && qu.section.index < |qu.list|
    requires var e := qu.list[qu.section.index];
      e < |ev| && !ev[e].Done() && (ev[e].waits != [] ==> ev[e].waitList != [])
    requires !qu.outOfOrder || ev[qu.list[qu.section.index]].kind == Barrier ==> qu.section.first
    ensures var x := qu.list[qu.section.index];
      var r := ScanEvent(qu.(section := qu.section.(first := false, traversed := qu.section.traversed + 1)), ev[x]);
      QueueOk(q, r.0, AfterScan(ev, x, r.1))
  {
    hide Shape, Order, Accounting, Reported;
    var i := qu.section.index;
    var x, qu1 := qu.list[i], qu.(section := qu.section.(first := false, traversed := qu.section.traversed + 1));
    if ev[x].status != Queued {
      if qu.section.ready == Some(x) {
        HeadWaits(qu, ev);
        SamePlace(q, qu, qu1, ev);
        EndScanKeeps(q, qu1, ev);
      } else {
        AdvanceKeeps(q, qu, ev, qu.flushed);
      }
    } else if ev[x].waits != [] {
      if ev[x].kind == WaitForEvents {
        HeadWaits(qu, ev);
        SamePlace(q, qu, qu1.(flushed := false), ev);
        EndScanKeeps(q, qu1.(flushed := false), ev);
      } else {
        AdvanceKeeps(q, qu, ev, false);
      }
    } else {
      ScanClears(q, qu, ev);
      if ev[x].Instantaneous() {
        assert DispatchInstantaneous(qu1, i) == DispatchInstantaneous(qu, i);
        InstantaneousKeeps(q, qu, ev, i);
      } else {
        SubmitKeeps(q, qu, ev, AfterScan(ev, x, true));
      }
    }
  }

  lemma IterationKeeps(q: QueueId, qu: Queue, ev: seq<Event>)
    requires QueueOk(q, qu, ev) && qu.section.Pushing? && qu.section.index < |qu.list|
    requires var e := qu.list[qu.section.index]; e < |ev| && (ev[e].waits != [] ==> ev[e].waitList != [])
    ensures var x := qu.list[qu.section.index];
      var r := ScanIteration(qu, ev[x]);
      QueueOk(q, r.0, AfterScan(ev, x, r.1))
  {
    hide Shape, Order, Accounting, Reported;
    var c, x := qu.section, qu.list[qu.section.index];
    if ev[x].Done() {
      DropKeeps(q, qu, ev, c.index);
    } else if c.ready.None? && c.traversed > OOO_QUEUE_PUSH_EVENTS_THRESHOLD {
      EndScanKeeps(q, qu, ev);
    } else if (!qu.outOfOrder || ev[x].kind == Barrier) && !c.first {
      SamePlace(q, qu, qu.(flushed := false), ev);
      EndScanKeeps(q, qu.(flushed := false), ev);
    } else {
      ScanEventKeeps(q, qu, ev);
    }
  }

  // ----- Entering the scan, cleaning

  /** The completion that a push reports is that of a dispatched event. */
  lemma EnterShape(q: QueueId, qu: Queue, qu': Queue, ev: seq<Event>, p: Push, x: EventId)
    requires Shape(q, qu, ev) && p in qu.pushes && p.completed == Some(x)
    requires qu' == qu.(pushes := qu.pushes - multiset{p}, onDevice := qu.onDevice - 1, completed := qu.completed + 1,
                        accounted := qu.accounted + {x})
    ensures Shape(q, qu', ev) && x in qu.dispatched
  {
    assert forall r :: r in qu'.pushes ==> r in qu.pushes;
    assert Histories(qu', ev);
    hide Histories, Sorted;
    assert forall e: EventId :: Settled(qu, ev, e) <==> Settled(qu', ev, e);
  }

  lemma EnterCounts(q: QueueId, qu: Queue, qu': Queue, ev: seq<Event>, p: Push, x: EventId)
    requires Shape(q, qu, ev) && Accounting(qu, ev) && Reported(qu, ev) && Order(q, qu, ev)
    requires p in qu.pushes && p.completed == Some(x)
    requires qu' == qu.(pushes := qu.pushes - multiset{p}, onDevice := qu.onDevice - 1, completed := qu.completed + 1,
                        accounted := qu.accounted + {x})
    ensures Shape(q, qu', ev) && Accounting(qu', ev) && Reported(qu', ev) && Order(q, qu', ev)
  {
    assert forall e: EventId :: Settled(qu, ev, e) <==> Settled(qu', ev, e);
    assert forall r :: r in qu'.pushes ==> r in qu.pushes;
    EnterShape(q, qu, qu', ev, p, x);
    hide Shape, Sorted;
    assert Order(q, qu', ev) by { SameOrder(q, qu, qu', ev); }
    hide Order, Settled;
    assert Outstanding(qu', ev) == Outstanding(qu, ev);
    assert |qu'.accounted| <= |qu.accounted| + 1;
    forall e: EventId | Announced(qu, e) && e != x ensures Announced(qu', e) {
      var r :| r in qu.pushes && r.completed == Some(e);
      assert r != p && r in qu'.pushes;
    }
  }

  lemma EnterQuietly(q: QueueId, qu: Queue, qu': Queue, ev: seq<Event>, p: Push)
    requires Shape(q, qu, ev) && Accounting(qu, ev) && Reported(qu, ev) && Order(q, qu, ev)
    requires p in qu.pushes && p.completed == None && qu' == qu.(pushes := qu.pushes - multiset{p})
    ensures Shape(q, qu', ev) && Accounting(qu', ev) && Reported(qu', ev) && Order(q, qu', ev)
  {
    assert forall e: EventId :: Settled(qu, ev, e) <==> Settled(qu', ev, e);
    assert forall r :: r in qu'.pushes ==> r in qu.pushes;
    assert Shape(q, qu', ev);
    assert Outstanding(qu', ev) == Outstanding(qu, ev);
    forall e: EventId | Announced(qu, e) ensures Announced(qu', e) {
      var r :| r in qu.pushes && r.completed == Some(e);
      assert r != p && r in qu'.pushes;
    }
  }

  /** The early return leaves a dispatched event whose completion will push again. */
  lemma EarlyReturnObliged(q: QueueId, qu: Queue, ev: seq<Event>)
    requires Shape(q, qu, ev) && Accounting(qu, ev) && qu.onDevice > 2
    ensures Obliged(qu)
  {
    assert qu.accounted <= qu.dispatched && qu.accounted != qu.dispatched;
  }

  lemma EnterKeeps(q: QueueId, qu: Queue, ev: seq<Event>, p: Push, enough: bool)
    requires QueueOk(q, qu, ev) && qu.section.Free? && p in qu.pushes
    ensures QueueOk(q, EnterPush(qu, p, enough), ev)
  {
    hide Shape, Order, Accounting, Reported;
    var qu2 := TakePush(qu, p);
    if p.completed.Some? {
      EnterCounts(q, qu, qu2, ev, p, p.completed.value);
    } else {
      EnterQuietly(q, qu, qu2, ev, p);
    }
    if qu2.outOfOrder && p.ready.None? && qu2.onDevice > 2 && enough {
      EarlyReturnObliged(q, qu2, ev);
    } else {
      SamePlace(q, qu2, EnterPush(qu, p, enough), ev);
    }
  }

  lemma CleanKeeps(q: QueueId, qu: Queue, ev: seq<Event>)
    requires QueueOk(q, qu, ev) && qu.section.Cleaning? && QueueTyped(qu, |ev|)
    ensures QueueOk(q, CleanIteration(qu, ev), ev)
  {
    hide Shape, Order, Accounting, Reported;
    var i := qu.section.index;
    if i < |qu.list| && ev[qu.list[i]].Done() {
      DropKeeps(q, qu, ev, i);
    } else {
      SamePlace(q, qu, CleanIteration(qu, ev), ev);
    }
  }

  lemma BeginCleanKeeps(q: QueueId, qu: Queue, ev: seq<Event>)
    requires QueueOk(q, qu, ev) && qu.section.Free?
    ensures QueueOk(q, qu.(section := Cleaning(0)), ev)
  {
    SamePlace(q, qu, qu.(section := Cleaning(0)), ev);
  }
}
