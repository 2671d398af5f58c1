// The scheduler's bookkeeping and the worker's describe the same transactions.

module Agreement {
  import opened Common
  import opened SchedulerModel
  import opened SchedulerInvariant
  import opened WorkerModel

  // ---------------------------------------------------------------- what agreement means

  /** The worker may lag by one table switch, which it makes at the request's next step. */
  ghost predicate AgreeAt(s: Sched, w: Worker, r: RequestId) {
    && r in w.requests && r in s.requests && r in s.tables
    && w.requests[r].info == s.requests[r].info
    && if r in s.pending then
         var plan := s.pending[r].plan;
         && w.requests[r].table == s.tables[r]
         && Get(w.pending, r) == Some(WPending(plan.semantic, plan.physical, plan.destination))
         && Get(w.active, r) == Get(s.active, r)
       else if r in w.pending then
         && w.pending[r].blocks == s.tables[r]
         && Get(s.active, r) == Some(Anchor(w.pending[r].semantic, w.pending[r].physical))
       else
         && w.requests[r].table == s.tables[r]
         && Get(w.active, r) == Get(s.active, r)
  }

  ghost predicate Agree(s: Sched, w: Worker) {
    forall r :: r in s.tables ==> AgreeAt(s, w, r)
  }

  /** A request without a table has no transaction on the worker, unless its reset is still owed. */
  ghost predicate Quiet(s: Sched, w: Worker, owed: set<RequestId>) {
    forall r :: r !in s.tables && r !in owed ==> r !in w.pending && r !in w.active
  }

  ghost predicate Rooted(w: Worker) {
    w.pending.Keys + w.active.Keys <= w.requests.Keys
  }

  // ---------------------------------------------------------------- per-request reasoning

  ghost predicate SameWorkerAt(w: Worker, w': Worker, q: RequestId) {
    && Get(w'.requests, q) == Get(w.requests, q)
    && Get(w'.pending, q) == Get(w.pending, q)
    && Get(w'.active, q) == Get(w.active, q)
  }

  lemma AgreeFrame(s: Sched, s': Sched, w: Worker, w': Worker, q: RequestId)
    requires AgreeAt(s, w, q) && SameAt(s, s', q) && SameWorkerAt(w, w', q)
    ensures AgreeAt(s', w', q)
  {
  }

  ghost predicate SameOrders(o1: Output, o2: Output, q: RequestId) {
    && (q in o1.finished <==> q in o2.finished)
    && (q in o1.preempted <==> q in o2.preempted)
    && Get(o1.entries, q) == Get(o2.entries, q)
  }

  lemma BeforeUpdateLocal(w: Worker, o1: Output, o2: Output, q: RequestId)
    requires SameOrders(o1, o2, q)
    ensures SameWorkerAt(BeforeUpdate(w, o1), BeforeUpdate(w, o2), q)
  {
    assert IsReset(o1, q) <==> IsReset(o2, q);
  }

  lemma HostUpdateLocal(w1: Worker, w2: Worker, o1: Output, o2: Output, q: RequestId)
    requires SameOrders(o1, o2, q) && SameWorkerAt(w1, w2, q)
    ensures SameWorkerAt(HostUpdate(w1, o1), HostUpdate(w2, o2), q)
  {
  }

  /** What an output says about one request decides what the update does to it. */
  lemma UpdateLocal(w: Worker, o1: Output, o2: Output, q: RequestId)
    requires SameOrders(o1, o2, q)
    ensures SameWorkerAt(Update(w, o1), Update(w, o2), q)
  {
    hide BeforeUpdate, HostUpdate, SameOrders;
    BeforeUpdateLocal(w, o1, o2, q);
    HostUpdateLocal(BeforeUpdate(w, o1), BeforeUpdate(w, o2), o1, o2, q);
  }

  lemma UpdateUntouched(w: Worker, out: Output, q: RequestId)
    requires Rooted(w) && !IsReset(out, q) && q !in out.entries
    ensures SameWorkerAt(w, Update(w, out), q)
  {
    var b := BeforeUpdate(w, out);
    assert SameWorkerAt(w, b, q);
    assert SameWorkerAt(b, HostUpdate(b, out), q);
  }

  lemma UpdateReset(w: Worker, out: Output, q: RequestId)
    requires IsReset(out, q)
    ensures q !in Update(w, out).pending && q !in Update(w, out).active
  {
  }

  /** A running request: switch the table if a compression waits, then append. */
  lemma UpdateAppended(w: Worker, out: Output, q: RequestId)
    requires Rooted(w) && q in w.requests && q !in out.finished && q !in out.preempted
    requires q in out.entries && !out.entries[q].full && !out.entries[q].resumed
    ensures var u, e := Update(w, out), out.entries[q];
      && q in u.requests && q !in u.pending
      && u.requests[q] == WRequest((if q in w.pending then w.pending[q].blocks else w.requests[q].table) + e.blocks,
                                   e.computed, e.info)
      && Get(u.active, q) == if q in w.pending then Some(Anchor(w.pending[q].semantic, w.pending[q].physical))
                             else Get(w.active, q)
  {
    var b := BeforeUpdate(w, out);
    assert q in b.requests && q !in b.pending;
  }

  /** A new or resumed request: the output carries its whole table. */
  lemma UpdateAdmitted(w: Worker, out: Output, q: RequestId)
    requires q in out.entries && out.entries[q].full
    requires IsReset(out, q) || (q !in w.pending && q !in w.active)
    ensures var u, e := Update(w, out), out.entries[q];
      && Get(u.requests, q) == Some(WRequest(e.blocks, e.computed, e.info))
      && q !in u.pending && q !in u.active
  {
    var b := BeforeUpdate(w, out);
    assert q !in b.pending && q !in b.active;
  }

  lemma UpdateRooted(w: Worker, out: Output)
    ensures Rooted(Update(w, out))
  {
  }
}
