/**
 The polling scheduler of internal/cron/scheduler.go. A poll marks the due jobs, dispatches them
 concurrently and books the results in the order they arrive. The whole list is shown to evolve job
 by job, and the timing and accounting promises are then proved over whole runs of one job.
*/
module CronSchedule {
  import opened Wrappers
  import opened CronJobs

  /** The cron-expression library: schedule and time to next firing time. */
  type CronNext = (Schedule, Int64) -> Int64

  /** All that is assumed of it: it answers "never" (nothing positive) or a later time. */
  ghost predicate CronOk(cron: CronNext) {
    forall s, t :: cron(s, t) <= 0 || cron(s, t) > t
  }

  function ComputeNextRun(s: Schedule, now: Int64, cron: CronNext): Int64 {
    match s.kind
    case KindAt => if s.atMS.Some? && s.atMS.value > now then s.atMS.value else 0
    case KindEvery => if s.everyMS.Some? && s.everyMS.value > 0 then Add64(now, s.everyMS.value) else 0
    case KindCron => if s.expr == "" then 0 else cron(s, now)
    case KindOther(_) => 0
  }

  // ---------------------------------------------------------------- one job in one poll

  predicate Due(job: Job, now: Int64) {
    job.enabled && job.state.nextRunAtMS > 0 && now >= job.state.nextRunAtMS
  }

  function WithNext(job: Job, next: Int64): Job { job.(state := job.state.(nextRunAtMS := next)) }

  /** What identifyDueJobs does to a job. */
  function Identified(job: Job, now: Int64, cron: CronNext): Job {
    if job.enabled && job.state.nextRunAtMS == 0 then WithNext(job, ComputeNextRun(job.schedule, now, cron))
    else if Due(job, now) then job.(state := job.state.(runCount := job.state.runCount + 1, lastRunAtMS := now))
    else job
  }

  /** What booking a dispatch result does to a job. */
  function Completed(job: Job, failed: bool, done: Int64, cron: CronNext): Job {
    var counted :=
      if failed then job.(state := job.state.(failureCount := job.state.failureCount + 1))
      else job.(state := job.state.(successCount := job.state.successCount + 1));
    WithNext(counted, ComputeNextRun(job.schedule, done, cron))
  }

  /** One poll as one job sees it: when it starts, when the dispatches are done, and the job's own outcome. */
  datatype Tick = Tick(now: Int64, done: Int64, failed: bool)

  function Polled(job: Job, t: Tick, dispatcher: bool, cron: CronNext): Job {
    var marked := Identified(job, t.now, cron);
    if !Due(job, t.now) then marked
    else if dispatcher then Completed(marked, t.failed, t.done, cron)
    else WithNext(marked, ComputeNextRun(job.schedule, t.now, cron))
  }

  // ---------------------------------------------------------------- the list in one poll

  datatype DueJob = DueJob(index: nat, id: string, name: string, payload: Payload, sched: Schedule)

  datatype DispatchResult = DispatchResult(index: nat, failed: bool)

  function DueIn(jobs: seq<Job>, now: Int64): seq<DueJob>
    decreases |jobs|
  {
    if jobs == [] then []
    else
      var i := |jobs| - 1;
      var job := jobs[i];
      DueIn(jobs[..i], now) + if Due(job, now) then [DueJob(i, job.id, job.name, job.payload, job.schedule)] else []
  }

  ghost predicate Describes(d: DueJob, jobs: seq<Job>, now: Int64) {
    && d.index < |jobs| && Due(jobs[d.index], now)
    && d == DueJob(d.index, jobs[d.index].id, jobs[d.index].name, jobs[d.index].payload, jobs[d.index].schedule)
  }

  ghost predicate Listed(i: nat, due: seq<DueJob>) { exists d :: d in due && d.index == i }

  lemma {:induction false} DueAreListed(jobs: seq<Job>, now: Int64, i: nat)
    requires i < |jobs| && Due(jobs[i], now)
    ensures Listed(i, DueIn(jobs, now))
    decreases |jobs|
  {
    var n := |jobs| - 1;
    var before, due := DueIn(jobs[..n], now), DueIn(jobs, now);
    if i == n {
      assert due[|due| - 1] in due;
    } else {
      DueAreListed(jobs[..n], now, i);
      var d :| d in before && d.index == i;
      assert d in due;
    }
  }

  lemma {:induction false} ListedAreDue(jobs: seq<Job>, now: Int64, k: nat)
    requires k < |DueIn(jobs, now)|
    ensures Describes(DueIn(jobs, now)[k], jobs, now)
    ensures k > 0 ==> DueIn(jobs, now)[k - 1].index < DueIn(jobs, now)[k].index
    decreases |jobs|
  {
    var n := |jobs| - 1;
    var before := DueIn(jobs[..n], now);
    if k < |before| {
      ListedAreDue(jobs[..n], now, k);
    } else if k > 0 {
      ListedAreDue(jobs[..n], now, k - 1);
    }
  }

  lemma {:induction false} DueRise(jobs: seq<Job>, now: Int64, k: nat, l: nat)
    requires k < l < |DueIn(jobs, now)|
    ensures DueIn(jobs, now)[k].index < DueIn(jobs, now)[l].index
  {
    ListedAreDue(jobs, now, l);
    if k < l - 1 { DueRise(jobs, now, k, l - 1); }
  }

  /** The due list names each due job once, in list order, with that job's own fields. */
  lemma {:induction false} DueInExact(jobs: seq<Job>, now: Int64)
    ensures var due := DueIn(jobs, now);
      && (forall d :: d in due ==> Describes(d, jobs, now))
      && (forall i :: 0 <= i < |jobs| && Due(jobs[i], now) ==> Listed(i, due))
      && (forall k, l :: 0 <= k < l < |due| ==> due[k].index < due[l].index)
  {
    var due := DueIn(jobs, now);
    forall d | d in due ensures Describes(d, jobs, now) {
      var k :| 0 <= k < |due| && due[k] == d;
      ListedAreDue(jobs, now, k);
    }
    forall i | 0 <= i < |jobs| && Due(jobs[i], now) ensures Listed(i, due) { DueAreListed(jobs, now, i); }
    forall k, l | 0 <= k < l < |due| ensures due[k].index < due[l].index { DueRise(jobs, now, k, l); }
  }

  /** The channel holds one result per due job, in any order. */
  ghost predicate Finished(results: seq<DispatchResult>, due: seq<DueJob>) {
    && Distinct(results)
    && (forall r :: r in results ==> Listed(r.index, due))
    && (forall d :: d in due ==> HasResult(results, d.index))
  }

  ghost predicate Distinct(results: seq<DispatchResult>) {
    forall k, l :: 0 <= k < l < |results| ==> results[k].index != results[l].index
  }

  ghost predicate HasResult(results: seq<DispatchResult>, i: nat) { exists r :: r in results && r.index == i }

  ghost predicate FailedAt(results: seq<DispatchResult>, i: nat) {
    exists r :: r in results && r.index == i && r.failed
  }

  /** The dispatch goroutines: each running one sends its own result once; all have ended when the channel
      is closed. The sends in order are the channel's content. */
  ghost predicate FanOut(running: set<nat>, sends: seq<DispatchResult>)
    decreases |sends|
  {
    if sends == [] then running == {}
    else sends[0].index in running && FanOut(running - {sends[0].index}, sends[1..])
  }

  /** The possible channel contents are exactly the lists with one result per goroutine. */
  lemma {:induction false} FanOutExactly(running: set<nat>, sends: seq<DispatchResult>)
    ensures FanOut(running, sends) <==> Distinct(sends) && forall i: nat :: i in running <==> HasResult(sends, i)
    decreases |sends|
  {
    if sends == [] {
      assert (forall i: nat :: i in running <==> HasResult(sends, i)) ==> running == {};
    } else {
      var first, rest := sends[0], sends[1..];
      FanOutExactly(running - {first.index}, rest);
      assert forall r :: r in sends <==> r == first || r in rest;
      assert forall i: nat :: HasResult(sends, i) <==> i == first.index || HasResult(rest, i);
      assert Distinct(sends) <==> Distinct(rest) && !HasResult(rest, first.index) by {
        assert forall k :: 0 <= k < |rest| ==> rest[k] == sends[k + 1] && rest[k] in rest;
        if Distinct(rest) && !HasResult(rest, first.index) {
          forall k, l | 0 <= k < l < |sends| ensures sends[k].index != sends[l].index {
            assert sends[l] == rest[l - 1];
            if k > 0 { assert sends[k] == rest[k - 1]; }
          }
        }
      }
    }
  }

  /** Whatever the interleaving, the channel ends up with one result per due job. */
  lemma {:induction false} FanOutFinishes(jobs: seq<Job>, now: Int64, running: set<nat>, sends: seq<DispatchResult>)
    requires forall i: nat :: i in running <==> i < |jobs| && Due(jobs[i], now)
    ensures FanOut(running, sends) <==> Finished(sends, DueIn(jobs, now))
  {
    FanOutExactly(running, sends);
    DueInExact(jobs, now);
    var due := DueIn(jobs, now);
    forall i: nat ensures i in running <==> Listed(i, due) {
      if d :| d in due && d.index == i { assert Describes(d, jobs, now); }
    }
    if FanOut(running, sends) {
      forall r | r in sends ensures Listed(r.index, due) { assert HasResult(sends, r.index); }
      forall d | d in due ensures HasResult(sends, d.index) { assert Listed(d.index, due); }
    }
    if Finished(sends, due) {
      forall i: nat ensures i in running <==> HasResult(sends, i) {
        if i in running { assert Listed(i, due); }
      }
    }
  }

  /** The booking loop of poll. */
  function Booked(jobs: seq<Job>, results: seq<DispatchResult>, done: Int64, cron: CronNext): (booked: seq<Job>)
    requires forall r :: r in results ==> r.index < |jobs|
    ensures |booked| == |jobs|
    decreases |results|
  {
    if results == [] then jobs
    else
      var n := |results| - 1;
      var before := Booked(jobs, results[..n], done, cron);
      before[results[n].index := Completed(before[results[n].index], results[n].failed, done, cron)]
  }

  lemma {:induction false} LastResult(results: seq<DispatchResult>, i: nat)
    requires results != [] && Distinct(results)
    ensures var n := |results| - 1; var r := results[n];
      && HasResult(results, i) == (r.index == i || HasResult(results[..n], i))
      && FailedAt(results, i) == (if r.index == i then r.failed else FailedAt(results[..n], i))
      && (r.index == i ==> !HasResult(results[..n], i))
  {
    var n := |results| - 1;
    assert results == results[..n] + [results[n]];
    assert results[n] in results;
    assert forall r :: r in results <==> r in results[..n] || r == results[n];
  }

  /** Each result touches its own job and nothing else. */
  lemma {:induction false} BookedPointwise(jobs: seq<Job>, results: seq<DispatchResult>, done: Int64, cron: CronNext)
    requires Distinct(results) && forall r :: r in results ==> r.index < |jobs|
    ensures var after := Booked(jobs, results, done, cron);
      && |after| == |jobs|
      && forall i :: 0 <= i < |jobs| ==>
           after[i] == if HasResult(results, i) then Completed(jobs[i], FailedAt(results, i), done, cron) else jobs[i]
    decreases |results|
  {
    if results != [] {
      var n := |results| - 1;
      BookedPointwise(jobs, results[..n], done, cron);
      forall i | 0 <= i < |jobs|
        ensures Booked(jobs, results, done, cron)[i]
             == if HasResult(results, i) then Completed(jobs[i], FailedAt(results, i), done, cron) else jobs[i]
      {
        LastResult(results, i);
      }
    }
  }

  /** The list after a poll does not depend on the order in which the dispatches finish. */
  lemma {:induction false} FinishOrderIrrelevant(jobs: seq<Job>, one: seq<DispatchResult>, two: seq<DispatchResult>,
      done: Int64, cron: CronNext)
    requires multiset(one) == multiset(two) && Distinct(one) && Distinct(two)
    requires forall r :: r in one ==> r.index < |jobs|
    ensures forall r :: r in two ==> r.index < |jobs|
    ensures Booked(jobs, one, done, cron) == Booked(jobs, two, done, cron)
  {
    assert forall r :: r in one <==> r in multiset(one);
    assert forall r :: r in two <==> r in multiset(two);
    BookedPointwise(jobs, one, done, cron);
    BookedPointwise(jobs, two, done, cron);
    forall i: nat | i < |jobs| ensures HasResult(one, i) == HasResult(two, i) && FailedAt(one, i) == FailedAt(two, i) {}
  }

  /** A poll of the list, job by job. */
  ghost predicate PolledList(jobs: seq<Job>, now: Int64, done: Int64, results: seq<DispatchResult>, dispatcher: bool,
      cron: CronNext, jobs': seq<Job>) {
    && |jobs'| == |jobs|
    && forall i :: 0 <= i < |jobs| ==>
         jobs'[i] == Polled(jobs[i], Tick(now, done, FailedAt(results, i)), dispatcher, cron)
  }

  // ---------------------------------------------------------------- the object

  class Scheduler {
    var jobs: seq<Job>
    var disk: seq<Job>
    const dispatcher: bool

    constructor (loaded: seq<Job>, dispatcher: bool)
      ensures jobs == disk == loaded && this.dispatcher == dispatcher
    {
      jobs, disk := loaded, loaded;
      this.dispatcher := dispatcher;
    }

    /** What is left of the memory after a restart. */
    method Restart()
      modifies this`jobs
      ensures jobs == disk
    {
      jobs := disk;
    }

    method IdentifyDueJobs(now: Int64, cron: CronNext) returns (due: seq<DueJob>, changed: bool)
      modifies this`jobs
      ensures |jobs| == |old(jobs)| && forall i :: 0 <= i < |jobs| ==> jobs[i] == Identified(old(jobs)[i], now, cron)
      ensures due == DueIn(old(jobs), now)
      ensures !changed ==> jobs == old(jobs) && due == []
    {
      due, changed := [], false;
      for i := 0 to |jobs|
        invariant |jobs| == |old(jobs)|
        invariant forall k :: 0 <= k < i ==> jobs[k] == Identified(old(jobs)[k], now, cron)
        invariant forall k :: i <= k < |jobs| ==> jobs[k] == old(jobs)[k]
        invariant due == DueIn(old(jobs)[..i], now)
        invariant !changed ==> jobs == old(jobs) && due == []
      {
        assert old(jobs)[..i + 1][..i] == old(jobs)[..i];
        var job := jobs[i];
        if !job.enabled {
          continue;
        }
        if job.state.nextRunAtMS == 0 {
          jobs := jobs[i := WithNext(job, ComputeNextRun(job.schedule, now, cron))];
          changed := true;
          continue;
        }
        if job.state.nextRunAtMS > 0 && now >= job.state.nextRunAtMS {
          jobs := jobs[i := job.(state := job.state.(runCount := job.state.runCount + 1, lastRunAtMS := now))];
          due := due + [DueJob(i, job.id, job.name, job.payload, job.schedule)];
          changed := true;
        }
      }
      assert old(jobs)[..|jobs|] == old(jobs);
    }

    /** The branch of poll without a dispatcher: reschedule only. */
    method Reschedule(due: seq<DueJob>, now: Int64, cron: CronNext)
      requires forall d :: d in due ==> d.index < |jobs|
      requires forall k, l :: 0 <= k < l < |due| ==> due[k].index < due[l].index
      modifies this`jobs
      ensures |jobs| == |old(jobs)|
      ensures forall d :: d in due ==> jobs[d.index] == WithNext(old(jobs)[d.index], ComputeNextRun(d.sched, now, cron))
      ensures forall i :: 0 <= i < |jobs| && (forall d :: d in due ==> d.index != i) ==> jobs[i] == old(jobs)[i]
    {
      for k := 0 to |due|
        invariant |jobs| == |old(jobs)|
        invariant forall l :: 0 <= l < k ==>
          jobs[due[l].index] == WithNext(old(jobs)[due[l].index], ComputeNextRun(due[l].sched, now, cron))
        invariant forall l :: k <= l < |due| ==> jobs[due[l].index] == old(jobs)[due[l].index]
        invariant forall i :: 0 <= i < |jobs| && (forall d :: d in due ==> d.index != i) ==> jobs[i] == old(jobs)[i]
      {
        assert due[k] in due;
        var i := due[k].index;
        jobs := jobs[i := WithNext(jobs[i], ComputeNextRun(due[k].sched, now, cron))];
      }
    }

    method Book(results: seq<DispatchResult>, done: Int64, cron: CronNext)
      requires Distinct(results) && forall r :: r in results ==> r.index < |jobs|
      modifies this`jobs
      ensures jobs == Booked(old(jobs), results, done, cron)
    {
      for k := 0 to |results|
        invariant |jobs| == |old(jobs)|
        invariant jobs == Booked(old(jobs), results[..k], done, cron)
      {
        assert results[..k + 1][..k] == results[..k] && results[k] in results;
        var i := results[k].index;
        var job := jobs[i];
        if results[k].failed {
          job := job.(state := job.state.(failureCount := job.state.failureCount + 1));
        } else {
          job := job.(state := job.state.(successCount := job.state.successCount + 1));
        }
        jobs := jobs[i := WithNext(job, ComputeNextRun(job.schedule, done, cron))];
      }
      assert results[..|results|] == results;
    }

    /** One poll over a loaded store. The results are whatever the concurrent dispatches leave in the
        channel; the writes may fail. */
    method Poll(now: Int64, done: Int64, results: seq<DispatchResult>, cron: CronNext, writeOk: bool)
      requires Finished(results, DueIn(jobs, now))
      modifies this`jobs, this`disk
      ensures PolledList(old(jobs), now, done, results, dispatcher, cron, jobs)
      ensures writeOk && old(disk == jobs) ==> disk == jobs
      ensures !writeOk ==> disk == old(disk)
    {
      ghost var before := jobs;
      DueInExact(jobs, now);
      var due, changed := IdentifyDueJobs(now, cron);
      ghost var marked := jobs;
      DueCovered(before, now, results);
      if |due| == 0 {
        if changed && writeOk { disk := jobs; }
        return;
      }
      if !dispatcher {
        Reschedule(due, now, cron);
        RescheduledPointwise(before, marked, now, jobs, cron);
        if writeOk { disk := jobs; }
        return;
      }
      Book(results, done, cron);
      BookedPointwise(marked, results, done, cron);
      if writeOk { disk := jobs; }
    }
  }

  lemma {:induction false} RescheduledPointwise(jobs: seq<Job>, marked: seq<Job>, now: Int64, after: seq<Job>,
      cron: CronNext)
    requires |marked| == |jobs| == |after|
    requires var due := DueIn(jobs, now);
      && (forall d :: d in due ==> Describes(d, jobs, now))
      && (forall d :: d in due ==> after[d.index] == WithNext(marked[d.index], ComputeNextRun(d.sched, now, cron)))
      && (forall i :: 0 <= i < |jobs| && (forall d :: d in due ==> d.index != i) ==> after[i] == marked[i])
    ensures forall i :: 0 <= i < |jobs| ==>
      after[i] == if Due(jobs[i], now) then WithNext(marked[i], ComputeNextRun(jobs[i].schedule, now, cron))
          else marked[i]
  {
    forall i | 0 <= i < |jobs|
      ensures after[i] == if Due(jobs[i], now) then WithNext(marked[i], ComputeNextRun(jobs[i].schedule, now, cron))
          else marked[i]
    {
      if Due(jobs[i], now) {
        DueAreListed(jobs, now, i);
        var d :| d in DueIn(jobs, now) && d.index == i;
        assert Describes(d, jobs, now);
      }
    }
  }

  lemma {:induction false} DueCovered(jobs: seq<Job>, now: Int64, results: seq<DispatchResult>)
    requires Finished(results, DueIn(jobs, now))
    ensures Distinct(results) && forall r :: r in results ==> r.index < |jobs|
    ensures forall i :: 0 <= i < |jobs| ==> HasResult(results, i) == Due(jobs[i], now)
  {
    DueInExact(jobs, now);
    forall r | r in results ensures r.index < |jobs| && Due(jobs[r.index], now) {
      assert Listed(r.index, DueIn(jobs, now));
      var d :| d in DueIn(jobs, now) && d.index == r.index;
      assert Describes(d, jobs, now);
    }
    forall i | 0 <= i < |jobs| ensures HasResult(results, i) == Due(jobs[i], now) {
      if Due(jobs[i], now) { assert Listed(i, DueIn(jobs, now)); }
    }
  }

  // ---------------------------------------------------------------- whole runs of one job

  /** The job before tick k of a run. */
  function Before(job: Job, ticks: seq<Tick>, k: nat, dispatcher: bool, cron: CronNext): (j: Job)
    requires k <= |ticks|
    ensures j.schedule == job.schedule && j.enabled == job.enabled && j.id == job.id
  {
    if k == 0 then job else Polled(Before(job, ticks, k - 1, dispatcher, cron), ticks[k - 1], dispatcher, cron)
  }

  /** The job is started by tick k. */
  predicate Starts(job: Job, ticks: seq<Tick>, k: nat, dispatcher: bool, cron: CronNext) {
    k < |ticks| && Due(Before(job, ticks, k, dispatcher, cron), ticks[k].now)
  }

  /** The clock does not run backwards. */
  ghost predicate Clocked(ticks: seq<Tick>) {
    && (forall k :: 0 <= k < |ticks| ==> ticks[k].now <= ticks[k].done)
    && (forall k, l :: 0 <= k < l < |ticks| ==> ticks[k].done <= ticks[l].now)
  }

  /** The time a started job's next run is counted from. */
  function Anchor(t: Tick, dispatcher: bool): Int64 { if dispatcher then t.done else t.now }

  function NextAt(job: Job, ticks: seq<Tick>, k: nat, dispatcher: bool, cron: CronNext): Int64
    requires k <= |ticks|
  {
    Before(job, ticks, k, dispatcher, cron).state.nextRunAtMS
  }

  lemma {:induction false} NextStep(job: Job, ticks: seq<Tick>, k: nat, dispatcher: bool, cron: CronNext)
    requires k < |ticks|
    ensures NextAt(job, ticks, k + 1, dispatcher, cron) ==
      if Starts(job, ticks, k, dispatcher, cron) then ComputeNextRun(job.schedule, Anchor(ticks[k], dispatcher), cron)
      else if job.enabled && NextAt(job, ticks, k, dispatcher, cron) == 0
          then ComputeNextRun(job.schedule, ticks[k].now, cron)
      else NextAt(job, ticks, k, dispatcher, cron)
  {
  }

  /** "Never" or later than the given time. */
  lemma {:induction false} NextIsLater(s: Schedule, now: Int64, cron: CronNext)
    requires CronOk(cron)
    ensures var next := ComputeNextRun(s, now, cron); next <= 0 || next > now
    ensures s.kind.KindEvery? ==> var next := ComputeNextRun(s, now, cron);
      next <= 0 || (s.everyMS.Some? && s.everyMS.value > 0 && next >= now + s.everyMS.value)
  {
  }

  /** After a start the next time is "never" or later than the anchor, however many polls follow. */
  lemma {:induction false} NextStaysLater(job: Job, ticks: seq<Tick>, i: nat, k: nat, dispatcher: bool, cron: CronNext)
    requires CronOk(cron) && Clocked(ticks) && Starts(job, ticks, i, dispatcher, cron) && i < k <= |ticks|
    ensures var next, from := NextAt(job, ticks, k, dispatcher, cron), Anchor(ticks[i], dispatcher);
      && (next <= 0 || next > from)
      && (job.schedule.kind.KindEvery? ==>
            next <= 0 || (job.schedule.everyMS.Some? && job.schedule.everyMS.value > 0
                && next >= from + job.schedule.everyMS.value))
  {
    var l := k - 1;
    NextStep(job, ticks, l, dispatcher, cron);
    NextIsLater(job.schedule, Anchor(ticks[l], dispatcher), cron);
    NextIsLater(job.schedule, ticks[l].now, cron);
    if l > i { NextStaysLater(job, ticks, i, l, dispatcher, cron); }
  }

  /** Whatever its schedule, a job never starts again before its last dispatch finished; two starts of an
      "every" job are at least the interval apart, counted from the end of the first. */
  lemma {:induction false} StartsApart(job: Job, ticks: seq<Tick>, i: nat, j: nat, dispatcher: bool, cron: CronNext)
    requires CronOk(cron) && Clocked(ticks) && i < j
    requires Starts(job, ticks, i, dispatcher, cron) && Starts(job, ticks, j, dispatcher, cron)
    ensures ticks[j].now > Anchor(ticks[i], dispatcher) >= ticks[i].now
    ensures job.schedule.kind.KindEvery? ==>
      job.schedule.everyMS.Some? && job.schedule.everyMS.value > 0
          && ticks[j].now >= Anchor(ticks[i], dispatcher) + job.schedule.everyMS.value
  {
    NextStaysLater(job, ticks, i, j, dispatcher, cron);
  }

  /** After an interval job ran, its next time lies after completion exactly if the sum fits 64 bits. */
  lemma {:induction false} EveryNextIsLaterExactly(job: Job, ticks: seq<Tick>, i: nat, cron: CronNext)
    requires Starts(job, ticks, i, true, cron) && job.schedule.kind.KindEvery?
    requires job.schedule.everyMS.Some? && job.schedule.everyMS.value > 0
    ensures NextAt(job, ticks, i + 1, true, cron) > ticks[i].done <==>
        ticks[i].done + job.schedule.everyMS.value <= MAX_INT64
  {
    NextStep(job, ticks, i, true, cron);
  }

  /** When the sum does not fit, the next time wraps below zero and the job never starts again. */
  lemma {:induction false} OverflowStopsForever(job: Job, ticks: seq<Tick>, i: nat, k: nat, cron: CronNext)
    requires Starts(job, ticks, i, true, cron) && job.schedule.kind.KindEvery? && i < k <= |ticks|
    requires job.schedule.everyMS.Some? && ticks[i].done + job.schedule.everyMS.value > MAX_INT64
    ensures NextAt(job, ticks, k, true, cron) < 0 && !Starts(job, ticks, k, true, cron)
  {
    if k > i + 1 { OverflowStopsForever(job, ticks, i, k - 1, cron); }
    NextStep(job, ticks, k - 1, true, cron);
  }

  lemma {:induction false} OverflowWitness(cron: CronNext) returns (job: Job, ticks: seq<Tick>)
    ensures Clocked(ticks) && Starts(job, ticks, 0, true, cron) && job.schedule.kind.KindEvery? && |ticks| == 1
    ensures NextAt(job, ticks, 1, true, cron) < 0
  {
    var sched := Schedule(KindEvery, None, Some(MAX_INT64), "", "");
    job := Job("j", "", "", true, sched, Payload("", "", "", "", "", ""), JobState(0, 1, 0, 0, 0));
    ticks := [Tick(1, 1, false)];
    assert Due(Before(job, ticks, 0, true, cron), 1);
    NextStep(job, ticks, 0, true, cron);
  }

  // ---------------------------------------------------------------- exactly when a job starts

  /** A job starts at a poll exactly if it is enabled and its stored next time is positive and not after the poll. */
  lemma {:induction false} StartsExactly(job: Job, ticks: seq<Tick>, k: nat, dispatcher: bool, cron: CronNext)
    requires k < |ticks|
    ensures Starts(job, ticks, k, dispatcher, cron) <==>
            var next := Before(job, ticks, k, dispatcher, cron).state.nextRunAtMS;
            job.enabled && 0 < next <= ticks[k].now
  {
  }

  /** A disabled job is left as it is by every poll, whatever its kind and its stored next time. */
  lemma {:induction false} DisabledJobRests(job: Job, ticks: seq<Tick>, k: nat, dispatcher: bool, cron: CronNext)
    requires !job.enabled && k <= |ticks|
    ensures Before(job, ticks, k, dispatcher, cron) == job && !Starts(job, ticks, k, dispatcher, cron)
  {
    if k > 0 { DisabledJobRests(job, ticks, k - 1, dispatcher, cron); }
  }

  /** Once scheduled, a next time stays until the job starts. */
  lemma {:induction false} NextHolds(job: Job, ticks: seq<Tick>, i: nat, k: nat, dispatcher: bool, cron: CronNext)
    requires i <= k <= |ticks| && NextAt(job, ticks, i, dispatcher, cron) != 0
    requires forall l :: i <= l < k ==> !Starts(job, ticks, l, dispatcher, cron)
    ensures NextAt(job, ticks, k, dispatcher, cron) == NextAt(job, ticks, i, dispatcher, cron)
  {
    if i < k {
      NextHolds(job, ticks, i, k - 1, dispatcher, cron);
      assert !Starts(job, ticks, k - 1, dispatcher, cron);
      NextStep(job, ticks, k - 1, dispatcher, cron);
    }
  }

  /** An "every" job that started at poll i starts next at exactly the first poll that comes the interval after the
      end of that run, as long as that time fits 64 bits. */
  lemma {:induction false} EveryStartsExactly(job: Job, ticks: seq<Tick>, i: nat, k: nat, dispatcher: bool,
      cron: CronNext)
    requires Starts(job, ticks, i, dispatcher, cron) && i < k < |ticks| && job.schedule.kind.KindEvery?
    requires forall l :: i < l < k ==> !Starts(job, ticks, l, dispatcher, cron)
    requires job.schedule.everyMS.Some? && job.schedule.everyMS.value > 0
    requires 0 < Anchor(ticks[i], dispatcher) + job.schedule.everyMS.value <= MAX_INT64
    ensures Starts(job, ticks, k, dispatcher, cron) <==>
            ticks[k].now >= Anchor(ticks[i], dispatcher) + job.schedule.everyMS.value
  {
    NextStep(job, ticks, i, dispatcher, cron);
    NextHolds(job, ticks, i + 1, k, dispatcher, cron);
  }

  /** And one that begins unscheduled starts at exactly the first poll that comes the interval after the first poll. */
  lemma {:induction false} EveryFirstStartExactly(job: Job, ticks: seq<Tick>, k: nat, dispatcher: bool, cron: CronNext)
    requires job.enabled && job.state.nextRunAtMS == 0 && 0 < k < |ticks| && job.schedule.kind.KindEvery?
    requires forall l :: 0 <= l < k ==> !Starts(job, ticks, l, dispatcher, cron)
    requires job.schedule.everyMS.Some? && job.schedule.everyMS.value > 0
    requires 0 < ticks[0].now + job.schedule.everyMS.value <= MAX_INT64
    ensures Starts(job, ticks, k, dispatcher, cron) <==> ticks[k].now >= ticks[0].now + job.schedule.everyMS.value
  {
    assert !Starts(job, ticks, 0, dispatcher, cron);
    NextStep(job, ticks, 0, dispatcher, cron);
    NextHolds(job, ticks, 1, k, dispatcher, cron);
  }

  /** A cron job starts next at exactly the first poll at or after the time the expression gives for the end of its
      last run. */
  lemma {:induction false} CronStartsExactly(job: Job, ticks: seq<Tick>, i: nat, k: nat, dispatcher: bool,
      cron: CronNext)
    requires Starts(job, ticks, i, dispatcher, cron) && i < k < |ticks| && job.schedule.kind.KindCron?
    requires forall l :: i < l < k ==> !Starts(job, ticks, l, dispatcher, cron)
    requires job.schedule.expr != "" && cron(job.schedule, Anchor(ticks[i], dispatcher)) > 0
    ensures Starts(job, ticks, k, dispatcher, cron) <==>
            ticks[k].now >= cron(job.schedule, Anchor(ticks[i], dispatcher))
  {
    NextStep(job, ticks, i, dispatcher, cron);
    NextHolds(job, ticks, i + 1, k, dispatcher, cron);
  }

  /** The schedule lacks what its kind needs, or its kind is unknown. */
  predicate Unusable(s: Schedule) {
    || (s.kind.KindEvery? && (s.everyMS.None? || s.everyMS.value <= 0))
    || (s.kind.KindCron? && s.expr == "")
    || (s.kind.KindAt? && s.atMS.None?)
    || s.kind.KindOther?
  }

  /** A job without a usable schedule never starts once it is unscheduled. */
  lemma {:induction false} UnusableNeverStarts(job: Job, ticks: seq<Tick>, i: nat, k: nat, dispatcher: bool,
      cron: CronNext)
    requires i <= k < |ticks| && NextAt(job, ticks, i, dispatcher, cron) == 0
    requires Unusable(job.schedule)
    ensures NextAt(job, ticks, k, dispatcher, cron) == 0 && !Starts(job, ticks, k, dispatcher, cron)
  {
    if i < k {
      UnusableNeverStarts(job, ticks, i, k - 1, dispatcher, cron);
      NextStep(job, ticks, k - 1, dispatcher, cron);
    }
  }

  // ---------------------------------------------------------------- one-shot jobs

  /** The next time of an "at" job that began unscheduled: its instant while that is still ahead of the last
      poll or has not been noticed yet, zero otherwise. */
  lemma {:induction false} AtNext(job: Job, ticks: seq<Tick>, k: nat, dispatcher: bool, cron: CronNext)
    requires Clocked(ticks) && k <= |ticks| && job.schedule.kind.KindAt? && job.state.nextRunAtMS == 0
    ensures var at := job.schedule.atMS;
      NextAt(job, ticks, k, dispatcher, cron) ==
        if k > 0 && job.enabled && at.Some? && ticks[0].now < at.value
            && (at.value <= 0 || k == 1 || ticks[k - 1].now < at.value)
        then at.value else 0
  {
    if k > 0 {
      AtNext(job, ticks, k - 1, dispatcher, cron);
      NextStep(job, ticks, k - 1, dispatcher, cron);
    }
  }

  /** An "at" job starts at exactly the first poll at or after its instant, provided an earlier poll saw it
      before that instant. */
  lemma {:induction false} AtJobStartsExactly(job: Job, ticks: seq<Tick>, k: nat, dispatcher: bool, cron: CronNext)
    requires Clocked(ticks) && job.schedule.kind.KindAt? && job.state.nextRunAtMS == 0 && k < |ticks|
    ensures Starts(job, ticks, k, dispatcher, cron) <==>
      && job.enabled && job.schedule.atMS.Some? && job.schedule.atMS.value > 0
      && k > 0 && ticks[k - 1].now < job.schedule.atMS.value <= ticks[k].now
  {
    AtNext(job, ticks, k, dispatcher, cron);
  }

  /** Hence at most once and never early. */
  lemma {:induction false} AtJobStartsOnce(job: Job, ticks: seq<Tick>, i: nat, j: nat, dispatcher: bool, cron: CronNext)
    requires Clocked(ticks) && job.schedule.kind.KindAt? && job.state.nextRunAtMS == 0
    requires Starts(job, ticks, i, dispatcher, cron) && Starts(job, ticks, j, dispatcher, cron)
    ensures i == j && job.schedule.atMS.Some? && job.schedule.atMS.value <= ticks[i].now
  {
    AtJobStartsExactly(job, ticks, i, dispatcher, cron);
    AtJobStartsExactly(job, ticks, j, dispatcher, cron);
  }

  /** An "at" job whose instant has passed at the first poll never starts, however long the polls go on. */
  lemma {:induction false} LateAtJobNeverStarts(job: Job, ticks: seq<Tick>, k: nat, dispatcher: bool, cron: CronNext)
    requires Clocked(ticks) && job.schedule.kind.KindAt? && job.state.nextRunAtMS == 0 && k < |ticks|
    requires job.schedule.atMS.Some? && job.schedule.atMS.value <= ticks[0].now
    ensures !Starts(job, ticks, k, dispatcher, cron)
  {
    AtJobStartsExactly(job, ticks, k, dispatcher, cron);
  }

  /** Such a job: enabled, set for 5, first polled at 6. */
  lemma {:induction false} LateAtJob(cron: CronNext) returns (job: Job, ticks: seq<Tick>)
    ensures Clocked(ticks) && job.enabled && job.schedule.kind.KindAt? && job.state.nextRunAtMS == 0
    ensures job.schedule.atMS == Some(5) && |ticks| == 2 && ticks[0].now == 6
    ensures forall k, dispatcher :: !Starts(job, ticks, k, dispatcher, cron)
  {
    var sched := Schedule(KindAt, Some(5), None, "", "");
    job := Job("j", "", "", true, sched, Payload("", "", "", "", "", ""), JobState(0, 0, 0, 0, 0));
    ticks := [Tick(6, 6, false), Tick(7, 7, false)];
    forall k: nat, dispatcher | k < |ticks| ensures !Starts(job, ticks, k, dispatcher, cron) {
      LateAtJobNeverStarts(job, ticks, k, dispatcher, cron);
    }
  }

  // ---------------------------------------------------------------- restarts

  /** A job in memory and on disk. */
  datatype Kept = Kept(mem: Job, disk: Job)

  /** A poll, whether its write reached the disk, and whether the process is restarted before the next one. A crash
      during the dispatches is a poll without a write and then a restart. */
  datatype Moment = Moment(tick: Tick, written: bool, restarts: bool)

  function Lived(k: Kept, m: Moment, dispatcher: bool, cron: CronNext): Kept {
    var mem := Polled(k.mem, m.tick, dispatcher, cron);
    var disk := if m.written then mem else k.disk;
    Kept(if m.restarts then disk else mem, disk)
  }

  /** The restart brings back an older state of the job. */
  predicate Loses(k: Kept, m: Moment, dispatcher: bool, cron: CronNext) {
    m.restarts && !m.written && k.disk != Polled(k.mem, m.tick, dispatcher, cron)
  }

  /** Right after a start, and before the next regular time, a restarted process starts the job once more exactly if
      the write after the dispatch was lost. */
  lemma {:induction false} RestartRepeatsExactly(job: Job, m: Moment, later: Int64, cron: CronNext)
    requires Due(job, m.tick.now) && m.restarts && m.tick.now <= later
    requires var next := ComputeNextRun(job.schedule, m.tick.done, cron); next <= 0 || later < next
    ensures Due(Lived(Kept(job, job), m, true, cron).mem, later) <==> !m.written
  {
  }

  function KeptBefore(job: Job, ms: seq<Moment>, n: nat, dispatcher: bool, cron: CronNext): (k: Kept)
    requires n <= |ms|
    ensures k.mem.schedule == k.disk.schedule == job.schedule
  {
    if n == 0 then Kept(job, job) else Lived(KeptBefore(job, ms, n - 1, dispatcher, cron), ms[n - 1], dispatcher, cron)
  }

  predicate StartsAt(job: Job, ms: seq<Moment>, n: nat, dispatcher: bool, cron: CronNext)
    requires n < |ms|
  {
    Due(KeptBefore(job, ms, n, dispatcher, cron).mem, ms[n].tick.now)
  }

  function StartsWithin(job: Job, ms: seq<Moment>, n: nat, dispatcher: bool, cron: CronNext): nat
    requires n <= |ms|
  {
    if n == 0 then 0
    else StartsWithin(job, ms, n - 1, dispatcher, cron) + if StartsAt(job, ms, n - 1, dispatcher, cron) then 1 else 0
  }

  function LossesWithin(job: Job, ms: seq<Moment>, n: nat, dispatcher: bool, cron: CronNext): nat
    requires n <= |ms|
  {
    if n == 0 then 0
    else
      LossesWithin(job, ms, n - 1, dispatcher, cron) +
      if Loses(KeptBefore(job, ms, n - 1, dispatcher, cron), ms[n - 1], dispatcher, cron) then 1 else 0
  }

  ghost predicate MomentsClocked(ms: seq<Moment>) {
    && (forall k :: 0 <= k < |ms| ==> ms[k].tick.now <= ms[k].tick.done)
    && (forall k, l :: 0 <= k < l < |ms| ==> ms[k].tick.done <= ms[l].tick.now)
  }

  /** The job may still start: it is scheduled, or its instant is ahead of the last poll. */
  predicate Armed(job: Job, ms: seq<Moment>, n: nat, dispatcher: bool, cron: CronNext)
    requires n <= |ms|
  {
    || KeptBefore(job, ms, n, dispatcher, cron).mem.state.nextRunAtMS != 0
    || n == 0 || job.schedule.atMS.None? || ms[n - 1].tick.now < job.schedule.atMS.value
  }

  lemma {:induction false} AtNextKept(job: Job, ms: seq<Moment>, n: nat, dispatcher: bool, cron: CronNext)
    requires n <= |ms| && job.schedule.kind.KindAt? && job.state.nextRunAtMS == 0
    ensures var k := KeptBefore(job, ms, n, dispatcher, cron); var mem, disk := k.mem.state, k.disk.state;
            && (mem.nextRunAtMS == 0 || Some(mem.nextRunAtMS) == job.schedule.atMS)
            && (disk.nextRunAtMS == 0 || Some(disk.nextRunAtMS) == job.schedule.atMS)
  {
    if n > 0 { AtNextKept(job, ms, n - 1, dispatcher, cron); }
  }

  /** Over every run with restarts an "at" job starts at most once, and once more for each restart that brought back
      an older state. */
  lemma {:induction false} AtStartsAcrossRestarts(job: Job, ms: seq<Moment>, n: nat, dispatcher: bool, cron: CronNext)
    requires n <= |ms| && MomentsClocked(ms) && job.schedule.kind.KindAt? && job.state.nextRunAtMS == 0
    ensures StartsWithin(job, ms, n, dispatcher, cron) + (if Armed(job, ms, n, dispatcher, cron) then 1 else 0)
            <= 1 + LossesWithin(job, ms, n, dispatcher, cron)
  {
    if n > 0 {
      AtStartsAcrossRestarts(job, ms, n - 1, dispatcher, cron);
      AtNextKept(job, ms, n - 1, dispatcher, cron);
    }
  }

  // ---------------------------------------------------------------- accounting

  function StartCount(job: Job, ticks: seq<Tick>, k: nat, dispatcher: bool, cron: CronNext): nat
    requires k <= |ticks|
  {
    if k == 0 then 0
    else StartCount(job, ticks, k - 1, dispatcher, cron) + if Starts(job, ticks, k - 1, dispatcher, cron) then 1 else 0
  }

  function FailedCount(job: Job, ticks: seq<Tick>, k: nat, dispatcher: bool, cron: CronNext): nat
    requires k <= |ticks|
  {
    if k == 0 then 0
    else FailedCount(job, ticks, k - 1, dispatcher, cron) +
         if Starts(job, ticks, k - 1, dispatcher, cron) && ticks[k - 1].failed then 1 else 0
  }

  function Unbooked(job: Job): int { job.state.runCount - job.state.successCount - job.state.failureCount }

  /** Every start is counted, and with a dispatcher every start is booked: as a failure if its dispatch failed,
      as a success otherwise. */
  lemma {:induction false} StartsAreBooked(job: Job, ticks: seq<Tick>, k: nat, dispatcher: bool, cron: CronNext)
    requires k <= |ticks|
    ensures Before(job, ticks, k, dispatcher, cron).state.runCount ==
        job.state.runCount + StartCount(job, ticks, k, dispatcher, cron)
    ensures Unbooked(Before(job, ticks, k, dispatcher, cron)) ==
      Unbooked(job) + if dispatcher then 0 else StartCount(job, ticks, k, dispatcher, cron)
    ensures Before(job, ticks, k, dispatcher, cron).state.failureCount ==
      job.state.failureCount + if dispatcher then FailedCount(job, ticks, k, dispatcher, cron) else 0
  {
    if k > 0 { StartsAreBooked(job, ticks, k - 1, dispatcher, cron); }
  }

  /** LastRunAtMS is the time of the latest start. */
  lemma {:induction false} LastRunIsLatestStart(job: Job, ticks: seq<Tick>, i: nat, k: nat, dispatcher: bool,
      cron: CronNext)
    requires Starts(job, ticks, i, dispatcher, cron) && i < k <= |ticks|
    requires forall l :: i < l < k ==> !Starts(job, ticks, l, dispatcher, cron)
    ensures Before(job, ticks, k, dispatcher, cron).state.lastRunAtMS == ticks[i].now
  {
    if k > i + 1 {
      LastRunIsLatestStart(job, ticks, i, k - 1, dispatcher, cron);
      assert !Starts(job, ticks, k - 1, dispatcher, cron);
    }
  }

  /** A balanced account stays balanced exactly if there is a dispatcher or nothing was started. */
  lemma {:induction false} BalanceKeptExactly(job: Job, ticks: seq<Tick>, dispatcher: bool, cron: CronNext)
    requires Unbooked(job) == 0
    ensures Unbooked(Before(job, ticks, |ticks|, dispatcher, cron)) == 0 <==>
            dispatcher || StartCount(job, ticks, |ticks|, dispatcher, cron) == 0
  {
    StartsAreBooked(job, ticks, |ticks|, dispatcher, cron);
  }

  /** A balanced job that is due once while there is no dispatcher. */
  lemma {:induction false} UndispatchedIsUnbooked(cron: CronNext) returns (job: Job, ticks: seq<Tick>)
    ensures Clocked(ticks) && |ticks| == 1 && Unbooked(job) == 0
    ensures Before(job, ticks, 1, false, cron).state.runCount == 1 && Unbooked(Before(job, ticks, 1, false, cron)) == 1
  {
    var sched := Schedule(KindEvery, None, Some(10), "", "");
    job := Job("j", "", "", true, sched, Payload("", "", "", "", "", ""), JobState(0, 1, 0, 0, 0));
    ticks := [Tick(1, 1, false)];
    assert Due(Before(job, ticks, 0, false, cron), 1);
    assert StartCount(job, ticks, 0, false, cron) == 0;
    StartsAreBooked(job, ticks, 1, false, cron);
  }

  // ---------------------------------------------------------------- whole runs of the list

  datatype PollEvent = PollEvent(now: Int64, done: Int64, results: seq<DispatchResult>)

  /** lists[k] is the job list before poll k, each poll finishing its due jobs in some order. */
  ghost predicate ListRun(lists: seq<seq<Job>>, polls: seq<PollEvent>, dispatcher: bool, cron: CronNext) {
    && |lists| == |polls| + 1
    && forall k :: 0 <= k < |polls| ==>
         && Finished(polls[k].results, DueIn(lists[k], polls[k].now))
         && PolledList(lists[k], polls[k].now, polls[k].done, polls[k].results, dispatcher, cron, lists[k + 1])
  }

  ghost function TicksOf(polls: seq<PollEvent>, i: nat): seq<Tick> {
    seq(|polls|, k requires 0 <= k < |polls| => Tick(polls[k].now, polls[k].done, FailedAt(polls[k].results, i)))
  }

  /** In a run of the list every job makes its own run, so the theorems above hold of each of them. */
  lemma {:induction false} JobsRunAlone(lists: seq<seq<Job>>, polls: seq<PollEvent>, i: nat, k: nat,
      dispatcher: bool, cron: CronNext)
    requires ListRun(lists, polls, dispatcher, cron) && k <= |polls| && i < |lists[0]|
    ensures |lists[k]| == |lists[0]| && lists[k][i] == Before(lists[0][i], TicksOf(polls, i), k, dispatcher, cron)
  {
    if k > 0 {
      JobsRunAlone(lists, polls, i, k - 1, dispatcher, cron);
      assert PolledList(lists[k - 1], polls[k - 1].now, polls[k - 1].done, polls[k - 1].results, dispatcher, cron,
          lists[k - 1 + 1]);
    }
  }

  /** Accounts balanced before a run of the list with a dispatcher are balanced after it. */
  lemma {:induction false} AccountsBalance(lists: seq<seq<Job>>, polls: seq<PollEvent>, cron: CronNext)
    requires ListRun(lists, polls, true, cron)
    requires forall i :: 0 <= i < |lists[0]| ==> Unbooked(lists[0][i]) == 0
    ensures |lists[|polls|]| == |lists[0]| && forall i :: 0 <= i < |lists[0]| ==> Unbooked(lists[|polls|][i]) == 0
  {
    forall i: nat | i < |lists[0]| ensures |lists[|polls|]| == |lists[0]| && Unbooked(lists[|polls|][i]) == 0 {
      JobsRunAlone(lists, polls, i, |polls|, true, cron);
      StartsAreBooked(lists[0][i], TicksOf(polls, i), |polls|, true, cron);
    }
    SameLengths(lists, polls, |polls|, cron);
  }

  lemma {:induction false} SameLengths(lists: seq<seq<Job>>, polls: seq<PollEvent>, k: nat, cron: CronNext)
    requires ListRun(lists, polls, true, cron) && k <= |polls|
    ensures |lists[k]| == |lists[0]|
  {
    if k > 0 {
      SameLengths(lists, polls, k - 1, cron);
      assert PolledList(lists[k - 1], polls[k - 1].now, polls[k - 1].done, polls[k - 1].results, true, cron,
          lists[k - 1 + 1]);
    }
  }
}
