/**
 Reconciling file-defined jobs with the stored list: internal/cron/cron.go and the modular half of
 internal/cron/scheduler.go.
*/
module CronReconcile {
  import opened CronJobs
  import S = CronSchedule

  const MODULAR := "modular"

  ghost function Ids(jobs: seq<Job>): set<string> { set i | 0 <= i < |jobs| :: jobs[i].id }

  ghost predicate Unique(jobs: seq<Job>) { forall i, j :: 0 <= i < j < |jobs| ==> jobs[i].id != jobs[j].id }

  // ---------------------------------------------------------------- specification

  function FirstIndex(jobs: seq<Job>, id: string): (k: nat)
    ensures k <= |jobs| && (k < |jobs| ==> jobs[k].id == id)
    ensures forall j :: 0 <= j < k ==> jobs[j].id != id
  {
    if jobs == [] || jobs[0].id == id then 0 else 1 + FirstIndex(jobs[1..], id)
  }

  /** The snapshot job as it is appended: owned by the files, with the cached run state. */
  function Marked(mj: Job, cache: map<string, JobState>): Job {
    mj.(source := MODULAR, state := if mj.id in cache then cache[mj.id] else mj.state)
  }

  /** The stored job as it is updated: everything but id and run state comes from the file. */
  function Overlaid(job: Job, mj: Job): Job {
    job.(schedule := mj.schedule, payload := mj.payload, name := mj.name, enabled := mj.enabled, source := MODULAR)
  }

  function Put(jobs: seq<Job>, mj: Job, cache: map<string, JobState>): seq<Job> {
    var k := FirstIndex(jobs, mj.id);
    if k < |jobs| then jobs[k := Overlaid(jobs[k], mj)] else jobs + [Marked(mj, cache)]
  }

  function Merge(jobs: seq<Job>, mods: seq<Job>, cache: map<string, JobState>): seq<Job>
    decreases |mods|
  {
    if mods == [] then jobs else Put(Merge(jobs, mods[..|mods| - 1], cache), mods[|mods| - 1], cache)
  }

  predicate Present(mods: seq<Job>, id: string) { exists i :: 0 <= i < |mods| && mods[i].id == id }

  predicate Keeps(job: Job, mods: seq<Job>, complete: bool) {
    !complete || job.source != MODULAR || Present(mods, job.id)
  }

  function Retained(jobs: seq<Job>, mods: seq<Job>, complete: bool): seq<Job>
    decreases |jobs|
  {
    if jobs == [] then []
    else
      var n := |jobs| - 1;
      Retained(jobs[..n], mods, complete) + if Keeps(jobs[n], mods, complete) then [jobs[n]] else []
  }

  function Cache(jobs: seq<Job>): map<string, JobState>
    decreases |jobs|
  {
    if jobs == [] then map[]
    else Cache(jobs[..|jobs| - 1])[jobs[|jobs| - 1].id := jobs[|jobs| - 1].state]
  }

  function Reconciled(jobs: seq<Job>, mods: seq<Job>, complete: bool): seq<Job> {
    Merge(Retained(jobs, mods, complete), mods, Cache(jobs))
  }

  // ---------------------------------------------------------------- the loops

  /** A slice: the first `len` places of an array that may be longer and may be shared. */
  datatype Slice = Slice(buf: array<Job>, len: nat)

  /** append: writes behind the end while there is room, and moves to a larger array otherwise. */
  method Append(s: Slice, job: Job) returns (t: Slice)
    requires s.len <= s.buf.Length
    modifies s.buf
    ensures t.len == s.len + 1 <= t.buf.Length && t.buf[..t.len] == old(s.buf[..s.len]) + [job]
    ensures t.buf == s.buf || fresh(t.buf)
    ensures s.buf[..s.len] == old(s.buf[..s.len])
  {
    if s.len < s.buf.Length {
      s.buf[s.len] := job;
      return Slice(s.buf, s.len + 1);
    }
    var jobs := s.buf[..s.len];
    var grown := new Job[2 * s.len + 1](i requires 0 <= i => if i < |jobs| then jobs[i] else job);
    assert grown[..s.len] == jobs;
    t := Slice(grown, s.len + 1);
  }

  /** The inner loop of MergeModularJobs: the first stored job with the id takes the new definition, in place. */
  method UpdateStored(store: Slice, mj: Job) returns (found: bool)
    requires store.len <= store.buf.Length
    modifies store.buf
    ensures found <==> FirstIndex(old(store.buf[..store.len]), mj.id) < store.len
    ensures var jobs, k := old(store.buf[..store.len]), FirstIndex(old(store.buf[..store.len]), mj.id);
            store.buf[..store.len] == if found then jobs[k := Overlaid(jobs[k], mj)] else jobs
  {
    ghost var jobs := store.buf[..store.len];
    for j := 0 to store.len
      invariant store.buf[..store.len] == jobs && forall k :: 0 <= k < j ==> jobs[k].id != mj.id
    {
      if store.buf[j].id != mj.id {
        continue;
      }
      assert jobs[j] == store.buf[j] && FirstIndex(jobs, mj.id) == j;
      store.buf[j] := store.buf[j].(schedule := mj.schedule, payload := mj.payload, name := mj.name,
                                    enabled := mj.enabled, source := MODULAR);
      return true;
    }
    found := false;
  }

  /** One round of MergeModularJobs, for the snapshot entry i. */
  method MergeOne(store: Slice, modularJobs: array<Job>, i: nat, cache: map<string, JobState>) returns (merged: Slice)
    requires store.len <= store.buf.Length && store.buf != modularJobs && i < modularJobs.Length
    modifies store.buf, modularJobs
    ensures merged.len <= merged.buf.Length && (merged.buf == store.buf || fresh(merged.buf))
    ensures merged.buf[..merged.len] == Put(old(store.buf[..store.len]), old(modularJobs[i]), cache)
    ensures modularJobs[..] == old(modularJobs[..])[i := Marked(old(modularJobs[i]), cache)]
  {
    var mj := modularJobs[i];
    modularJobs[i] := mj.(source := MODULAR);
    if mj.id in cache {
      modularJobs[i] := modularJobs[i].(state := cache[mj.id]);
    }
    var found := UpdateStored(store, mj);
    if found {
      return store;
    }
    merged := Append(store, modularJobs[i]);
  }

  /** Works in place on the slice it is given, so a caller that keeps the old list must hand over a copy. */
  method MergeModularJobs(storeJobs: Slice, modularJobs: array<Job>, cache: map<string, JobState>)
    returns (merged: Slice)
    requires storeJobs.len <= storeJobs.buf.Length && storeJobs.buf != modularJobs
    modifies storeJobs.buf, modularJobs
    ensures merged.len <= merged.buf.Length && (merged.buf == storeJobs.buf || fresh(merged.buf))
    ensures merged.buf[..merged.len] == Merge(old(storeJobs.buf[..storeJobs.len]), old(modularJobs[..]), cache)
    ensures forall i :: 0 <= i < modularJobs.Length ==> modularJobs[i] == Marked(old(modularJobs[i]), cache)
  {
    merged := storeJobs;
    ghost var stored, mods := storeJobs.buf[..storeJobs.len], modularJobs[..];
    for i := 0 to modularJobs.Length
      invariant merged.len <= merged.buf.Length && (merged.buf == storeJobs.buf || fresh(merged.buf))
      invariant merged.buf != modularJobs
      invariant forall k :: 0 <= k < i ==> modularJobs[k] == Marked(mods[k], cache)
      invariant forall k :: i <= k < modularJobs.Length ==> modularJobs[k] == mods[k]
      invariant merged.buf[..merged.len] == Merge(stored, mods[..i], cache)
    {
      assert mods[..i + 1][..i] == mods[..i];
      merged := MergeOne(merged, modularJobs, i, cache);
      assert forall k :: 0 <= k < modularJobs.Length ==> modularJobs[k] == modularJobs[..][k];
    }
    assert mods[..modularJobs.Length] == mods;
  }

  /** The merge works on a slice made here, so the stored list is left as it is and the caller can compare it with
      the result. */
  method ReconcileModularJobs(storeJobs: Slice, modularJobs: array<Job>, complete: bool) returns (merged: Slice)
    requires storeJobs.len <= storeJobs.buf.Length && storeJobs.buf != modularJobs
    modifies modularJobs
    ensures merged.len <= merged.buf.Length && fresh(merged.buf)
    ensures merged.buf[..merged.len] ==
            Reconciled(old(storeJobs.buf[..storeJobs.len]), old(modularJobs[..]), complete)
    ensures storeJobs.buf[..] == old(storeJobs.buf[..])
  {
    var cache: map<string, JobState> := map[];
    ghost var stored, mods := storeJobs.buf[..storeJobs.len], modularJobs[..];
    var present := IdsOf(modularJobs);
    var made := new Job[storeJobs.len];
    var retained := Slice(made, 0);
    for i := 0 to storeJobs.len
      invariant retained.len <= retained.buf.Length && fresh(retained.buf)
      invariant storeJobs.buf[..] == old(storeJobs.buf[..]) && modularJobs[..] == mods
      invariant cache == Cache(stored[..i])
      invariant retained.buf[..retained.len] == Retained(stored[..i], mods, complete)
    {
      assert stored[..i + 1][..i] == stored[..i];
      var job := storeJobs.buf[i];
      cache := cache[job.id := job.state];
      if !complete || job.source != MODULAR || job.id in present {
        retained := Append(retained, job);
      }
    }
    assert stored[..storeJobs.len] == stored;
    merged := MergeModularJobs(retained, modularJobs, cache);
  }

  method IdsOf(modularJobs: array<Job>) returns (present: set<string>)
    ensures forall id :: id in present <==> Present(modularJobs[..], id)
  {
    present := {};
    for i := 0 to modularJobs.Length
      invariant present == Ids(modularJobs[..i])
    {
      assert modularJobs[..i + 1] == modularJobs[..i] + [modularJobs[i]];
      present := present + {modularJobs[i].id};
    }
    assert modularJobs[..modularJobs.Length] == modularJobs[..];
  }

  // ---------------------------------------------------------------- what a merge does, place by place

  /** The last snapshot entry with a given id: later files win. */
  ghost function LastOf(mods: seq<Job>, id: string): (mj: Job)
    requires Present(mods, id)
    ensures mj in mods && mj.id == id
    decreases |mods|
  {
    var n := |mods| - 1;
    if mods[n].id == id then mods[n] else LastOf(mods[..n], id)
  }

  /** No earlier place holds the same id. */
  ghost predicate First(jobs: seq<Job>, k: nat) {
    k < |jobs| && forall j :: 0 <= j < k ==> jobs[j].id != jobs[k].id
  }

  lemma {:induction false} PresentLast(mods: seq<Job>, id: string)
    requires mods != []
    ensures var n := |mods| - 1; Present(mods, id) == (Present(mods[..n], id) || mods[n].id == id)
  {
    var n := |mods| - 1;
    if Present(mods[..n], id) {
      var i :| 0 <= i < n && mods[..n][i].id == id;
      assert mods[i].id == id;
    }
  }

  /** A stored place keeps its id and run state; it takes its definition from the last entry for its id,
      if it is the first place with that id, and is untouched otherwise. */
  lemma {:induction false} MergePlaces(jobs: seq<Job>, mods: seq<Job>, cache: map<string, JobState>, k: nat)
    requires k < |jobs|
    ensures var merged := Merge(jobs, mods, cache);
      && |merged| >= |jobs|
      && (forall j :: 0 <= j <= k ==> merged[j].id == jobs[j].id)
      && merged[k] == if First(jobs, k) && Present(mods, jobs[k].id) then Overlaid(jobs[k], LastOf(mods, jobs[k].id))
          else jobs[k]
    decreases |mods|
  {
    if mods != [] {
      var n := |mods| - 1;
      MergePlaces(jobs, mods[..n], cache, k);
      PresentLast(mods, jobs[k].id);
      var before := Merge(jobs, mods[..n], cache);
      assert First(jobs, k) == First(before, k);
      assert FirstIndex(before, mods[n].id) == k <==> First(before, k) && before[k].id == mods[n].id;
    }
  }

  /** A merge adds exactly the missing snapshot ids, and repeats none. */
  lemma {:induction false} MergeIds(jobs: seq<Job>, mods: seq<Job>, cache: map<string, JobState>)
    ensures Ids(Merge(jobs, mods, cache)) == Ids(jobs) + Ids(mods)
    ensures Unique(jobs) ==> Unique(Merge(jobs, mods, cache))
    decreases |mods|
  {
    if mods != [] {
      var n := |mods| - 1;
      MergeIds(jobs, mods[..n], cache);
      assert mods == mods[..n] + [mods[n]];
      assert Ids(mods) == Ids(mods[..n]) + {mods[n].id};
      PutIds(Merge(jobs, mods[..n], cache), mods[n], cache);
    }
  }

  lemma {:induction false} PutIds(jobs: seq<Job>, mj: Job, cache: map<string, JobState>)
    ensures Ids(Put(jobs, mj, cache)) == Ids(jobs) + {mj.id}
    ensures Unique(jobs) ==> Unique(Put(jobs, mj, cache))
  {
    var k, after := FirstIndex(jobs, mj.id), Put(jobs, mj, cache);
    assert forall i :: 0 <= i < |jobs| ==> after[i].id == jobs[i].id;
    assert k < |jobs| ==> jobs[k].id in Ids(jobs);
    assert k == |jobs| ==> after[|jobs|].id == mj.id && mj.id !in Ids(jobs);
    forall id ensures id in Ids(after) <==> id in Ids(jobs) || id == mj.id {
      if id in Ids(jobs) { var i :| 0 <= i < |jobs| && jobs[i].id == id; assert after[i].id == id; }
    }
  }

  /** The definition at a place agrees with the last snapshot entry for its id. */
  ghost predicate Agrees(jobs: seq<Job>, mods: seq<Job>, k: nat) {
    First(jobs, k) && Present(mods, jobs[k].id) ==> Overlaid(jobs[k], LastOf(mods, jobs[k].id)) == jobs[k]
  }

  /** After a merge every place agrees with the snapshot. */
  lemma {:induction false} MergeAgrees(jobs: seq<Job>, mods: seq<Job>, cache: map<string, JobState>, k: nat)
    requires k < |Merge(jobs, mods, cache)|
    ensures Agrees(Merge(jobs, mods, cache), mods, k)
    decreases |mods|
  {
    if mods != [] {
      var n := |mods| - 1;
      var before, after := Merge(jobs, mods[..n], cache), Merge(jobs, mods, cache);
      PresentLast(mods, after[k].id);
      if k < |before| {
        MergeAgrees(jobs, mods[..n], cache, k);
        assert forall j :: 0 <= j < |before| ==> after[j].id == before[j].id;
        assert First(before, k) == First(after, k);
      } else {
        assert after[k] == Marked(mods[n], cache);
      }
    }
  }

  /** A list that holds every snapshot id and agrees everywhere is left as it is. */
  lemma {:induction false} MergeOfAgreeing(jobs: seq<Job>, mods: seq<Job>, cache: map<string, JobState>)
    requires Ids(mods) <= Ids(jobs) && forall k :: 0 <= k < |jobs| ==> Agrees(jobs, mods, k)
    ensures Merge(jobs, mods, cache) == jobs
  {
    MergeLength(jobs, mods, cache);
    forall k | 0 <= k < |jobs| ensures Merge(jobs, mods, cache)[k] == jobs[k] {
      assert Agrees(jobs, mods, k);
      MergePlaces(jobs, mods, cache, k);
    }
  }

  lemma {:induction false} MergeLength(jobs: seq<Job>, mods: seq<Job>, cache: map<string, JobState>)
    requires Ids(mods) <= Ids(jobs)
    ensures |Merge(jobs, mods, cache)| == |jobs|
    decreases |mods|
  {
    if mods != [] {
      var n := |mods| - 1;
      assert forall i :: 0 <= i < n ==> mods[..n][i].id == mods[i].id;
      MergeLength(jobs, mods[..n], cache);
      MergeIds(jobs, mods[..n], cache);
      assert mods[n].id in Ids(mods);
      var before := Merge(jobs, mods[..n], cache);
      assert mods[n].id in Ids(before);
      var i :| 0 <= i < |before| && before[i].id == mods[n].id;
      assert FirstIndex(before, mods[n].id) <= i;
    }
  }

  // ---------------------------------------------------------------- what a reconciliation does

  /** The retained list is the stored list without the owned jobs that a complete snapshot lacks. */
  lemma {:induction false} RetainedExactly(jobs: seq<Job>, mods: seq<Job>, complete: bool, job: Job)
    ensures job in Retained(jobs, mods, complete) <==> job in jobs && Keeps(job, mods, complete)
    decreases |jobs|
  {
    if jobs != [] {
      var n := |jobs| - 1;
      RetainedExactly(jobs[..n], mods, complete, job);
      assert jobs == jobs[..n] + [jobs[n]];
    }
  }

  lemma {:induction false} RetainedUnique(jobs: seq<Job>, mods: seq<Job>, complete: bool)
    requires Unique(jobs)
    ensures Unique(Retained(jobs, mods, complete))
    decreases |jobs|
  {
    if jobs != [] {
      var n := |jobs| - 1;
      var before := Retained(jobs[..n], mods, complete);
      RetainedUnique(jobs[..n], mods, complete);
      forall i | 0 <= i < |before| ensures before[i].id != jobs[n].id {
        RetainedExactly(jobs[..n], mods, complete, before[i]);
        assert before[i] in before;
      }
    }
  }

  lemma {:induction false} RetainedAll(jobs: seq<Job>, mods: seq<Job>, complete: bool)
    requires forall k :: 0 <= k < |jobs| ==> Keeps(jobs[k], mods, complete)
    ensures Retained(jobs, mods, complete) == jobs
    decreases |jobs|
  {
    if jobs != [] {
      RetainedAll(jobs[..|jobs| - 1], mods, complete);
      assert jobs == jobs[..|jobs| - 1] + [jobs[|jobs| - 1]];
    }
  }

  /** The ids after a reconciliation: every snapshot id and the stored ids that are not owned by the files,
      or all stored ids when the snapshot is incomplete. */
  lemma {:induction false} ReconciledIds(jobs: seq<Job>, mods: seq<Job>, complete: bool, id: string)
    ensures id in Ids(Reconciled(jobs, mods, complete)) <==>
      Present(mods, id) || exists k :: 0 <= k < |jobs| && jobs[k].id == id && (!complete || jobs[k].source != MODULAR)
  {
    var retained := Retained(jobs, mods, complete);
    MergeIds(retained, mods, Cache(jobs));
    if id in Ids(retained) {
      var i :| 0 <= i < |retained| && retained[i].id == id;
      RetainedExactly(jobs, mods, complete, retained[i]);
      assert retained[i] in jobs;
    }
    if k :| 0 <= k < |jobs| && jobs[k].id == id && (!complete || jobs[k].source != MODULAR) {
      RetainedExactly(jobs, mods, complete, jobs[k]);
      assert jobs[k] in retained;
    }
  }

  /** Unique stored ids stay unique, even if the snapshot repeats an id. */
  lemma {:induction false} ReconciledUnique(jobs: seq<Job>, mods: seq<Job>, complete: bool)
    requires Unique(jobs)
    ensures Unique(Reconciled(jobs, mods, complete))
  {
    RetainedUnique(jobs, mods, complete);
    MergeIds(Retained(jobs, mods, complete), mods, Cache(jobs));
  }

  /** A stored job with a unique id survives exactly if it is not owned by the files or still defined by one;
      it then keeps its run state, and its definition changes only to what the last such file says. */
  lemma {:induction false} SurvivorsKeepState(jobs: seq<Job>, mods: seq<Job>, complete: bool, job: Job, job': Job)
    requires Unique(jobs) && job in jobs && job' in Reconciled(jobs, mods, complete) && job'.id == job.id
    ensures job'.state == job.state
    ensures job' == if Present(mods, job.id) then Overlaid(job, LastOf(mods, job.id)) else job
  {
    var retained, merged := Retained(jobs, mods, complete), Reconciled(jobs, mods, complete);
    ReconciledUnique(jobs, mods, complete);
    RetainedUnique(jobs, mods, complete);
    RetainedExactly(jobs, mods, complete, job);
    if job in retained {
      var k :| 0 <= k < |retained| && retained[k] == job;
      MergePlaces(retained, mods, Cache(jobs), k);
      assert First(retained, k);
      assert merged[k].id == job'.id;
    } else {
      var i :| 0 <= i < |merged| && merged[i] == job';
      assert job.id in Ids(merged);
      ReconciledIds(jobs, mods, complete, job.id);
      assert false;
    }
  }

  /** Every job of the result is wanted by the same snapshot, so a second pass retains them all. */
  lemma {:induction false} ReconciledIsRetained(jobs: seq<Job>, mods: seq<Job>, complete: bool)
    ensures var merged := Reconciled(jobs, mods, complete); Retained(merged, mods, complete) == merged
  {
    var retained, merged := Retained(jobs, mods, complete), Reconciled(jobs, mods, complete);
    MergeIds(retained, mods, Cache(jobs));
    forall k | 0 <= k < |merged| ensures Keeps(merged[k], mods, complete) {
      if k < |retained| {
        MergePlaces(retained, mods, Cache(jobs), k);
        RetainedExactly(jobs, mods, complete, retained[k]);
        assert retained[k] in retained;
      } else {
        AppendedPlaces(retained, mods, Cache(jobs), k);
      }
    }
    RetainedAll(merged, mods, complete);
  }

  ghost function FirstOf(mods: seq<Job>, id: string): Job
    requires Present(mods, id)
  {
    mods[FirstIndex(mods, id)]
  }

  lemma {:induction false} PresentIsId(mods: seq<Job>, id: string)
    ensures Present(mods, id) <==> id in Ids(mods)
  {
  }

  lemma {:induction false} FirstOfPrefix(mods: seq<Job>, id: string)
    requires mods != []
    ensures var n := |mods| - 1;
      if Present(mods[..n], id) then Present(mods, id) && FirstOf(mods, id) == FirstOf(mods[..n], id)
      else mods[n].id == id ==> Present(mods, id) && FirstOf(mods, id) == LastOf(mods, id) == mods[n]
  {
    var n := |mods| - 1;
    PresentLast(mods, id);
    assert forall j :: 0 <= j < n ==> mods[..n][j] == mods[j];
  }

  /** An appended place holds an id the list did not have, once: the state of its first entry, marked as owned,
      under the definition of its last. */
  ghost predicate AppendedOk(jobs: seq<Job>, mods: seq<Job>, cache: map<string, JobState>, merged: seq<Job>, k: nat)
    requires k < |merged|
  {
    var id := merged[k].id;
    First(merged, k) && id !in Ids(jobs) && Present(mods, id)
        && merged[k] == Overlaid(Marked(FirstOf(mods, id), cache), LastOf(mods, id))
  }

  lemma {:induction false} AppendedPlaces(jobs: seq<Job>, mods: seq<Job>, cache: map<string, JobState>, k: nat)
    requires |jobs| <= k < |Merge(jobs, mods, cache)|
    ensures AppendedOk(jobs, mods, cache, Merge(jobs, mods, cache), k)
    decreases |mods|
  {
    var n := |mods| - 1;
    var before, after := Merge(jobs, mods[..n], cache), Merge(jobs, mods, cache);
    MergeIds(jobs, mods[..n], cache);
    PresentLast(mods, after[k].id);
    FirstOfPrefix(mods, after[k].id);
    PresentIsId(mods[..n], after[k].id);
    assert forall j :: 0 <= j < |before| ==> after[j].id == before[j].id;
    if k < |before| {
      AppendedPlaces(jobs, mods[..n], cache, k);
    } else {
      assert after[k].id !in Ids(before);
    }
  }

  lemma {:induction false} CachedAreStored(jobs: seq<Job>, id: string)
    ensures id in Cache(jobs) ==> id in Ids(jobs)
    decreases |jobs|
  {
    if jobs != [] {
      var n := |jobs| - 1;
      CachedAreStored(jobs[..n], id);
      assert jobs == jobs[..n] + [jobs[n]];
    }
  }

  /** A stored job that the snapshot still defines is retained. */
  lemma {:induction false} PresentAreRetained(jobs: seq<Job>, mods: seq<Job>, complete: bool, id: string)
    requires Present(mods, id)
    ensures id in Ids(jobs) ==> id in Ids(Retained(jobs, mods, complete))
  {
    if i :| 0 <= i < |jobs| && jobs[i].id == id {
      RetainedExactly(jobs, mods, complete, jobs[i]);
      assert jobs[i] in Retained(jobs, mods, complete);
    }
  }

  /** A job that a reconciliation adds was not stored before, even if stored jobs were pruned: it starts with the
      run state of its first file and the definition of its last. */
  lemma {:induction false} AddedAsDefined(jobs: seq<Job>, mods: seq<Job>, complete: bool, k: nat)
    requires |Retained(jobs, mods, complete)| <= k < |Reconciled(jobs, mods, complete)|
    ensures var job := Reconciled(jobs, mods, complete)[k];
      job.id !in Ids(jobs) && Present(mods, job.id) && job == Overlaid(FirstOf(mods, job.id), LastOf(mods, job.id))
  {
    var retained, id := Retained(jobs, mods, complete), Reconciled(jobs, mods, complete)[k].id;
    AppendedPlaces(retained, mods, Cache(jobs), k);
    PresentAreRetained(jobs, mods, complete, id);
    CachedAreStored(jobs, id);
  }

  /** Reconciling twice is reconciling once. */
  lemma {:induction false} ReconcileIdempotent(jobs: seq<Job>, mods: seq<Job>, complete: bool)
    ensures var merged := Reconciled(jobs, mods, complete); Reconciled(merged, mods, complete) == merged
  {
    var retained, merged := Retained(jobs, mods, complete), Reconciled(jobs, mods, complete);
    ReconciledIsRetained(jobs, mods, complete);
    MergeIds(retained, mods, Cache(jobs));
    forall k | 0 <= k < |merged| ensures Agrees(merged, mods, k) { MergeAgrees(retained, mods, Cache(jobs), k); }
    MergeOfAgreeing(merged, mods, Cache(merged));
  }

  // ---------------------------------------------------------------- the fingerprint shortcut

  /** Only the run state differs. */
  ghost predicate SameDefinitions(jobs: seq<Job>, jobs': seq<Job>) {
    |jobs'| == |jobs| && forall k :: 0 <= k < |jobs| ==> jobs'[k].(state := jobs[k].state) == jobs[k]
  }

  /** A poll changes nothing but run state. */
  lemma {:induction false} PollKeepsDefinitions(jobs: seq<Job>, poll: S.PollEvent, dispatcher: bool, cron: S.CronNext,
                                                jobs': seq<Job>)
    requires S.PolledList(jobs, poll.now, poll.done, poll.results, dispatcher, cron, jobs')
    ensures SameDefinitions(jobs, jobs')
  {
  }

  /** What it means for a complete snapshot to leave a list alone. */
  ghost predicate Settled(jobs: seq<Job>, mods: seq<Job>) {
    && (forall k :: 0 <= k < |jobs| ==> Keeps(jobs[k], mods, true) && Agrees(jobs, mods, k))
    && Ids(mods) <= Ids(jobs)
  }

  lemma {:induction false} SettledExactly(jobs: seq<Job>, mods: seq<Job>)
    ensures Reconciled(jobs, mods, true) == jobs <==> Settled(jobs, mods)
  {
    if Settled(jobs, mods) {
      RetainedAll(jobs, mods, true);
      MergeOfAgreeing(jobs, mods, Cache(jobs));
    }
    if Reconciled(jobs, mods, true) == jobs {
      var retained := Retained(jobs, mods, true);
      ReconciledIsRetained(jobs, mods, true);
      MergeIds(retained, mods, Cache(jobs));
      forall k | 0 <= k < |jobs| ensures Keeps(jobs[k], mods, true) && Agrees(jobs, mods, k) {
        RetainedExactly(jobs, mods, true, jobs[k]);
        assert jobs[k] in retained;
        MergeAgrees(retained, mods, Cache(jobs), k);
      }
    }
  }

  /** A list that a complete snapshot leaves alone is still left alone after its run states changed. */
  lemma {:induction false} AbsorbedStays(jobs: seq<Job>, mods: seq<Job>, jobs': seq<Job>)
    requires Reconciled(jobs, mods, true) == jobs && SameDefinitions(jobs, jobs')
    ensures Reconciled(jobs', mods, true) == jobs'
  {
    SettledExactly(jobs, mods);
    assert forall k :: 0 <= k < |jobs| ==> jobs'[k].id == jobs[k].id;
    forall id | id in Ids(mods) ensures id in Ids(jobs') {
      var k :| 0 <= k < |jobs| && jobs[k].id == id;
      assert jobs'[k].id == id;
    }
    forall k | 0 <= k < |jobs'| ensures Keeps(jobs'[k], mods, true) && Agrees(jobs', mods, k) {
      assert Keeps(jobs[k], mods, true) && Agrees(jobs, mods, k);
      assert First(jobs', k) == First(jobs, k);
    }
    SettledExactly(jobs', mods);
  }

  datatype Snapshot = Snapshot(jobs: seq<Job>, fingerprint: string, complete: bool)

  /** The scheduler's view of its stored list. */
  datatype Mem = Mem(jobs: seq<Job>, dirty: bool, committed: bool, fingerprint: string, disk: seq<Job>)

  function ReconcileStep(m: Mem, snap: Snapshot, writeOk: bool): Mem {
    var jobs := Reconciled(m.jobs, snap.jobs, snap.complete);
    var dirty := m.dirty || jobs != m.jobs;
    var disk := if dirty then jobs else m.disk;
    if dirty && !writeOk then m.(jobs := jobs, dirty := true)
    else if snap.complete then Mem(jobs, false, true, snap.fingerprint, disk)
    else m.(jobs := jobs, dirty := false, disk := disk)
  }

  predicate Skips(m: Mem, snap: Snapshot) {
    snap.complete && m.committed && !m.dirty && snap.fingerprint == m.fingerprint
  }

  datatype Event =
    | ReloadJobsJSON(stored: seq<Job>)
    | ReloadModularJobs(snap: Snapshot, writeOk: bool)
    | SnapshotFails(writeOk: bool)
    | PollJobs(poll: S.PollEvent, dispatcher: bool, cron: S.CronNext, jobs: seq<Job>, saved: bool)

  ghost predicate Enabled(m: Mem, e: Event) {
    match e
    case ReloadJobsJSON(_) => !m.dirty
    case PollJobs(poll, dispatcher, cron, jobs, _) =>
      S.PolledList(m.jobs, poll.now, poll.done, poll.results, dispatcher, cron, jobs)
    case _ => true
  }

  function Next(m: Mem, e: Event): Mem {
    match e
    case ReloadJobsJSON(stored) => m.(jobs := stored, committed := false, disk := stored)
    case ReloadModularJobs(snap, writeOk) => if Skips(m, snap) then m else ReconcileStep(m, snap, writeOk)
    case SnapshotFails(writeOk) => if m.dirty && writeOk then m.(dirty := false, disk := m.jobs) else m
    case PollJobs(_, _, _, jobs, saved) =>
      m.(jobs := jobs, dirty := m.dirty && !saved, disk := if saved then jobs else m.disk)
  }

  /** The scheduler with the jobs of the snapshot whose fingerprint it last recorded. */
  datatype Traced = Traced(mem: Mem, recorded: seq<Job>)

  /** A reconciliation that leaves the recorded fingerprint as it was: incomplete, or it could not be written. */
  predicate Unrecorded(m: Mem, e: Event) {
    && e.ReloadModularJobs? && !Skips(m, e.snap)
    && (!e.snap.complete || (!e.writeOk && (m.dirty || Reconciled(m.jobs, e.snap.jobs, e.snap.complete) != m.jobs)))
  }

  function TracedNext(x: Traced, e: Event): Traced {
    Traced(Next(x.mem, e),
           if e.ReloadModularJobs? && !Skips(x.mem, e.snap) && !Unrecorded(x.mem, e) then e.snap.jobs else x.recorded)
  }

  /** Reconciling the recorded snapshot again would change nothing. */
  ghost predicate Absorbed(x: Traced) {
    x.mem.committed ==> Reconciled(x.mem.jobs, x.recorded, true) == x.mem.jobs
  }

  predicate SameDefinition(a: Job, b: Job) {
    a.schedule == b.schedule && a.payload == b.payload && a.name == b.name && a.enabled == b.enabled
  }

  /** The snapshot says of every job what the files say, and lacks none of them if it is complete. */
  ghost predicate Repeats(snap: Snapshot, mods: seq<Job>) {
    && (forall id :: Present(snap.jobs, id) ==>
          Present(mods, id) && SameDefinition(LastOf(snap.jobs, id), LastOf(mods, id)))
    && (snap.complete ==> forall id :: Present(mods, id) ==> Present(snap.jobs, id))
  }

  /** What is reconciled without being recorded repeats the recorded snapshot. */
  ghost predicate Faithful(x: Traced, e: Event) {
    x.mem.committed && Unrecorded(x.mem, e) ==> Repeats(e.snap, x.recorded)
  }

  lemma {:induction false} FirstHolds(jobs: seq<Job>, id: string)
    requires id in Ids(jobs)
    ensures First(jobs, FirstIndex(jobs, id)) && jobs[FirstIndex(jobs, id)].id == id
  {
    var i :| 0 <= i < |jobs| && jobs[i].id == id;
    assert FirstIndex(jobs, id) <= i;
  }

  /** A snapshot that repeats the files leaves alone what the files leave alone. */
  lemma {:induction false} RepeatsChangesNothing(jobs: seq<Job>, mods: seq<Job>, snap: Snapshot)
    requires Settled(jobs, mods) && Repeats(snap, mods)
    ensures Reconciled(jobs, snap.jobs, snap.complete) == jobs
  {
    forall k | 0 <= k < |jobs| ensures Keeps(jobs[k], snap.jobs, snap.complete) && Agrees(jobs, snap.jobs, k) {
      assert Keeps(jobs[k], mods, true) && Agrees(jobs, mods, k);
    }
    forall id | id in Ids(snap.jobs) ensures id in Ids(jobs) {
      PresentIsId(snap.jobs, id);
      PresentIsId(mods, id);
    }
    RetainedAll(jobs, snap.jobs, snap.complete);
    MergeOfAgreeing(jobs, snap.jobs, Cache(jobs));
  }

  lemma {:induction false} SettledAfterRepeats(jobs: seq<Job>, mods: seq<Job>, snap: Snapshot, id: string)
    requires Settled(Reconciled(jobs, snap.jobs, snap.complete), mods) && Present(snap.jobs, id)
    ensures Present(mods, id) && SameDefinition(LastOf(snap.jobs, id), LastOf(mods, id))
  {
    var retained, merged := Retained(jobs, snap.jobs, snap.complete), Reconciled(jobs, snap.jobs, snap.complete);
    MergeIds(retained, snap.jobs, Cache(jobs));
    PresentIsId(snap.jobs, id);
    FirstHolds(merged, id);
    var k := FirstIndex(merged, id);
    MergeAgrees(retained, snap.jobs, Cache(jobs), k);
    assert merged[k] == Overlaid(merged[k], LastOf(snap.jobs, id));
    assert Keeps(merged[k], mods, true) && Agrees(merged, mods, k);
  }

  lemma {:induction false} SettledAfterCovers(jobs: seq<Job>, mods: seq<Job>, snap: Snapshot, id: string)
    requires Settled(Reconciled(jobs, snap.jobs, snap.complete), mods) && snap.complete && Present(mods, id)
    ensures Present(snap.jobs, id)
  {
    var merged := Reconciled(jobs, snap.jobs, snap.complete);
    PresentIsId(mods, id);
    FirstHolds(merged, id);
    var k := FirstIndex(merged, id);
    assert Agrees(merged, mods, k);
    assert merged[k] == Overlaid(merged[k], LastOf(mods, id));
    ReconciledIsRetained(jobs, snap.jobs, snap.complete);
    RetainedExactly(merged, snap.jobs, snap.complete, merged[k]);
    assert merged[k] in merged;
  }

  /** After reconciling a snapshot, a list settled with some files is still settled with them exactly if the
      snapshot repeats those files. */
  lemma {:induction false} StaysSettledExactly(jobs: seq<Job>, mods: seq<Job>, snap: Snapshot)
    requires Settled(jobs, mods)
    ensures Settled(Reconciled(jobs, snap.jobs, snap.complete), mods) <==> Repeats(snap, mods)
  {
    var merged := Reconciled(jobs, snap.jobs, snap.complete);
    if Settled(merged, mods) {
      forall id | Present(snap.jobs, id)
        ensures Present(mods, id) && SameDefinition(LastOf(snap.jobs, id), LastOf(mods, id))
      {
        SettledAfterRepeats(jobs, mods, snap, id);
      }
      forall id | snap.complete && Present(mods, id) ensures Present(snap.jobs, id) {
        SettledAfterCovers(jobs, mods, snap, id);
      }
    }
    if Repeats(snap, mods) { RepeatsChangesNothing(jobs, mods, snap); }
  }

  /** And reconciling it changes nothing under the same condition. */
  lemma {:induction false} ChangesNothingExactly(jobs: seq<Job>, mods: seq<Job>, snap: Snapshot)
    requires Settled(jobs, mods)
    ensures Reconciled(jobs, snap.jobs, snap.complete) == jobs <==> Repeats(snap, mods)
  {
    StaysSettledExactly(jobs, mods, snap);
    if Repeats(snap, mods) { RepeatsChangesNothing(jobs, mods, snap); }
  }

  /** One step keeps the list in agreement with the recorded snapshot exactly if what it reconciles unrecorded
      repeats that snapshot. */
  lemma {:induction false} AbsorbedKeptExactly(x: Traced, e: Event)
    requires Absorbed(x) && Enabled(x.mem, e)
    ensures Absorbed(TracedNext(x, e)) <==> Faithful(x, e)
  {
    match e
    case ReloadModularJobs(snap, _) =>
      ReconcileIdempotent(x.mem.jobs, snap.jobs, snap.complete);
      if x.mem.committed && Unrecorded(x.mem, e) {
        SettledExactly(x.mem.jobs, x.recorded);
        SettledExactly(Next(x.mem, e).jobs, x.recorded);
        StaysSettledExactly(x.mem.jobs, x.recorded, snap);
      }
    case PollJobs(poll, dispatcher, cron, jobs, _) =>
      PollKeepsDefinitions(x.mem.jobs, poll, dispatcher, cron, jobs);
      if x.mem.committed { AbsorbedStays(x.mem.jobs, x.recorded, jobs); }
    case _ =>
  }

  /** A run of faithful steps. */
  ghost predicate FaithfulSteps(x: Traced, events: seq<Event>, x': Traced)
    decreases |events|
  {
    if events == [] then x == x'
    else Enabled(x.mem, events[0]) && Faithful(x, events[0]) && FaithfulSteps(TracedNext(x, events[0]), events[1..], x')
  }

  lemma {:induction false} AbsorbedAlong(x: Traced, events: seq<Event>, x': Traced)
    requires Absorbed(x) && FaithfulSteps(x, events, x')
    ensures Absorbed(x')
    decreases |events|
  {
    if events != [] {
      AbsorbedKeptExactly(x, events[0]);
      AbsorbedAlong(TracedNext(x, events[0]), events[1..], x');
    }
  }

  function Loaded(jobs: seq<Job>): Mem { Mem(jobs, false, false, "", jobs) }

  function Start(jobs: seq<Job>): Traced { Traced(Loaded(jobs), []) }

  /** Over every faithful run, skipping a snapshot by its fingerprint gives what reconciling it would exactly if the
      snapshot repeats the recorded one. The fingerprint is taken from names, sizes and modification times, so that
      is so unless a file was edited with all three kept. */
  lemma {:induction false} ShortcutRefines(jobs: seq<Job>, events: seq<Event>, x: Traced, snap: Snapshot, writeOk: bool)
    requires FaithfulSteps(Start(jobs), events, x) && Skips(x.mem, snap)
    ensures ReconcileStep(x.mem, snap, writeOk) == x.mem <==> Repeats(snap, x.recorded)
  {
    AbsorbedAlong(Start(jobs), events, x);
    SettledExactly(x.mem.jobs, x.recorded);
    ChangesNothingExactly(x.mem.jobs, x.recorded, snap);
  }

  /** And the first step that is not faithful breaks it at once: after a faithful run and any one step, skipping the
      recorded snapshot gives what reconciling it would exactly if that step was faithful. */
  lemma {:induction false} ShortcutRefinesExactly(jobs: seq<Job>, events: seq<Event>, x: Traced, e: Event,
                                                  snap: Snapshot, writeOk: bool)
    requires FaithfulSteps(Start(jobs), events, x) && Enabled(x.mem, e)
    requires Skips(Next(x.mem, e), snap) && snap.jobs == TracedNext(x, e).recorded
    ensures ReconcileStep(Next(x.mem, e), snap, writeOk) == Next(x.mem, e) <==> Faithful(x, e)
  {
    AbsorbedAlong(Start(jobs), events, x);
    AbsorbedKeptExactly(x, e);
  }

  /** An incomplete snapshot adds a job and leaves the old fingerprint standing; when its file is gone again the
      old snapshot is skipped and the job stays listed. */
  lemma {:induction false} ShortcutCanBeStale(good: Job, extra: Job)
    returns (first: Event, second: Event, m: Mem, snap: Snapshot)
    requires good.id != extra.id
    ensures first == ReloadModularJobs(snap, true) && snap == Snapshot([good], "old", true)
    ensures second == ReloadModularJobs(Snapshot([good, extra], "new", false), true)
    ensures m == Next(Next(Loaded([]), first), second)
    ensures Skips(m, snap) && extra.id in Ids(m.jobs) && Reconciled(m.jobs, snap.jobs, true) != m.jobs
  {
    snap := Snapshot([good], "old", true);
    var half := Snapshot([good, extra], "new", false);
    first, second := ReloadModularJobs(snap, true), ReloadModularJobs(half, true);
    var x1 := TracedNext(Start([]), first);
    ReconcileOne([], good, true);
    AbsorbedKeptExactly(Start([]), first);
    m := Next(x1.mem, second);
    assert half.jobs[1].id == extra.id;
    assert Present(half.jobs, extra.id) && !Present([good], extra.id);
    ReconciledIds(x1.mem.jobs, half.jobs, false, extra.id);
    AbsorbedKeptExactly(x1, second);
  }

  lemma {:induction false} ReconcileOne(jobs: seq<Job>, mj: Job, complete: bool)
    requires |jobs| <= 1 && (jobs != [] ==> jobs[0].id == mj.id)
    ensures Reconciled(jobs, [mj], complete) == if jobs == [] then [Marked(mj, map[])] else [Overlaid(jobs[0], mj)]
  {
    assert [mj][0].id == mj.id;
    assert Present([mj], mj.id);
    RetainedAll(jobs, [mj], complete);
    assert [mj][..0] == [];
    assert Merge(jobs, [], Cache(jobs)) == jobs;
    assert Merge(jobs, [mj], Cache(jobs)) == Put(jobs, mj, Cache(jobs));
  }

  // ---------------------------------------------------------------- nothing reconciled is forgotten

  ghost predicate Steps(m: Mem, events: seq<Event>, m': Mem)
    decreases |events|
  {
    if events == [] then m == m' else Enabled(m, events[0]) && Steps(Next(m, events[0]), events[1..], m')
  }

  /** The definitions in memory are on disk, or are marked as still to be written. */
  ghost predicate Accounted(m: Mem) { m.dirty || SameDefinitions(m.disk, m.jobs) }

  lemma {:induction false} AccountedKept(m: Mem, e: Event)
    requires Accounted(m) && Enabled(m, e)
    ensures Accounted(Next(m, e))
  {
    if e.PollJobs? { PollKeepsDefinitions(m.jobs, e.poll, e.dispatcher, e.cron, e.jobs); }
  }

  /** Over every run, with whatever failed writes and snapshots, a list whose definitions are not on disk is marked
      dirty, and while it is marked the file is not read back over it. */
  lemma {:induction false} UnwrittenIsDirty(jobs: seq<Job>, events: seq<Event>, m: Mem)
    requires Steps(Loaded(jobs), events, m)
    ensures !SameDefinitions(m.disk, m.jobs) ==> m.dirty && forall stored :: !Enabled(m, ReloadJobsJSON(stored))
  {
    AccountedAlong(Loaded(jobs), events, m);
  }

  lemma {:induction false} AccountedAlong(m: Mem, events: seq<Event>, m': Mem)
    requires Accounted(m) && Steps(m, events, m')
    ensures Accounted(m')
    decreases |events|
  {
    if events != [] {
      AccountedKept(m, events[0]);
      AccountedAlong(Next(m, events[0]), events[1..], m');
    }
  }

  /** The event writes the list to the disk if it is dirty. */
  predicate Writes(m: Mem, e: Event) {
    match e
    case ReloadJobsJSON(_) => false
    case ReloadModularJobs(snap, writeOk) => writeOk && !Skips(m, snap)
    case SnapshotFails(writeOk) => writeOk
    case PollJobs(_, _, _, _, saved) => saved
  }

  /** A dirty list stays dirty until it is written, and the first event that writes puts all of it on disk. */
  lemma {:induction false} DirtyUntilWritten(m: Mem, e: Event)
    requires m.dirty && Enabled(m, e)
    ensures Next(m, e).dirty <==> !Writes(m, e)
    ensures Writes(m, e) ==> Next(m, e).disk == Next(m, e).jobs
    ensures !Writes(m, e) ==> Next(m, e).disk == m.disk
  {
  }

  // ---------------------------------------------------------------- the object

  /** The reloading half of the scheduler. */
  class ModularStore {
    var jobs: Slice
    var modularDirty: bool
    var modularCommitted: bool
    var modularFingerprint: string
    var disk: seq<Job>

    ghost predicate Valid()
      reads this
    {
      jobs.len <= jobs.buf.Length
    }

    constructor (loaded: Slice)
      requires loaded.len <= loaded.buf.Length
      ensures Valid() && jobs == loaded && View() == Loaded(loaded.buf[..loaded.len])
    {
      jobs, modularDirty, modularCommitted, modularFingerprint := loaded, false, false, "";
      disk := loaded.buf[..loaded.len];
    }

    ghost function View(): Mem
      requires Valid()
      reads this, jobs.buf
    {
      Mem(jobs.buf[..jobs.len], modularDirty, modularCommitted, modularFingerprint, disk)
    }

    /** The dirty test compares the untouched old list with the new one. */
    method ReconcileSnapshot(snapshotJobs: array<Job>, fingerprint: string, complete: bool, writeOk: bool)
      requires Valid() && snapshotJobs != jobs.buf
      modifies this, snapshotJobs
      ensures Valid() && (jobs == old(jobs) || fresh(jobs.buf))
      ensures View() == ReconcileStep(old(View()), Snapshot(old(snapshotJobs[..]), fingerprint, complete), writeOk)
      ensures old(jobs).buf[..] == old(jobs.buf[..])
    {
      var merged := ReconcileModularJobs(jobs, snapshotJobs, complete);
      if jobs.buf[..jobs.len] != merged.buf[..merged.len] && (jobs.len != 0 || merged.len != 0) {
        jobs := merged;
        modularDirty := true;
      }
      assert jobs.buf[..jobs.len] == merged.buf[..merged.len];
      if modularDirty {
        if !writeOk {
          return;
        }
        modularDirty := false;
        disk := jobs.buf[..jobs.len];
      }
      if complete {
        modularFingerprint := fingerprint;
        modularCommitted := true;
      }
    }

    method ReloadModularJobs(snapshotJobs: array<Job>, fingerprint: string, complete: bool, writeOk: bool)
      requires Valid() && snapshotJobs != jobs.buf
      modifies this, snapshotJobs
      ensures Valid()
      ensures var snap := Snapshot(old(snapshotJobs[..]), fingerprint, complete);
              View() == Next(old(View()), Event.ReloadModularJobs(snap, writeOk))
    {
      if complete && modularCommitted && !modularDirty && fingerprint == modularFingerprint {
        return;
      }
      ReconcileSnapshot(snapshotJobs, fingerprint, complete, writeOk);
    }
  }
}
