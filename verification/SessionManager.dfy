/**
 The two bodies a client runs while it holds a session's lock: one turn of Dispatch and one
 token-budget compaction, statement by statement over the checkpoint store. Whether each
 outside operation succeeds is a parameter. Both are runs of SessionHistory.
*/
module SessionManager {
  import opened Wrappers
  import opened Messages
  import opened CheckpointStore
  import H = SessionHistory

  /** Which of the store calls of a turn succeed. */
  datatype TurnWorld = TurnWorld(loads: bool, creates: bool, saves: bool, counts: bool)

  /** Which of the calls of a compaction succeed, whether it is cancelled after the token refresh, the summary the
      model gives, and the clock. */
  datatype CompactWorld = CompactWorld(
    loads: bool, refreshes: bool, alive: bool, summary: Option<Message>, saves: bool, stamps: bool, now: int)

  // ---------------------------------------------------------------- one turn

  /** The store after a turn. */
  function AfterTurn(cfg: H.Config, st: Store, key: string, updated: seq<Message>, world: TurnWorld): Store {
    var snap := LoadLatest(st, key);
    if !world.loads then st
    else
      var begun := if snap.None? && world.creates then Created(st, key) else st;
      if (snap.None? && !world.creates) || updated == [] || !world.saves then begun
      else AfterCommit(cfg, begun, key, (if snap.Some? then snap.value.iteration else 0) + 1, updated, world.counts)
  }

  function AfterCommit(cfg: H.Config, st: Store, key: string, iteration: int, updated: seq<Message>,
      counts: bool): Store {
    var saved := Saved(st, key, iteration, updated);
    if cfg.budget > 0 && counts then H.TokensRefreshed(saved, key, cfg.estimate(updated)) else saved
  }

  /** loadHistory, persistResult of whatever the runner returned for it, and updateTokenBudget. A completed thread
      loads nothing and is made active again, so its next iteration is 1 whatever is stored. */
  method RunTurn(cfg: H.Config, m: CheckpointManager, key: string, updated: seq<Message>, world: TurnWorld)
    returns (persisted: bool)
    requires Valid(m.View())
    modifies m
    ensures Valid(m.View()) && m.View() == AfterTurn(cfg, old(m.View()), key, updated, world)
    ensures persisted <==> world.loads && world.saves && updated != [] &&
                           (old(LoadLatest(m.View(), key)).Some? || world.creates)
    ensures Completed(m.View(), key) <==> old(Completed(m.View(), key)) && !(world.loads && world.creates)
    // The saved row is the newest unless a completed thread has a higher iteration stored ...
    ensures var was, stored := old(LoadLatest(m.View(), key)), old(Newest(m.rows, key));
            var iteration := (if was.Some? then was.value.iteration else 0) + 1;
            Newest(m.rows, key) ==
              if persisted && (stored.None? || stored.value.iteration <= iteration)
              then Some(Row(old(m.nextID), key, iteration, updated)) else stored
    // ... so on any other thread a persisted turn is what the next load returns.
    ensures var was := old(LoadLatest(m.View(), key));
            !old(Completed(m.View(), key)) ==>
              LoadLatest(m.View(), key) ==
                if persisted
                then Some(Row(old(m.nextID), key, (if was.Some? then was.value.iteration else 0) + 1, updated))
                else was
    ensures forall other :: other != key ==> Newest(m.rows, other) == old(Newest(m.rows, other))
  {
    if !world.loads {
      return false;
    }
    var snap := LoadLatest(m.View(), key);
    var iteration := 0;
    var stateless := false;
    if snap.Some? {
      iteration := snap.value.iteration;
    } else {
      m.CreateThread(key, world.creates);
      stateless := !world.creates;
    }
    if stateless || updated == [] {
      return false;
    }
    persisted := m.SaveSnapshot(key, iteration + 1, updated, world.saves);
    if persisted && cfg.budget > 0 {
      m.UpdateSessionTokens(key, cfg.estimate(updated), CompactedAt(m.View(), key), world.counts);
    }
  }

  /** s' is s after client c worked on store i and came to rest, leaving the store as given. */
  ghost predicate Leaves(s: H.State, c: nat, i: nat, st: Store, s': H.State) {
    && H.StoreOf(s', i) == st && (forall j: nat :: j != i ==> H.StoreOf(s', j) == H.StoreOf(s, j))
    && H.WorkOf(s', c).Rest? && s'.lk == s.lk
  }

  lemma {:induction false} OneStep(cfg: H.Config, s: H.State, a: H.Action)
    requires H.Enabled(s, a)
    ensures H.Steps(cfg, s, [a], H.Next(cfg, s, a))
  {
    assert H.Steps(cfg, H.Next(cfg, s, a), [a][1..], H.Next(cfg, s, a));
  }

  lemma {:induction false} StepThen(cfg: H.Config, s: H.State, a: H.Action, rest: seq<H.Action>, s': H.State)
    requires H.Enabled(s, a) && H.Steps(cfg, H.Next(cfg, s, a), rest, s')
    ensures H.Steps(cfg, s, [a] + rest, s')
  {
    assert ([a] + rest)[1..] == rest;
  }

  /** The first half: what BeginTurn leaves in the store and in the client's hands. */
  lemma {:induction false} TurnBegins(cfg: H.Config, s: H.State, c: nat, i: nat, created: bool) returns (begun: H.State)
    requires H.Inside(s, c) && H.WorkOf(s, c).Rest?
    ensures H.Enabled(s, H.BeginTurn(c, i, created)) && begun == H.Next(cfg, s, H.BeginTurn(c, i, created))
    ensures begun.lk == s.lk && H.Inside(begun, c) && forall j: nat :: j != i ==> H.StoreOf(begun, j) == H.StoreOf(s, j)
    ensures var snap := LoadLatest(H.StoreOf(s, i), H.Key(s, c));
            && H.StoreOf(begun, i) == (if snap.None? && created then Created(H.StoreOf(s, i), H.Key(s, c))
                else H.StoreOf(s, i))
            && H.WorkOf(begun, c).Turn? && H.WorkOf(begun, c).store == i
            && H.WorkOf(begun, c).iteration == (if snap.Some? then snap.value.iteration else 0)
            && H.WorkOf(begun, c).stateless == (snap.None? && !created)
  {
    begun := H.Next(cfg, s, H.BeginTurn(c, i, created));
  }

  lemma {:induction false} AbandonIsARun(cfg: H.Config, s: H.State, c: nat, i: nat) returns (s': H.State)
    requires H.Inside(s, c)
    ensures H.Steps(cfg, s, [H.Abandon(c)], s') && Leaves(s, c, i, H.StoreOf(s, i), s')
  {
    s' := H.Next(cfg, s, H.Abandon(c));
    OneStep(cfg, s, H.Abandon(c));
  }

  /** The second half: the commit, and the token update unless it fails. */
  lemma {:induction false} CommitIsARun(cfg: H.Config, s: H.State, c: nat, updated: seq<Message>, counts: bool)
    returns (actions: seq<H.Action>, s': H.State)
    requires H.Inside(s, c) && H.WorkOf(s, c).Turn? && !H.WorkOf(s, c).stateless && updated != []
    ensures H.Steps(cfg, s, actions, s')
    ensures var w := H.WorkOf(s, c);
            Leaves(s, c, w.store, AfterCommit(cfg, H.StoreOf(s, w.store), H.Key(s, c), w.iteration + 1, updated,
                counts), s')
  {
    var commit := H.CommitTurn(c, updated, true);
    var next := H.Next(cfg, s, commit);
    var last := if counts then H.TurnTokens(c) else H.Abandon(c);
    s' := H.Next(cfg, next, last);
    OneStep(cfg, next, last);
    StepThen(cfg, s, commit, [last], s');
    actions := [commit] + [last];
  }

  /** What RunTurn does under the lock is a run of SessionHistory, whatever fails. */
  lemma {:induction false} TurnIsARun(cfg: H.Config, s: H.State, c: nat, i: nat, updated: seq<Message>,
                                      world: TurnWorld)
    returns (actions: seq<H.Action>, s': H.State)
    requires H.Inside(s, c) && H.WorkOf(s, c).Rest?
    ensures H.Steps(cfg, s, actions, s')
    ensures Leaves(s, c, i, AfterTurn(cfg, H.StoreOf(s, i), H.Key(s, c), updated, world), s')
  {
    if !world.loads {
      actions, s' := [], s;
    } else {
      var begun := TurnBegins(cfg, s, c, i, world.creates);
      if H.WorkOf(begun, c).stateless || updated == [] || !world.saves {
        s' := AbandonIsARun(cfg, begun, c, i);
        actions := [H.Abandon(c)];
      } else {
        actions, s' := CommitIsARun(cfg, begun, c, updated, world.counts);
      }
      StepThen(cfg, s, H.BeginTurn(c, i, world.creates), actions, s');
      actions := [H.BeginTurn(c, i, world.creates)] + actions;
    }
  }

  // ---------------------------------------------------------------- one compaction

  /** Whether the durable history is over the budget and longer than what is kept. */
  predicate Eligible(cfg: H.Config, history: seq<Message>) {
    0 < cfg.budget < cfg.estimate(history) && H.Keep(cfg) < |history|
  }

  /** The store after a compaction. */
  function AfterCompaction(cfg: H.Config, st: Store, key: string, world: CompactWorld): Store {
    var snap := LoadLatest(st, key);
    if cfg.budget <= 0 || !world.loads || snap.None? || !world.refreshes then st
    else
      var history := snap.value.messages;
      var refreshed := H.TokensRefreshed(st, key, cfg.estimate(history));
      if !world.alive || !Eligible(cfg, history) || world.summary.None? then refreshed
      else
        var compacted := H.Shrunk(cfg, history, world.summary.value);
        Published(refreshed, key, snap.value.iteration, compacted, cfg.estimate(compacted), world)
  }

  /** compactSessionLocked with loadCompactionSnapshot, refreshCompactionTokens and publishCompaction. */
  method CompactSessionLocked(cfg: H.Config, m: CheckpointManager, key: string, world: CompactWorld)
    returns (published: bool)
    requires Valid(m.View())
    modifies m
    ensures Valid(m.View()) && (Completed(m.View(), key) <==> old(Completed(m.View(), key)))
    ensures m.View() == AfterCompaction(cfg, old(m.View()), key, world)
    // The history changes only if it was over the budget and longer than what is kept ...
    ensures var was := old(LoadLatest(m.View(), key));
            published <==> && world.loads && world.refreshes && world.alive && world.summary.Some? && world.saves
                           && was.Some? && Eligible(cfg, was.value.messages)
    // ... and then it is one summary followed by the newest messages, at the same iteration.
    ensures var was := old(LoadLatest(m.View(), key));
            LoadLatest(m.View(), key) ==
              if published then
                Some(Row(old(m.nextID), key, was.value.iteration,
                         [world.summary.value] + was.value.messages[|was.value.messages| - H.Keep(cfg)..]))
              else was
    // The newest summaryTurns messages are kept, 20 if that is not positive.
    ensures published ==>
            |LoadLatest(m.View(), key).value.messages| == 1 + (if cfg.summaryTurns > 0 then cfg.summaryTurns else 20)
    // Success is stamped only after the snapshot is in place, together with its own estimate.
    ensures CompactedAt(m.View(), key) != old(CompactedAt(m.View(), key)) ==>
            && published && world.stamps && CompactedAt(m.View(), key) == Some(world.now)
            && LoadLatest(m.View(), key).Some?
            && Tokens(m.View(), key) == cfg.estimate(LoadLatest(m.View(), key).value.messages)
    ensures forall other :: other != key ==> Newest(m.rows, other) == old(Newest(m.rows, other))
  {
    published := false;
    if cfg.budget <= 0 || !world.loads {
      return;
    }
    var snap := LoadLatest(m.View(), key);
    if snap.None? {
      return;
    }
    var estimated := cfg.estimate(snap.value.messages);
    if !world.refreshes {
      return;
    }
    RefreshTokens(m, key, estimated);
    if !world.alive || estimated <= cfg.budget || |snap.value.messages| == 0 {
      return;
    }
    var turns := if cfg.summaryTurns <= 0 then 20 else cfg.summaryTurns;
    if |snap.value.messages| <= turns || world.summary.None? {
      return;
    }
    var kept := snap.value.messages[|snap.value.messages| - turns..];
    var compacted := [world.summary.value] + kept;
    published := PublishCompaction(m, key, snap.value.iteration, compacted, cfg.estimate(compacted), world);
  }

  /** publishCompaction: the snapshot first, and the stamp with its own estimate only after it is in place. */
  method PublishCompaction(m: CheckpointManager, key: string, iteration: int, compacted: seq<Message>, tokens: nat,
                           world: CompactWorld) returns (published: bool)
    requires Valid(m.View())
    requires Newest(m.rows, key).Some? ==> Newest(m.rows, key).value.iteration <= iteration
    modifies m
    ensures published == world.saves && Valid(m.View())
    ensures m.View() == Published(old(m.View()), key, iteration, compacted, tokens, world)
    ensures Newest(m.rows, key) == if published then Some(Row(old(m.nextID), key, iteration, compacted))
        else old(Newest(m.rows, key))
    ensures forall other :: other != key ==> Newest(m.rows, other) == old(Newest(m.rows, other))
    ensures Completed(m.View(), key) <==> old(Completed(m.View(), key))
  {
    published := m.SaveSnapshot(key, iteration, compacted, world.saves);
    if published {
      m.UpdateSessionTokens(key, tokens, Some(world.now), world.stamps);
    }
  }

  /** The store after the publication. */
  function Published(st: Store, key: string, iteration: int, compacted: seq<Message>, tokens: nat,
                     world: CompactWorld): Store
  {
    var saved := Saved(st, key, iteration, compacted);
    if !world.saves then st else if world.stamps then WithTokens(saved, key, tokens, Some(world.now)) else saved
  }

  /** refreshCompactionTokens writes only a changed estimate, which comes to the same. */
  method RefreshTokens(m: CheckpointManager, key: string, estimated: nat)
    modifies m`threads
    ensures m.View() == H.TokensRefreshed(old(m.View()), key, estimated)
  {
    ghost var was := m.View();
    if Tokens(m.View(), key) != estimated {
      m.UpdateSessionTokens(key, estimated, CompactedAt(m.View(), key), true);
    } else {
      SameTokens(was, key);
    }
  }

  lemma {:induction false} SameTokens(st: Store, key: string)
    ensures WithTokens(st, key, Tokens(st, key), CompactedAt(st, key)) == st
  {
    if key in st.threads {
      var t := st.threads[key];
      assert t.(tokens := t.tokens, compactedAt := t.compactedAt) == t;
      assert st.threads[key := t] == st.threads;
    }
  }

  /** The second half of a compaction: the publication, and the stamp unless it fails. */
  lemma {:induction false} PublishIsARun(cfg: H.Config, s: H.State, c: nat, world: CompactWorld)
    returns (actions: seq<H.Action>, s': H.State)
    requires H.Inside(s, c) && H.WorkOf(s, c).Compacting? && world.summary.Some? && world.saves
    ensures H.Steps(cfg, s, actions, s')
    ensures var w := H.WorkOf(s, c); var compacted := H.Shrunk(cfg, w.history, world.summary.value);
            Leaves(s, c, w.store, Published(H.StoreOf(s, w.store), H.Key(s, c), w.iteration, compacted,
                                            cfg.estimate(compacted), world), s')
  {
    var publish := H.PublishCompact(c, world.summary.value, true);
    var next := H.Next(cfg, s, publish);
    var last := if world.stamps then H.Stamp(c, world.now) else H.Abandon(c);
    s' := H.Next(cfg, next, last);
    OneStep(cfg, next, last);
    StepThen(cfg, s, publish, [last], s');
    actions := [publish] + [last];
  }

  /** The first half: the token estimate is refreshed, and an eligible history is in the client's hands. */
  lemma {:induction false} CompactBegins(cfg: H.Config, s: H.State, c: nat, i: nat) returns (begun: H.State)
    requires H.Inside(s, c) && H.WorkOf(s, c).Rest? && cfg.budget > 0
    requires LoadLatest(H.StoreOf(s, i), H.Key(s, c)).Some?
    ensures H.Enabled(s, H.BeginCompact(c, i)) && begun == H.Next(cfg, s, H.BeginCompact(c, i))
    ensures begun.lk == s.lk && H.Inside(begun, c) && forall j: nat :: j != i ==> H.StoreOf(begun, j) == H.StoreOf(s, j)
    ensures var row := LoadLatest(H.StoreOf(s, i), H.Key(s, c)).value;
            && H.StoreOf(begun, i) == H.TokensRefreshed(H.StoreOf(s, i), H.Key(s, c), cfg.estimate(row.messages))
            && H.WorkOf(begun, c) ==
                 if Eligible(cfg, row.messages) then H.Compacting(i, row.iteration, row.messages) else H.Rest
  {
    begun := H.Next(cfg, s, H.BeginCompact(c, i));
  }

  /** What CompactSessionLocked does under the lock is a run of SessionHistory, whatever fails. */
  lemma {:induction false} CompactIsARun(cfg: H.Config, s: H.State, c: nat, i: nat, world: CompactWorld)
    returns (actions: seq<H.Action>, s': H.State)
    requires H.Inside(s, c) && H.WorkOf(s, c).Rest?
    ensures H.Steps(cfg, s, actions, s')
    ensures Leaves(s, c, i, AfterCompaction(cfg, H.StoreOf(s, i), H.Key(s, c), world), s')
  {
    var snap := LoadLatest(H.StoreOf(s, i), H.Key(s, c));
    if cfg.budget <= 0 || !world.loads || snap.None? || !world.refreshes {
      actions, s' := [], s;
    } else {
      var begun := CompactBegins(cfg, s, c, i);
      if !world.alive || H.WorkOf(begun, c).Rest? || world.summary.None? || !world.saves {
        s' := AbandonIsARun(cfg, begun, c, i);
        actions := [H.Abandon(c)];
      } else {
        actions, s' := PublishIsARun(cfg, begun, c, world);
      }
      StepThen(cfg, s, H.BeginCompact(c, i), actions, s');
      actions := [H.BeginCompact(c, i)] + actions;
    }
  }
}
