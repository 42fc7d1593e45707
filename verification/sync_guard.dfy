/** The sync and sanity guard of an indexer target (schema/indexer/sync.go).
    The guard replaces a listener's `StartBlock` callback. On the first block
    it compares the target's last persisted height `L` with the block height
    `H`, and then forwards the block, triggers one catch-up sync, or fails.
    The closure's `initialized` flag and the calls it makes become an explicit
    `GuardState`. */
module SyncGuard {
  import opened Outcomes
  import opened GoInts
  import opened AppData

  /** Installs the guard: `L == -1` marks a target that does not track
      persistence, whose listener is returned untouched; otherwise only the
      `StartBlock` slot is replaced, by a wrapper that remembers the callback
      it replaced. */
  function AddSyncAndSanityCheck<M>(lastBlockPersisted: Int64, l: Listener<M>, modules: M): (r: Listener<M>)
    ensures lastBlockPersisted == -1 ==> r == l
    ensures r.otherSlots == l.otherSlots
    ensures lastBlockPersisted != -1 ==> r.startBlock == Some(SyncChecked(lastBlockPersisted, modules, l.startBlock))
    // the installed slot runs the guard for this target, around the callback it replaced
    ensures lastBlockPersisted != -1 ==>
              GuardOf(r.startBlock.value) == Guard(lastBlockPersisted, modules, l.startBlock.Some?)
  {
    if lastBlockPersisted == -1 then l
    else l.(startBlock := Some(SyncChecked(lastBlockPersisted, modules, l.startBlock)))
  }

  // ---------------------------------------------------------------------
  // The height check

  /** Go's comparison `lastBlockPersisted+1 == int64(data.Height)`, with the
      wrap-around of both the `int64` addition and the conversion. */
  predicate InSequence(lastBlockPersisted: Int64, height: Uint64) {
    WrapInt64(lastBlockPersisted + 1) == WrapInt64(height)
  }

  /** For any non-negative `L` the wrapped comparison is exact. */
  lemma InSequenceExact(lastBlockPersisted: Int64, height: Uint64)
    requires lastBlockPersisted >= 0
    ensures InSequence(lastBlockPersisted, height) <==> height == lastBlockPersisted + 1
  {
  }

  /** A negative `L` other than -1 is matched by the unsigned height that
      wraps onto `L + 1`. */
  lemma InSequenceNegative(lastBlockPersisted: Int64, height: Uint64)
    requires lastBlockPersisted < -1
    ensures InSequence(lastBlockPersisted, height) <==> height == lastBlockPersisted + 1 + TwoTo64
  {
  }

  /** The outcome of one check: the catch-up syncs it started (each carrying
      only the target's module filter, never a height bound) and its error. */
  datatype CheckResult<M> = CheckResult(syncCalls: seq<M>, outcome: Outcome<Error>)

  /** The decision taken on the first block. `syncOutcome` is what
      `decoding.Sync` answers if it is called. */
  function DoSyncAndSanityCheck<M>(lastBlockPersisted: Int64, height: Uint64, modules: M, syncOutcome: Outcome<Error>)
    : (r: CheckResult<M>)
    ensures lastBlockPersisted == 0 && height == 1 ==> r.syncCalls == [] && r.outcome == Pass
    ensures lastBlockPersisted == 0 && height != 1 ==> r.syncCalls == [modules] && r.outcome == syncOutcome
    ensures lastBlockPersisted > 0 ==> r.syncCalls == []
    ensures lastBlockPersisted > 0 ==> (r.outcome.Pass? <==> height == lastBlockPersisted + 1)
    ensures (lastBlockPersisted > 0 && height != lastBlockPersisted + 1)
              ==> r.outcome == Fail(OutOfSync(lastBlockPersisted, height))
    // every other `L` (including the negative ones) gets the plain height check
    ensures lastBlockPersisted != 0 ==> r.syncCalls == []
    ensures (lastBlockPersisted != 0 && r.outcome.Fail?) ==> r.outcome == Fail(OutOfSync(lastBlockPersisted, height))
    ensures lastBlockPersisted < -1 ==> (r.outcome.Pass? <==> height == lastBlockPersisted + 1 + TwoTo64)
  {
    assert lastBlockPersisted >= 0 ==> (InSequence(lastBlockPersisted, height) <==> height == lastBlockPersisted + 1) by {
      if lastBlockPersisted >= 0 {
        InSequenceExact(lastBlockPersisted, height);
      }
    }
    assert lastBlockPersisted < -1 ==>
             (InSequence(lastBlockPersisted, height) <==> height == lastBlockPersisted + 1 + TwoTo64) by {
      if lastBlockPersisted < -1 {
        InSequenceNegative(lastBlockPersisted, height);
      }
    }
    if lastBlockPersisted == 0 then
      if height == 1 then CheckResult([], Pass)
      else CheckResult([modules], syncOutcome)
    else if !InSequence(lastBlockPersisted, height) then
      CheckResult([], Fail(OutOfSync(lastBlockPersisted, height)))
    else
      CheckResult([], Pass)
  }

  // ---------------------------------------------------------------------
  // The wrapped StartBlock as a state machine

  /** What the guard's closure captured: the target's last persisted height,
      its module filter, and whether the replaced `StartBlock` was set. */
  datatype Guard<M> = Guard(lastBlockPersisted: Int64, modules: M, hasInner: bool)

  /** The closure's `initialized` flag, plus the calls it has made so far:
      catch-up syncs and heights handed to the replaced `StartBlock`. */
  datatype GuardState<M> = GuardState(initialized: bool, syncCalls: seq<M>, forwardedHeights: seq<Uint64>)

  /** The closure captured by an installed guard slot. */
  function GuardOf<M>(f: StartBlockFn<M>): Guard<M>
    requires f.SyncChecked?
  {
    Guard(f.lastBlockPersisted, f.modules, f.inner.Some?)
  }

  function Initial<M>(): GuardState<M> {
    GuardState(false, [], [])
  }

  /** The answers of the collaborators on one delivery: `decoding.Sync` if it
      is called, and the replaced `StartBlock` if it is set. */
  datatype Env = Env(syncOutcome: Outcome<Error>, innerOutcome: Outcome<Error>)

  datatype Step<M> = Step(state: GuardState<M>, result: Outcome<Error>)

  /** Hands the block to the replaced callback, or returns nil if unset. */
  function Forward<M>(g: Guard<M>, s: GuardState<M>, height: Uint64, env: Env): Step<M> {
    if g.hasInner then Step(s.(forwardedHeights := s.forwardedHeights + [height]), env.innerOutcome)
    else Step(s, Pass)
  }

  /** One call of the wrapped `StartBlock`. */
  function StartBlock<M>(g: Guard<M>, s: GuardState<M>, height: Uint64, env: Env): (r: Step<M>)
    // once initialized, the guard only forwards
    ensures s.initialized ==> r.state.initialized && r.state.syncCalls == s.syncCalls
    ensures (s.initialized && g.hasInner)
              ==> r.state.forwardedHeights == s.forwardedHeights + [height] && r.result == env.innerOutcome
    ensures s.initialized && !g.hasInner ==> r.state == s && r.result == Pass
    // before that, the check runs and decides both the flag and the forwarding
    ensures !s.initialized ==>
              var c := DoSyncAndSanityCheck(g.lastBlockPersisted, height, g.modules, env.syncOutcome);
              && r.state.syncCalls == s.syncCalls + c.syncCalls
              && r.state.initialized == c.outcome.Pass?
              && (c.outcome.Fail? ==> r.result == c.outcome && r.state.forwardedHeights == s.forwardedHeights)
              && (c.outcome.Pass? && g.hasInner ==>
                    r.state.forwardedHeights == s.forwardedHeights + [height] && r.result == env.innerOutcome)
              && (c.outcome.Pass? && !g.hasInner ==>
                    r.state.forwardedHeights == s.forwardedHeights && r.result == Pass)
  {
    if s.initialized then Forward(g, s, height, env)
    else
      var c := DoSyncAndSanityCheck(g.lastBlockPersisted, height, g.modules, env.syncOutcome);
      var s1 := s.(syncCalls := s.syncCalls + c.syncCalls);
      if c.outcome.Fail? then Step(s1, c.outcome)
      else Forward(g, s1.(initialized := true), height, env)
  }

  /** Calls whatever a listener's `StartBlock` slot holds: nothing (nil), a
      backend callback (which receives the block), or an installed guard,
      which runs `StartBlock` on the closure it captured. A guard nested
      inside another guard is seen only as the callback the outer one
      replaced. */
  function CallSlot<M>(slot: Option<StartBlockFn<M>>, s: GuardState<M>, height: Uint64, env: Env): (r: Step<M>)
    // a slot without a guard never checks and never syncs
    ensures (slot.None? || slot.value.Callback?) ==>
              r.state.syncCalls == s.syncCalls && r.state.initialized == s.initialized
    ensures slot.None? ==> r == Step(s, Pass)
  {
    match slot
    case None => Step(s, Pass)
    case Some(f) =>
      if f.SyncChecked? then StartBlock(GuardOf(f), s, height, env)
      else Step(s.(forwardedHeights := s.forwardedHeights + [height]), env.innerOutcome)
  }

  /** What installing the guard does to the listener's block starts. With
      `L == -1` a slot without a guard behaves exactly as before and never
      checks or syncs. Otherwise every block start runs this target's guard,
      with `L`, its module filter and the callback it replaced. */
  lemma InstalledSlotRunsGuard<M>(lastBlockPersisted: Int64, l: Listener<M>, modules: M,
                                  s: GuardState<M>, height: Uint64, env: Env)
    ensures lastBlockPersisted == -1 ==>
              CallSlot(AddSyncAndSanityCheck(lastBlockPersisted, l, modules).startBlock, s, height, env)
                == CallSlot(l.startBlock, s, height, env)
    ensures (lastBlockPersisted == -1 && (l.startBlock.None? || l.startBlock.value.Callback?)) ==>
              CallSlot(AddSyncAndSanityCheck(lastBlockPersisted, l, modules).startBlock, s, height, env).state.syncCalls
                == s.syncCalls
    ensures lastBlockPersisted != -1 ==>
              CallSlot(AddSyncAndSanityCheck(lastBlockPersisted, l, modules).startBlock, s, height, env)
                == StartBlock(Guard(lastBlockPersisted, modules, l.startBlock.Some?), s, height, env)
  {
  }

  // ---------------------------------------------------------------------
  // Runs of block starts

  /** One block start: its height and what the collaborators answer. */
  datatype Delivery = Delivery(height: Uint64, env: Env)

  datatype RunResult<M> = RunResult(state: GuardState<M>, results: seq<Outcome<Error>>)

  /** Delivers the block starts in order. */
  function Run<M>(g: Guard<M>, s: GuardState<M>, ds: seq<Delivery>): (r: RunResult<M>)
    ensures |r.results| == |ds|
    decreases |ds|
  {
    if |ds| == 0 then RunResult(s, [])
    else
      var step := StartBlock(g, s, ds[0].height, ds[0].env);
      var rest := Run(g, step.state, ds[1..]);
      RunResult(rest.state, [step.result] + rest.results)
  }

  function Heights(ds: seq<Delivery>): (hs: seq<Uint64>)
    ensures |hs| == |ds|
    ensures forall i | 0 <= i < |ds| :: hs[i] == ds[i].height
  {
    if |ds| == 0 then [] else [ds[0].height] + Heights(ds[1..])
  }

  /** After one successful check every later block start skips the check and
      the sync: the guard stays initialized, makes no further sync call, and
      forwards every later height in order (nothing when no callback was
      replaced). */
  lemma {:induction false} RunAfterInitialized<M>(g: Guard<M>, s: GuardState<M>, ds: seq<Delivery>)
    requires s.initialized
    ensures Run(g, s, ds).state.initialized
    ensures Run(g, s, ds).state.syncCalls == s.syncCalls
    ensures Run(g, s, ds).state.forwardedHeights
              == s.forwardedHeights + (if g.hasInner then Heights(ds) else [])
    decreases |ds|
  {
    if |ds| > 0 {
      var step := StartBlock(g, s, ds[0].height, ds[0].env);
      var rest := Run(g, step.state, ds[1..]);
      assert Run(g, s, ds).state == rest.state;
      RunAfterInitialized(g, step.state, ds[1..]);
      if g.hasInner {
        calc {
          Run(g, s, ds).state.forwardedHeights;
          == step.state.forwardedHeights + Heights(ds[1..]);
          == (s.forwardedHeights + [ds[0].height]) + Heights(ds[1..]);
          == s.forwardedHeights + ([ds[0].height] + Heights(ds[1..]));
          == s.forwardedHeights + Heights(ds);
        }
      } else {
        assert step.state == s;
      }
    }
  }

  /** After one successful check every later block start answers with the
      replaced callback's answer, or nil when no callback was replaced. */
  lemma {:induction false} AnswersAfterInitialized<M>(g: Guard<M>, s: GuardState<M>, ds: seq<Delivery>)
    requires s.initialized
    ensures forall i | 0 <= i < |ds| ::
              Run(g, s, ds).results[i] == (if g.hasInner then ds[i].env.innerOutcome else Pass)
    decreases |ds|
  {
    if |ds| > 0 {
      var step := StartBlock(g, s, ds[0].height, ds[0].env);
      var rest := Run(g, step.state, ds[1..]);
      assert Run(g, s, ds).results == [step.result] + rest.results;
      AnswersAfterInitialized(g, step.state, ds[1..]);
    }
  }

  /** A target at genesis height 0 whose first block is not block 1 gets
      exactly one catch-up sync, with its module filter, when that sync
      succeeds: no later block start syncs again. */
  lemma {:induction false} CatchUpExactlyOnce<M>(g: Guard<M>, ds: seq<Delivery>)
    requires g.lastBlockPersisted == 0
    requires |ds| > 0 && ds[0].height != 1 && ds[0].env.syncOutcome == Pass
    ensures Run(g, Initial(), ds).state.syncCalls == [g.modules]
    ensures Run(g, Initial(), ds).state.initialized
  {
    var step := StartBlock(g, Initial(), ds[0].height, ds[0].env);
    RunAfterInitialized(g, step.state, ds[1..]);
  }

  /** What a target with a positive `L` can have seen at any point. */
  ghost predicate ContiguousFrom<M>(g: Guard<M>, s: GuardState<M>) {
    && s.syncCalls == []
    && (!s.initialized ==> s.forwardedHeights == [])
    && (s.initialized && g.hasInner ==> s.forwardedHeights != [])
    && (s.forwardedHeights != [] ==> s.forwardedHeights[0] == g.lastBlockPersisted + 1)
  }

  /** No gap and no duplicate: for a target with `L > 0` no catch-up sync is
      ever made, and the first block that reaches the backend is `L + 1`,
      however many mismatching block starts were refused before it. */
  lemma {:induction false} NoGapNoDuplicate<M>(g: Guard<M>, s: GuardState<M>, ds: seq<Delivery>)
    requires g.lastBlockPersisted > 0
    requires ContiguousFrom(g, s)
    ensures ContiguousFrom(g, Run(g, s, ds).state)
    decreases |ds|
  {
    if |ds| > 0 {
      var step := StartBlock(g, s, ds[0].height, ds[0].env);
      NoGapNoDuplicate(g, step.state, ds[1..]);
    }
  }

  /** Every block start refused before the first success is refused with an
      error naming both heights, and nothing was forwarded for it. */
  lemma {:induction false} RefusalsNameBothHeights<M>(g: Guard<M>, ds: seq<Delivery>, i: nat)
    requires g.lastBlockPersisted > 0
    requires i < |ds|
    requires forall j | 0 <= j <= i :: ds[j].height != g.lastBlockPersisted + 1
    ensures Run(g, Initial(), ds).results[i] == Fail(OutOfSync(g.lastBlockPersisted, ds[i].height))
    decreases i
  {
    var step := StartBlock(g, Initial(), ds[0].height, ds[0].env);
    assert step.state == Initial<M>();
    if i > 0 {
      RefusalsNameBothHeights(g, ds[1..], i - 1);
    }
  }
}
