// Leases without a holder. The tools have no way to take back the lease of an attempt
// that is gone: such a row stays executing, and exactly such a row.
module Stranding {
  import opened Prelude
  import opened WatchRules
  import opened StateStore
  import opened Submission
  import opened ConfirmFunding
  import opened Execution
  import opened Lifecycle
  import opened LifecycleInvariant
  import opened LifecycleSafety

  ghost predicate HeldBy(w: World, k: nat, id: string) {
    k in w.watchers && Holds(w.watchers[k], id)
  }

  /** The row is executing and nobody is executing it. */
  ghost predicate Stranded(w: World, id: string) {
    id in w.d.rows && w.d.rows[id].status == Executing && forall k: nat :: !HeldBy(w, k, id)
  }

  ghost predicate SameRow(d: Data, d': Data, id: string) {
    id in d.rows && id in d'.rows && d'.rows[id] == d.rows[id]
  }

  // ---- Nothing moves a stranded row --------------------------------------------------------

  /** The one write that a watcher without the lease makes is refused. */
  lemma IdleMoveLeavesRow(d: Data, v: Watcher, i: WatcherInput, id: string, move: (Data, Watcher))
    requires WatcherOk(d, v) && id in d.rows && d.rows[id].status == Executing
    requires !Holds(v, id) && move == WatcherMove(d, v, i)
    ensures id in move.0.rows && move.0.rows[id] == d.rows[id] && !Holds(move.1, id)
  {
    if v.candidate.intentId == id {
      LeaseOfExecutingRefused(d, v, i, id);
    } else {
      WatcherWritesItsOwn(d, v, i, id);
    }
  }

  lemma LeaseOfExecutingRefused(d: Data, v: Watcher, i: WatcherInput, id: string)
    requires v.candidate.intentId == id && id in d.rows && d.rows[id].status == Executing && !v.pc.HoldsLease()
    ensures WatcherMove(d, v, i).0 == d && !WatcherMove(d, v, i).1.pc.HoldsLease()
  {
  }

  lemma WatcherWritesItsOwn(d: Data, v: Watcher, i: WatcherInput, id: string)
    requires v.candidate.intentId != id && id in d.rows
    ensures id in WatcherMove(d, v, i).0.rows && WatcherMove(d, v, i).0.rows[id] == d.rows[id]
    ensures WatcherMove(d, v, i).1.candidate == v.candidate
  {
  }

  /** A confirmation writes to rows that wait for funding only. */
  lemma ConfirmMoveLeavesRow(lib: Library, d: Data, f: Confirmer, i: ConfirmInput, id: string)
    requires id in d.rows && d.rows[id].status == Executing
    ensures id in ConfirmMove(lib, d, f, i).0.rows && ConfirmMove(lib, d, f, i).0.rows[id] == d.rows[id]
  {
  }

  lemma WatcherStepStays(w: World, k: nat, i: WatcherInput, id: string, w': World)
    requires Stranded(w, id) && k in w.watchers && WatcherOk(w.d, w.watchers[k])
    requires w' == WithWatcher(w, k, WatcherMove(w.d, w.watchers[k], i))
    ensures Stranded(w', id) && w'.d.rows[id] == w.d.rows[id]
  {
    assert !HeldBy(w, k, id);
    IdleMoveLeavesRow(w.d, w.watchers[k], i, id, WatcherMove(w.d, w.watchers[k], i));
    forall j: nat ensures !HeldBy(w', j, id) {
      assert !HeldBy(w, j, id);
    }
  }

  lemma OtherStepStays(lib: Library, w: World, a: Action, id: string, w': World)
    requires Stranded(w, id) && w' == Step(lib, w, a) && !a.WatcherSteps?
    ensures Stranded(w', id) && w'.d.rows[id] == w.d.rows[id]
  {
    if a.ConfirmSteps? && a.k in w.confirmers {
      ConfirmMoveLeavesRow(lib, w.d, w.confirmers[a.k], a.confirmInput, id);
    }
    forall j: nat ensures !HeldBy(w', j, id) {
      assert !HeldBy(w, j, id);
    }
  }

  lemma StrandedStep(lib: Library, w: World, a: Action, id: string, w': World)
    requires Inv(lib, w) && Stranded(w, id) && w' == Step(lib, w, a)
    ensures Stranded(w', id) && SameRow(w.d, w'.d, id)
  {
    if a.WatcherSteps? && a.k in w.watchers {
      assert WatcherOk(w.d, w.watchers[a.k]);
      WatcherStepStays(w, a.k, a.input, id, w');
    } else if a.WatcherSteps? {
      assert w' == w;
    } else {
      OtherStepStays(lib, w, a, id, w');
    }
  }

  /** Once a row is executing with nobody holding its lease, every continuation leaves
      it exactly as it is. */
  lemma {:induction false} StrandedForEver(lib: Library, before: seq<Action>, after: seq<Action>, id: string)
    requires Stranded(Run(lib, before), id)
    ensures Stranded(Run(lib, before + after), id)
    ensures SameRow(DataAfter(lib, before), DataAfter(lib, before + after), id)
  {
    if after == [] {
      assert before + after == before;
    } else {
      var n := |after| - 1;
      StrandedForEver(lib, before, after[..n], id);
      LastStep(lib, before, after);
      InvariantHolds(lib, before + after[..n]);
      StrandedStep(lib, Run(lib, before + after[..n]), after[n], id, Run(lib, before + after));
    }
  }

  // ---- A held row can always be moved -----------------------------------------------------------

  /** Every call works, nothing is signed or sent any more, and a poll sees a failure. */
  const FINISH := WatcherInput(NoFault, 0, Err(FinalityTimeout), false, RpcError, PollReverted(FinalityTimeout))

  /** Two such steps of the holder end its hold on the row. */
  lemma HolderFinishes(d: Data, v: Watcher, first: (Data, Watcher), second: (Data, Watcher))
    requires WatcherOk(d, v) && v.pc.HoldsLease()
    requires first == WatcherMove(d, v, FINISH) && second == WatcherMove(first.0, first.1, FINISH)
    ensures v.candidate.intentId in second.0.rows && second.0.rows[v.candidate.intentId].status != Executing
  {
    if v.pc.AtReview? || v.pc.AtSubmit? || v.pc.AtPoll? {
      HolderTurnsBack(d, v, first);
      LastWriteFinishes(first.0, first.1, second);
    } else if v.pc.AtCompleteRule? {
      RuleIsCompleted(d, v, first);
      LastWriteFinishes(first.0, first.1, second);
    } else {
      LastWriteFinishes(d, v, first);
      assert second == first;
    }
  }

  /** One step away from its last write a holder comes to that write. */
  lemma HolderTurnsBack(d: Data, v: Watcher, move: (Data, Watcher))
    requires WatcherOk(d, v) && (v.pc.AtReview? || v.pc.AtSubmit? || v.pc.AtPoll?) && move == WatcherMove(d, v, FINISH)
    ensures move.0.rows == d.rows && move.1.candidate == v.candidate && (move.1.pc.AtRelease? || move.1.pc.AtFail?)
  {
  }

  lemma RuleIsCompleted(d: Data, v: Watcher, move: (Data, Watcher))
    requires WatcherOk(d, v) && v.pc.AtCompleteRule? && move == WatcherMove(d, v, FINISH)
    ensures move.0.rows == d.rows && move.1.candidate == v.candidate && move.1.pc.AtCompleteFunding?
  {
  }

  lemma LastWriteFinishes(d: Data, v: Watcher, move: (Data, Watcher))
    requires v.candidate.intentId in d.rows && d.rows[v.candidate.intentId].status == Executing
    requires (v.pc.AtRelease? || v.pc.AtFail? || v.pc.AtCompleteFunding?) && move == WatcherMove(d, v, FINISH)
    ensures v.candidate.intentId in move.0.rows && move.0.rows[v.candidate.intentId].status != Executing
    ensures move.1.pc.Done?
  {
  }

  lemma HeldCanMove(lib: Library, actions: seq<Action>, k: nat, id: string)
    requires HeldBy(Run(lib, actions), k, id)
    ensures
      var end := actions + [WatcherSteps(k, FINISH)] + [WatcherSteps(k, FINISH)];
      id in DataAfter(lib, end).rows && DataAfter(lib, end).rows[id].status != Executing
  {
    InvariantHolds(lib, actions);
    var w := Run(lib, actions);
    assert WatcherOk(w.d, w.watchers[k]);
    NextWatcherStep(lib, actions, k, FINISH);
    NextWatcherStep(lib, actions + [WatcherSteps(k, FINISH)], k, FINISH);
    var first := WatcherMove(w.d, w.watchers[k], FINISH);
    HolderFinishes(w.d, w.watchers[k], first, WatcherMove(first.0, first.1, FINISH));
  }

  /** Exactly the executing rows without a live holder never move again. */
  lemma StuckIffStranded(lib: Library, actions: seq<Action>, id: string)
    requires id in DataAfter(lib, actions).rows && DataAfter(lib, actions).rows[id].status == Executing
    ensures
      (forall after: seq<Action> :: SameRow(DataAfter(lib, actions), DataAfter(lib, actions + after), id))
      <==> Stranded(Run(lib, actions), id)
  {
    if Stranded(Run(lib, actions), id) {
      forall after: seq<Action> ensures SameRow(DataAfter(lib, actions), DataAfter(lib, actions + after), id) {
        StrandedForEver(lib, actions, after, id);
      }
    } else {
      var k: nat :| HeldBy(Run(lib, actions), k, id);
      var after := [WatcherSteps(k, FINISH)] + [WatcherSteps(k, FINISH)];
      HeldCanMove(lib, actions, k, id);
      assert actions + after == actions + [WatcherSteps(k, FINISH)] + [WatcherSteps(k, FINISH)];
      assert !SameRow(DataAfter(lib, actions), DataAfter(lib, actions + after), id);
    }
  }

  // ---- How a row gets stranded -------------------------------------------------------------------

  lemma CrashOf(lib: Library, actions: seq<Action>, k: nat)
    requires k in Run(lib, actions).watchers
    ensures
      var w := Run(lib, actions);
      Run(lib, actions + [WatcherCrashes(k)]) == WithWatcher(w, k, (w.d, w.watchers[k].(pc := Crashed)))
  {
    var more := actions + [WatcherCrashes(k)];
    assert more[..|more| - 1] == actions && more[|more| - 1] == WatcherCrashes(k);
  }

  /** With the only holder gone, nobody holds. */
  lemma WithoutHolder(w: World, k: nat, id: string, w': World)
    requires LeaseIsExclusive(w.watchers) && HeldBy(w, k, id) && WatcherOk(w.d, w.watchers[k])
    requires w' == WithWatcher(w, k, (w.d, w.watchers[k].(pc := Crashed)))
    ensures Stranded(w', id)
  {
    forall j: nat ensures !HeldBy(w', j, id) {
      if j != k && HeldBy(w, j, id) {
        assert BothHold(w.watchers[j], w.watchers[k]);
      }
    }
  }

  /** By a crash of its holder. */
  lemma CrashStrands(lib: Library, actions: seq<Action>, k: nat, id: string)
    requires HeldBy(Run(lib, actions), k, id)
    ensures Stranded(Run(lib, actions + [WatcherCrashes(k)]), id)
  {
    InvariantHolds(lib, actions);
    CrashOf(lib, actions, k);
    var w := Run(lib, actions);
    assert WatcherOk(w.d, w.watchers[k]);
    WithoutHolder(w, k, id, Run(lib, actions + [WatcherCrashes(k)]));
  }

  lemma LostLease(w: World, k: nat, i: WatcherInput, id: string, w': World)
    requires k in w.watchers && w.watchers[k].pc.AtLease? && i.fault.LostAfter? && id == w.watchers[k].candidate.intentId
    requires id in w.d.rows && Allowed(w.d.rows[id], LeaseExecution(i.nowMs))
    requires forall j :: j in w.watchers ==> !Holds(w.watchers[j], id)
    requires w' == WithWatcher(w, k, LeaseMove(w.d, w.watchers[k], i))
    ensures Stranded(w', id)
  {
    forall j: nat ensures !HeldBy(w', j, id) {
      assert j in w.watchers ==> !Holds(w.watchers[j], id);
    }
  }

  /** By a lease call that takes effect and then errs. */
  lemma LostLeaseStrands(lib: Library, actions: seq<Action>, k: nat, i: WatcherInput)
    requires k in Run(lib, actions).watchers && Run(lib, actions).watchers[k].pc.AtLease? && i.fault.LostAfter?
    requires
      var id := Run(lib, actions).watchers[k].candidate.intentId;
      id in DataAfter(lib, actions).rows && Allowed(DataAfter(lib, actions).rows[id], LeaseExecution(i.nowMs))
    ensures Stranded(Run(lib, actions + [WatcherSteps(k, i)]), Run(lib, actions).watchers[k].candidate.intentId)
  {
    InvariantHolds(lib, actions);
    var w := Run(lib, actions);
    var id := w.watchers[k].candidate.intentId;
    NextWatcherStep(lib, actions, k, i);
    NobodyHolds(lib, w, id);
    LostLease(w, k, i, id, Run(lib, actions + [WatcherSteps(k, i)]));
  }
}
