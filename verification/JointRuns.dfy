// The finalize bridge and the intent lifecycle on one store. Each system was
// studied with the other as an outside writer; here both run together, and every
// joint run is shown to be a run of either one.
module JointRuns {
  import opened Prelude
  import opened WatchRules
  import opened StateStore
  import Execution
  import opened Finalize
  import F = FinalizeSafety
  import L = Lifecycle

  datatype World = World(f: F.World, l: L.World)

  datatype Action = Finalizes(a: F.Action) | Proceeds(b: L.Action)

  /** Rules and rows are created by finalize only, and everything else that happens
      to them is the lifecycle's doing. */
  predicate MayAct(action: Action) {
    match action
    case Finalizes(a) => !a.OtherFundingWrite? && !a.RuleCompletes?
    case Proceeds(b) => !b.InsertFundingRow? && !b.InsertWatchRule?
  }

  function OnFinalizeStore(f: F.World, d: L.Data): F.World {
    f.(d := f.d.(rows := d.rows, rules := d.rules))
  }

  function OnLifecycleStore(l: L.World, d: Data): L.World {
    l.(d := l.d.(rows := d.rows, rules := d.rules))
  }

  function Step(o: Outside, w: World, action: Action): World {
    if !MayAct(action) then w
    else
      match action
      case Finalizes(a) =>
        var f := F.Step(o, w.f, a);
        World(f, OnLifecycleStore(w.l, f.d))
      case Proceeds(b) =>
        var l := L.Step(o.lib, w.l, b);
        World(OnFinalizeStore(w.f, l.d), l)
  }

  const EMPTY := World(F.EMPTY_WORLD, L.EMPTY)

  function Run(o: Outside, actions: seq<Action>): World {
    if actions == [] then EMPTY else Step(o, Run(o, actions[..|actions| - 1]), actions[|actions| - 1])
  }

  ghost predicate InSync(w: World) {
    w.f.d.rows == w.l.d.rows && w.f.d.rules == w.l.d.rules
  }

  // ---- What each system sees of the other ------------------------------------------------

  /** A finalize step, as the lifecycle sees it: one insert or nothing. */
  function InsertOf(o: Outside, w: F.World, a: F.Action): Option<L.Action> {
    if a.Steps? && a.k in w.calls then
      match w.calls[a.k].pc
      case AtInsertRule(_, built, _) => if a.input.fault.LostBefore? then None else Some(L.InsertWatchRule(built))
      case AtInsertFunding(c, rule, _, snap) =>
        if a.input.fault.LostBefore? then None
        else Some(L.InsertFundingRow(NewTerms(o, c, rule, snap, a.input.nowMs)))
      case _ => None
    else None
  }

  function AfterL(lib: Library, l: L.World, b: Option<L.Action>): L.World {
    if b.Some? then L.Step(lib, l, b.value) else l
  }

  lemma MoveIsInsert(o: Outside, d: Data, pc: FinalizePc, i: Input)
    ensures !pc.AtInsertRule? ==> Move(o, d, pc, i).0.rules == d.rules
    ensures !pc.AtInsertFunding? ==> Move(o, d, pc, i).0.rows == d.rows
  {
  }

  lemma FinalizeStepIsInsert(o: Outside, w: World, a: F.Action)
    requires InSync(w) && MayAct(Finalizes(a))
    ensures OnLifecycleStore(w.l, F.Step(o, w.f, a).d) == AfterL(o.lib, w.l, InsertOf(o, w.f, a))
  {
    if a.Steps? && a.k in w.f.calls {
      MoveIsInsert(o, w.f.d, w.f.calls[a.k].pc, a.input);
    }
  }

  /** The write a call makes, unless it was lost on the way. */
  function Kept(id: string, write: FundingWrite, fault: Fault): Option<F.Action> {
    if fault.LostBefore? then None else Some(F.OtherFundingWrite(id, write))
  }

  function WatcherWrite(v: L.Watcher, i: L.WatcherInput): Option<F.Action> {
    var c := v.candidate;
    match v.pc
    case AtLease => Kept(c.intentId, LeaseExecution(i.nowMs), i.fault)
    case AtRelease(_, _) => Kept(c.intentId, ReleaseLease(PrebroadcastFailed), i.fault)
    case AtFail(_, _) => Kept(c.intentId, MarkFailed(OnchainFailed), i.fault)
    case AtCompleteRule(_, slot) =>
      if i.fault.LostBefore? then None else Some(F.RuleCompletes(Execution.RuleKey(c), c.amountRaw, slot))
    case AtCompleteFunding(signature, _) => Kept(c.intentId, MarkCompleted(signature), i.fault)
    case _ => None
  }

  function ConfirmerWrite(f: L.Confirmer, i: L.ConfirmInput): Option<F.Action> {
    var p := f.params;
    match f.pc
    case Submitting(_, _, _) => Kept(p.intentId, MarkSubmitted(p.txSignature), i.fault)
    case Reserving(_, _, tx) => Kept(p.intentId, MarkReserved(p.txSignature, tx.slot), i.fault)
    case _ => None
  }

  /** A lifecycle step, as finalize sees it: one guarded write or nothing. */
  function WriteOf(w: L.World, b: L.Action): Option<F.Action> {
    match b
    case OtherWriter(id, write) =>
      if id in w.d.rows && L.OthersMay(w.d.rows[id], write) then Some(F.OtherFundingWrite(id, write)) else None
    case WatcherSteps(k, i) => if k in w.watchers then WatcherWrite(w.watchers[k], i) else None
    case ConfirmSteps(k, i) => if k in w.confirmers then ConfirmerWrite(w.confirmers[k], i) else None
    case _ => None
  }

  function AfterF(o: Outside, f: F.World, a: Option<F.Action>): F.World {
    if a.Some? then F.Step(o, f, a.value) else f
  }

  function WroteRows(rows: Rows, a: Option<F.Action>): Rows {
    if a.Some? && a.value.OtherFundingWrite? then Written(rows, a.value.id, a.value.write) else rows
  }

  function WroteRules(rules: Rules, a: Option<F.Action>): Rules {
    if a.Some? && a.value.RuleCompletes? then RuleWritten(rules, a.value.ruleId, a.value.used, a.value.slot) else rules
  }

  /** The tables of `d` after what finalize sees as `a`. */
  ghost predicate Wrote(d: L.Data, d': L.Data, a: Option<F.Action>) {
    d'.rows == WroteRows(d.rows, a) && d'.rules == WroteRules(d.rules, a)
  }

  lemma RowWriteIsWrite(d: L.Data, id: string, write: FundingWrite, fault: Fault)
    ensures Wrote(d, L.WriteRow(d, id, write, fault), Kept(id, write, fault))
  {
  }

  lemma RuleWriteIsWrite(d: L.Data, v: L.Watcher, i: L.WatcherInput)
    requires v.pc.AtCompleteRule?
    ensures Wrote(d, L.CompleteRuleMove(d, v, i).0, WatcherWrite(v, i))
  {
  }

  lemma NetworkMoveIsNothing(d: L.Data, v: L.Watcher, i: L.WatcherInput)
    ensures v.pc.AtSubmit? ==> Wrote(d, L.SubmitMove(d, v, i).0, None)
    ensures v.pc.AtPoll? ==> Wrote(d, L.PollMove(d, v, i).0, None)
  {
  }

  lemma WatcherMoveIsWrite(d: L.Data, v: L.Watcher, i: L.WatcherInput, d': L.Data, a: Option<F.Action>)
    requires d' == L.WatcherMove(d, v, i).0 && a == WatcherWrite(v, i)
    ensures Wrote(d, d', a)
  {
    var id := v.candidate.intentId;
    NetworkMoveIsNothing(d, v, i);
    match v.pc
    case AtLease => RowWriteIsWrite(d, id, LeaseExecution(i.nowMs), i.fault);
    case AtRelease(_, _) => RowWriteIsWrite(d, id, ReleaseLease(PrebroadcastFailed), i.fault);
    case AtFail(_, _) => RowWriteIsWrite(d, id, MarkFailed(OnchainFailed), i.fault);
    case AtCompleteRule(_, _) => RuleWriteIsWrite(d, v, i);
    case AtCompleteFunding(signature, _) => RowWriteIsWrite(d, id, MarkCompleted(signature), i.fault);
    case _ =>
  }

  lemma ConfirmMoveIsWrite(lib: Library, d: L.Data, f: L.Confirmer, i: L.ConfirmInput)
    ensures Wrote(d, L.ConfirmMove(lib, d, f, i).0, ConfirmerWrite(f, i))
  {
  }

  lemma StepWrites(lib: Library, l: L.World, b: L.Action)
    requires MayAct(Proceeds(b))
    ensures Wrote(l.d, L.Step(lib, l, b).d, WriteOf(l, b))
  {
    match b
    case WatcherSteps(k, i) =>
      if k in l.watchers {
        WatcherMoveIsWrite(l.d, l.watchers[k], i, L.WatcherMove(l.d, l.watchers[k], i).0,
                           WatcherWrite(l.watchers[k], i));
      }
    case ConfirmSteps(k, i) =>
      if k in l.confirmers {
        ConfirmMoveIsWrite(lib, l.d, l.confirmers[k], i);
      }
    case _ =>
  }

  /** Finalize makes the same of such a write. */
  lemma WroteIsStep(o: Outside, f: F.World, d: L.Data, d': L.Data, a: Option<F.Action>)
    requires f.d.rows == d.rows && f.d.rules == d.rules && Wrote(d, d', a)
    requires a.Some? ==> a.value.OtherFundingWrite? || a.value.RuleCompletes?
    ensures OnFinalizeStore(f, d') == AfterF(o, f, a)
  {
  }

  lemma LifecycleStepIsWrite(o: Outside, w: World, b: L.Action)
    requires InSync(w) && MayAct(Proceeds(b))
    ensures OnFinalizeStore(w.f, L.Step(o.lib, w.l, b).d) == AfterF(o, w.f, WriteOf(w.l, b))
  {
    StepWrites(o.lib, w.l, b);
    WroteIsStep(o, w.f, w.l.d, L.Step(o.lib, w.l, b).d, WriteOf(w.l, b));
  }

  // ---- Every joint run is a run of either system --------------------------------------------

  function More<T>(s: seq<T>, t: Option<T>): seq<T> {
    if t.Some? then s + [t.value] else s
  }

  /** A joint run, as finalize sees it. */
  function FinalizeRun(o: Outside, actions: seq<Action>): seq<F.Action> {
    if actions == [] then []
    else
      var n := |actions| - 1;
      var view :=
        if !MayAct(actions[n]) then None
        else if actions[n].Finalizes? then Some(actions[n].a)
        else WriteOf(Run(o, actions[..n]).l, actions[n].b);
      More(FinalizeRun(o, actions[..n]), view)
  }

  /** A joint run, as the lifecycle sees it. */
  function LifecycleRun(o: Outside, actions: seq<Action>): seq<L.Action> {
    if actions == [] then []
    else
      var n := |actions| - 1;
      var view :=
        if !MayAct(actions[n]) then None
        else if actions[n].Proceeds? then Some(actions[n].b)
        else InsertOf(o, Run(o, actions[..n]).f, actions[n].a);
      More(LifecycleRun(o, actions[..n]), view)
  }

  lemma FinalizeRunGoesOn(o: Outside, fs: seq<F.Action>, a: Option<F.Action>)
    ensures F.Run(o, More(fs, a)) == AfterF(o, F.Run(o, fs), a)
  {
    if a.Some? {
      assert (fs + [a.value])[..|fs|] == fs;
    }
  }

  lemma LifecycleRunGoesOn(lib: Library, ls: seq<L.Action>, b: Option<L.Action>)
    ensures L.Run(lib, More(ls, b)) == AfterL(lib, L.Run(lib, ls), b)
  {
    if b.Some? {
      assert (ls + [b.value])[..|ls|] == ls;
    }
  }

  /** Whatever was proved of every run of one system alone holds in every joint run,
      and both systems are looking at the same rows and rules. */
  lemma {:induction false} JointRunsProject(o: Outside, actions: seq<Action>)
    ensures F.Run(o, FinalizeRun(o, actions)) == Run(o, actions).f
    ensures L.Run(o.lib, LifecycleRun(o, actions)) == Run(o, actions).l
    ensures InSync(Run(o, actions))
  {
    if actions != [] {
      var n := |actions| - 1;
      var w := Run(o, actions[..n]);
      JointRunsProject(o, actions[..n]);
      var fs, ls := FinalizeRun(o, actions[..n]), LifecycleRun(o, actions[..n]);
      match actions[n]
      case Finalizes(a) =>
        if MayAct(actions[n]) {
          FinalizeStepIsInsert(o, w, a);
          FinalizeRunGoesOn(o, fs, Some(a));
          LifecycleRunGoesOn(o.lib, ls, InsertOf(o, w.f, a));
        }
      case Proceeds(b) =>
        if MayAct(actions[n]) {
          LifecycleStepIsWrite(o, w, b);
          LifecycleRunGoesOn(o.lib, ls, Some(b));
          FinalizeRunGoesOn(o, fs, WriteOf(w.l, b));
        }
    }
  }

  /** Going on with a joint run is going on with either run. */
  lemma {:induction false} JointRunsExtend(o: Outside, before: seq<Action>, after: seq<Action>)
    ensures FinalizeRun(o, before) <= FinalizeRun(o, before + after)
    ensures LifecycleRun(o, before) <= LifecycleRun(o, before + after)
  {
    if after == [] {
      assert before + after == before;
    } else {
      var n := |after| - 1;
      JointRunsExtend(o, before, after[..n]);
      assert (before + after)[..|before + after| - 1] == before + after[..n];
    }
  }
}
