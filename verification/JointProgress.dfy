// Progress in joint runs: what one system can do on its own, it can do beside the other.
module JointProgress {
  import opened Prelude
  import opened Codecs
  import opened WatchRules
  import opened StateStore
  import Proposals
  import opened FundingProof
  import opened ConfirmFunding
  import opened Finalize
  import opened FinalizeProgram
  import opened FinalizeAnswers
  import opened JointRuns
  import F = FinalizeSafety
  import FP = FinalizeProgress
  import L = Lifecycle
  import LP = Progress

  function OfFinalize(fs: seq<F.Action>): (actions: seq<Action>)
    ensures |actions| == |fs| && forall i :: 0 <= i < |fs| ==> actions[i] == Finalizes(fs[i])
  {
    if fs == [] then [] else OfFinalize(fs[..|fs| - 1]) + [Finalizes(fs[|fs| - 1])]
  }

  function OfLifecycle(bs: seq<L.Action>): (actions: seq<Action>)
    ensures |actions| == |bs| && forall i :: 0 <= i < |bs| ==> actions[i] == Proceeds(bs[i])
  {
    if bs == [] then [] else OfLifecycle(bs[..|bs| - 1]) + [Proceeds(bs[|bs| - 1])]
  }

  lemma LastOf(before: seq<Action>, s: seq<Action>, a: Action)
    ensures (before + (s + [a]))[..|before + (s + [a])| - 1] == before + s
    ensures (before + (s + [a]))[|before + (s + [a])| - 1] == a
  {
  }

  // ---- Finalize, beside the lifecycle --------------------------------------------------------

  predicate AllCalls(fs: seq<F.Action>) {
    forall i :: 0 <= i < |fs| ==> fs[i].Starts? || fs[i].Steps?
  }

  lemma {:induction false} FinalizeRunGrows(o: Outside, before: seq<Action>, fs: seq<F.Action>)
    requires AllCalls(fs)
    ensures FinalizeRun(o, before + OfFinalize(fs)) == FinalizeRun(o, before) + fs
  {
    if fs == [] {
      assert before + [] == before;
    } else {
      var n := |fs| - 1;
      FinalizeRunGrows(o, before, fs[..n]);
      LastOf(before, OfFinalize(fs[..n]), Finalizes(fs[n]));
      assert FinalizeRun(o, before) + fs == FinalizeRun(o, before) + fs[..n] + [fs[n]];
    }
  }

  lemma FinalizeLeavesMachines(o: Outside, w: World, a: F.Action)
    ensures Step(o, w, Finalizes(a)).l.watchers == w.l.watchers
    ensures Step(o, w, Finalizes(a)).l.confirmers == w.l.confirmers
  {
  }

  lemma MachinesStayOnce(o: Outside, before: seq<Action>, s: seq<Action>, a: F.Action, w: World, w': World)
    requires w == Run(o, before + s) && w' == Run(o, before + (s + [Finalizes(a)]))
    ensures w'.l.watchers == w.l.watchers && w'.l.confirmers == w.l.confirmers
  {
    LastOf(before, s, Finalizes(a));
    FinalizeLeavesMachines(o, w, a);
  }

  lemma {:induction false} MachinesStay(o: Outside, before: seq<Action>, fs: seq<F.Action>)
    ensures Run(o, before + OfFinalize(fs)).l.watchers == Run(o, before).l.watchers
    ensures Run(o, before + OfFinalize(fs)).l.confirmers == Run(o, before).l.confirmers
  {
    if fs == [] {
      assert before + [] == before;
    } else {
      var n := |fs| - 1;
      MachinesStay(o, before, fs[..n]);
      MachinesStayOnce(o, before, OfFinalize(fs[..n]), fs[n], Run(o, before + OfFinalize(fs[..n])),
                       Run(o, before + OfFinalize(fs)));
    }
  }

  /** The joint actions of one finalize call that nobody disturbs. */
  function FinalizesDraft(o: Outside, d: Data, k: nat, r: Request, s: Inputs): seq<Action> {
    OfFinalize(FP.Finalizes(o, d, k, r, s, FINALIZE_STEPS))
  }

  lemma FinalizesAreCalls(o: Outside, d: Data, k: nat, r: Request, s: Inputs, n: nat)
    ensures AllCalls(FP.Finalizes(o, d, k, r, s, n))
  {
  }

  /** A new draft can be finalized in any joint run: its rule and its row are stored, and
      everything else in the tables stays. */
  lemma NewDraftCanBeFinalized(o: Outside, before: seq<Action>, k: nat, r: Request, s: Inputs, w: World, w': World)
    requires w == Run(o, before) && k !in w.f.calls && FP.CanBeFinalized(o, w.f.d, r, s)
    requires w' == Run(o, before + FinalizesDraft(o, w.f.d, k, r, s))
    ensures
      var c := Admit(o, r).c;
      var terms := TermsFor(o, c, s);
      && k in w'.f.calls && w'.f.calls[k].pc == Finished(Actionable(terms, s.readFunding.nowMs))
      && w'.l.d.rows == w.l.d.rows[terms.intentId := FreshFundingRow(terms)]
      && w'.l.d.rules == w.l.d.rules[terms.intentId := FreshRuleRow(o.lib, BuiltFor(o, c, s))]
      && w'.l.watchers == w.l.watchers && w'.l.confirmers == w.l.confirmers
  {
    var fs := FP.Finalizes(o, w.f.d, k, r, s, FINALIZE_STEPS);
    FinalizesAreCalls(o, w.f.d, k, r, s, FINALIZE_STEPS);
    JointRunsProject(o, before);
    JointRunsProject(o, before + OfFinalize(fs));
    FinalizeRunGrows(o, before, fs);
    MachinesStay(o, before, fs);
    FP.NewDraftCanBeFinalized(o, FinalizeRun(o, before), k, r, s, w.f, w'.f);
  }

  // ---- The lifecycle, beside finalize ----------------------------------------------------------

  predicate NoInserts(bs: seq<L.Action>) {
    forall i :: 0 <= i < |bs| ==> !bs[i].InsertFundingRow? && !bs[i].InsertWatchRule?
  }

  lemma {:induction false} LifecycleRunGrows(o: Outside, before: seq<Action>, bs: seq<L.Action>)
    requires NoInserts(bs)
    ensures LifecycleRun(o, before + OfLifecycle(bs)) == LifecycleRun(o, before) + bs
  {
    if bs == [] {
      assert before + [] == before;
    } else {
      var n := |bs| - 1;
      LifecycleRunGrows(o, before, bs[..n]);
      LastOf(before, OfLifecycle(bs[..n]), Proceeds(bs[n]));
      assert LifecycleRun(o, before) + bs == LifecycleRun(o, before) + bs[..n] + [bs[n]];
    }
  }

  /** What the lifecycle does on its own it does in a joint run. */
  lemma LifecycleGoesOn(o: Outside, before: seq<Action>, bs: seq<L.Action>, w': World)
    requires NoInserts(bs) && w' == Run(o, before + OfLifecycle(bs))
    ensures w'.l == L.Run(o.lib, LifecycleRun(o, before) + bs)
  {
    JointRunsProject(o, before + OfLifecycle(bs));
    LifecycleRunGrows(o, before, bs);
  }

  lemma {:induction false} ConfirmActionsInsertNothing(k: nat, inputs: seq<L.ConfirmInput>)
    ensures NoInserts(LP.ConfirmActions(k, inputs))
  {
    if inputs != [] {
      ConfirmActionsInsertNothing(k, inputs[..|inputs| - 1]);
    }
  }

  /** A waiting row can be funded in any joint run. */
  lemma WaitingRowCanBeFunded(o: Outside, before: seq<Action>, k: nat, p: Params, c: ConfirmOutside, tx: Observation,
                              w: World, w': World)
    requires w == Run(o, before)
    requires w' == Run(o, before + OfLifecycle(LP.Confirms(o.lib, w.l.d, k, p, c, CONFIRM_STEPS)))
    requires k !in w.l.confirmers && Start(o.lib, p) == GettingRow && NoFaults(c)
    requires p.intentId in w.l.d.rows && p.intentId in w.l.d.rules
    requires RuleMatchesIntent(o.lib, w.l.d.rules[p.intentId], w.l.d.rows[p.intentId].terms)
    requires w.l.d.rows[p.intentId].status == FundingRequired
    requires c.reader == Some(ReadConfirmed(tx)) && Paid(o.lib, tx, w.l.d.rows[p.intentId].terms)
    ensures p.intentId in w'.l.d.rows && w'.l.d.rows[p.intentId].status == BudgetReserved
    ensures w'.l.d.rows[p.intentId].terms == w.l.d.rows[p.intentId].terms
    ensures w'.l.d.rules == w.l.d.rules && w'.l.watchers == w.l.watchers
  {
    var bs := LP.Confirms(o.lib, w.l.d, k, p, c, CONFIRM_STEPS);
    JointRunsProject(o, before);
    ConfirmsInsertNothing(o.lib, w.l.d, k, p, c, CONFIRM_STEPS);
    LifecycleGoesOn(o, before, bs, w');
    LP.WaitingRowCanBeFunded(o.lib, LifecycleRun(o, before), k, p, c, tx, w.l, w'.l);
  }

  lemma ConfirmsInsertNothing(lib: Library, d: L.Data, k: nat, p: Params, c: ConfirmOutside, n: nat)
    ensures NoInserts(LP.Confirms(lib, d, k, p, c, n))
  {
    ConfirmActionsInsertNothing(k, LP.InputsOf(lib, d, L.Confirmer(p, Start(lib, p), 0), c, n));
  }

  // ---- From the draft to the reservation ---------------------------------------------------------

  /** The rule and the row that such a call writes match, as confirmation compares them. */
  lemma NewRowMatchesNewRule(o: Outside, c: Admitted, s: Inputs)
    requires s.market.snapshot.Some? && o.lib.keyText(o.pins.controlled) == Proposals.CONTROLLED_WALLET
    ensures RuleMatchesIntent(o.lib, FreshRuleRow(o.lib, BuiltFor(o, c, s)), TermsFor(o, c, s))
  {
  }

  lemma OwnIdIsValid(lib: Library, rule: WatchRule, signature: string)
    requires lib.isSignature(signature)
    ensures Start(lib, Params(HexLower(rule.ruleId), signature)) == GettingRow
  {
    DecodeRuleIdIff(HexLower(rule.ruleId), rule.ruleId);
  }

  /** Everything that the way of one draft to its reservation meets: its call, and the
      confirmation of a payment. */
  datatype Way = Way(kf: nat, r: Request, s: Inputs, kc: nat, signature: string, c: ConfirmOutside, tx: Observation)

  /** The draft is new here, and finalizing it goes well. */
  predicate StartsWell(o: Outside, w: World, y: Way) {
    && y.kf !in w.f.calls && FP.CanBeFinalized(o, w.f.d, y.r, y.s)
    && o.lib.keyText(o.pins.controlled) == Proposals.CONTROLLED_WALLET
  }

  function Terms(o: Outside, y: Way): FundingTerms
    requires Admit(o, y.r).AtClaim? && y.s.market.snapshot.Some?
  {
    TermsFor(o, Admit(o, y.r).c, y.s)
  }

  function Rule(o: Outside, y: Way): WatchRule
    requires Admit(o, y.r).AtClaim? && y.s.market.snapshot.Some?
  {
    BuiltFor(o, Admit(o, y.r).c, y.s)
  }

  /** A transaction pays for its terms, and is read. */
  predicate IsPaid(o: Outside, w: World, y: Way)
    requires Admit(o, y.r).AtClaim? && y.s.market.snapshot.Some?
  {
    && y.kc !in w.l.confirmers && o.lib.isSignature(y.signature) && NoFaults(y.c)
    && y.c.reader == Some(ReadConfirmed(y.tx)) && Paid(o.lib, y.tx, Terms(o, y))
  }

  /** The draft's row is reserved, under its terms, beside its rule. */
  predicate IsReserved(o: Outside, w: World, y: Way)
    requires Admit(o, y.r).AtClaim? && y.s.market.snapshot.Some?
  {
    var d, id := w.l.d, Terms(o, y).intentId;
    && id in d.rows && d.rows[id].status == BudgetReserved && d.rows[id].terms == Terms(o, y)
    && id in d.rules && d.rules[id].rule == Rule(o, y)
  }

  predicate Unwatched(a: Action) {
    a.Proceeds? ==> !a.b.WatcherStarts? && !a.b.WatcherSteps?
  }

  /** A continuation in which no watcher acts. */
  predicate GoesOn(before: seq<Action>, so: seq<Action>) {
    before <= so && forall i :: |before| <= i < |so| ==> Unwatched(so[i])
  }

  /** The continuation stores the draft's rule and its waiting row, and touches no machine
      of the lifecycle. */
  ghost predicate Stores(o: Outside, before: seq<Action>, so: seq<Action>, y: Way)
    requires Admit(o, y.r).AtClaim? && y.s.market.snapshot.Some?
  {
    GoesOn(before, so) && Stored(o, Run(o, before), Run(o, so), y)
  }

  ghost predicate Stored(o: Outside, w: World, w': World, y: Way)
    requires Admit(o, y.r).AtClaim? && y.s.market.snapshot.Some?
  {
    var terms := Terms(o, y);
    && w'.l.watchers == w.l.watchers && w'.l.confirmers == w.l.confirmers
    && terms.intentId in w'.l.d.rows && w'.l.d.rows[terms.intentId] == FreshFundingRow(terms)
    && terms.intentId in w'.l.d.rules && w'.l.d.rules[terms.intentId] == FreshRuleRow(o.lib, Rule(o, y))
  }

  /** The continuation reserves the row. */
  ghost predicate Reserves(o: Outside, before: seq<Action>, so: seq<Action>, y: Way)
    requires Admit(o, y.r).AtClaim? && y.s.market.snapshot.Some?
  {
    GoesOn(before, so) && Run(o, so).l.watchers == Run(o, before).l.watchers && IsReserved(o, Run(o, so), y)
  }

  lemma StoresSomehow(o: Outside, before: seq<Action>, y: Way, w: World)
    requires w == Run(o, before) && StartsWell(o, w, y)
    ensures exists so :: Stores(o, before, so, y)
  {
    var so := before + FinalizesDraft(o, w.f.d, y.kf, y.r, y.s);
    StoresSo(o, before, y, w, so, Run(o, so));
    CallsGoOn(before, FP.Finalizes(o, w.f.d, y.kf, y.r, y.s, FINALIZE_STEPS));
    assert Stores(o, before, so, y);
  }

  lemma CallsGoOn(before: seq<Action>, fs: seq<F.Action>)
    ensures GoesOn(before, before + OfFinalize(fs))
  {
  }

  lemma StoresSo(o: Outside, before: seq<Action>, y: Way, w: World, so: seq<Action>, w': World)
    requires w == Run(o, before) && StartsWell(o, w, y)
    requires so == before + FinalizesDraft(o, w.f.d, y.kf, y.r, y.s) && w' == Run(o, so)
    ensures Stored(o, w, w', y)
  {
    NewDraftCanBeFinalized(o, before, y.kf, y.r, y.s, w, w');
  }

  lemma {:induction false} OnlyConfirmSteps(k: nat, inputs: seq<L.ConfirmInput>)
    ensures forall i :: 0 <= i < |inputs| ==> LP.ConfirmActions(k, inputs)[i].ConfirmSteps?
  {
    if inputs != [] {
      OnlyConfirmSteps(k, inputs[..|inputs| - 1]);
    }
  }

  lemma ConfirmsGoOn(lib: Library, before: seq<Action>, d: L.Data, k: nat, p: Params, c: ConfirmOutside, n: nat)
    ensures GoesOn(before, before + OfLifecycle(LP.Confirms(lib, d, k, p, c, n)))
  {
    OnlyConfirmSteps(k, LP.InputsOf(lib, d, L.Confirmer(p, Start(lib, p), 0), c, n));
  }

  lemma ReservesSomehow(o: Outside, before: seq<Action>, y: Way, w: World)
    requires Admit(o, y.r).AtClaim? && y.s.market.snapshot.Some?
    requires w == Run(o, before) && IsPaid(o, w, y) && Stored(o, w, w, y)
    requires o.lib.keyText(o.pins.controlled) == Proposals.CONTROLLED_WALLET
    ensures exists so :: Reserves(o, before, so, y)
  {
    var p := Params(Terms(o, y).intentId, y.signature);
    var so := before + OfLifecycle(LP.Confirms(o.lib, w.l.d, y.kc, p, y.c, CONFIRM_STEPS));
    NewRowMatchesNewRule(o, Admit(o, y.r).c, y.s);
    OwnIdIsValid(o.lib, Rule(o, y), y.signature);
    WaitingRowCanBeFunded(o, before, y.kc, p, y.c, y.tx, w, Run(o, so));
    ConfirmsGoOn(o.lib, before, w.l.d, y.kc, p, y.c, CONFIRM_STEPS);
    assert Reserves(o, before, so, y);
  }

  /** In any joint run, a new draft can be finalized and then funded by a transaction that
      pays for its terms. */
  lemma DraftCanBeFunded(o: Outside, before: seq<Action>, y: Way, w: World)
    requires w == Run(o, before) && StartsWell(o, w, y) && IsPaid(o, w, y)
    ensures exists so :: Reserves(o, before, so, y)
  {
    StoresSomehow(o, before, y, w);
    var stored :| Stores(o, before, stored, y);
    ReservesSomehow(o, stored, y, Run(o, stored));
    var so :| Reserves(o, stored, so, y);
    StoresThenReserves(o, before, stored, so, y);
  }

  lemma StoresThenReserves(o: Outside, before: seq<Action>, stored: seq<Action>, so: seq<Action>, y: Way)
    requires Admit(o, y.r).AtClaim? && y.s.market.snapshot.Some?
    requires Stores(o, before, stored, y) && Reserves(o, stored, so, y)
    ensures Reserves(o, before, so, y)
  {
  }
}
