// What a finalize call did at each of its steps in a run, told from its answer; and
// the one way to a funding row that does not speak of its stored rule.
module FinalizeHistory {
  import opened Prelude
  import opened Codecs
  import opened WatchRules
  import opened StateStore
  import opened Sidecar
  import opened Finalize
  import opened FinalizeSafety

  lemma RunAt(o: Outside, actions: seq<Action>, j: nat)
    requires j < |actions|
    ensures Run(o, actions[..j + 1]) == Step(o, Run(o, actions[..j]), actions[j])
  {
    assert actions[..j + 1][..j] == actions[..j];
  }

  // ---- Rejections before the claim ---------------------------------------------------------

  /** A call stays, and what it has reached and left behind stays with it. */
  ghost predicate CallKept(before: FinalizeSafety.Call, after: FinalizeSafety.Call) {
    && after.request == before.request && (before.reachedClaim ==> after.reachedClaim)
    && (before.left.Some? ==> after.left.Some?)
  }

  lemma StepKeepsCall(o: Outside, w: World, a: Action, k: nat)
    requires k in w.calls
    ensures k in Step(o, w, a).calls && CallKept(w.calls[k], Step(o, w, a).calls[k])
  {
  }

  lemma {:induction false} RunKeepsCall(o: Outside, actions: seq<Action>, j: nat, k: nat)
    requires j <= |actions| && k in Run(o, actions[..j]).calls
    ensures k in Run(o, actions).calls && CallKept(Run(o, actions[..j]).calls[k], Run(o, actions).calls[k])
  {
    if j == |actions| {
      assert actions[..j] == actions;
    } else {
      var n := |actions| - 1;
      assert actions[..n][..j] == actions[..j];
      RunKeepsCall(o, actions[..n], j, k);
      StepKeepsCall(o, Run(o, actions[..n]), actions[n], k);
    }
  }

  /** A step after which the claim is still not reached changed nothing at all. */
  lemma UnreachedStep(o: Outside, w: World, k: nat, i: Input)
    requires Inv(o, w) && (k in w.calls ==> !CallStep(o, w, k, i).calls[k].reachedClaim)
    ensures Step(o, w, Steps(k, i)).d == w.d
  {
    if k in w.calls {
      assert CallOk(o, w.d, w.calls[k]);
    }
  }

  /** A rejection before the claim wrote nothing: every single step of that call in the
      whole run left rows, rules and the sidecar exactly as they were. */
  lemma EarlyRejectionsWriteNothing(o: Outside, actions: seq<Action>, k: nat, j: nat)
    requires k in Run(o, actions).calls
    requires
      var pc := Run(o, actions).calls[k].pc;
      pc.Finished? && pc.answer.BeforeClaim()
    requires j < |actions| && actions[j].Steps? && actions[j].k == k
    ensures !Run(o, actions).calls[k].reachedClaim
    ensures DataAfter(o, actions[..j + 1]) == DataAfter(o, actions[..j])
  {
    InvariantHolds(o, actions);
    InvariantHolds(o, actions[..j]);
    assert CallOk(o, Run(o, actions).d, Run(o, actions).calls[k]);
    RunAt(o, actions, j);
    var w := Run(o, actions[..j]);
    if k in w.calls {
      StepKeepsCall(o, w, actions[j], k);
      RunKeepsCall(o, actions, j + 1, k);
    }
    UnreachedStep(o, w, k, actions[j].input);
  }

  // ---- Actionable answers ----------------------------------------------------------------------

  /** At step j call k gave its answer: the step took it from a running state. */
  ghost predicate AnswersAt(o: Outside, actions: seq<Action>, j: nat, k: nat) {
    && j < |actions| && actions[j].Steps? && actions[j].k == k && k in Run(o, actions[..j]).calls
    && !Run(o, actions[..j]).calls[k].pc.Finished?
    && k in Run(o, actions[..j + 1]).calls && Run(o, actions[..j + 1]).calls[k].pc.Finished?
  }

  lemma AnswersAtStays(o: Outside, actions: seq<Action>, n: nat, j: nat, k: nat)
    requires n <= |actions| && AnswersAt(o, actions[..n], j, k)
    ensures AnswersAt(o, actions, j, k)
    ensures Run(o, actions[..n][..j]) == Run(o, actions[..j]) && Run(o, actions[..n][..j + 1]) == Run(o, actions[..j + 1])
  {
    assert actions[..n][..j] == actions[..j] && actions[..n][..j + 1] == actions[..j + 1];
  }

  /** An answer given after the claim was given by a step of the call itself. */
  lemma {:induction false} LateAnswersAreGiven(o: Outside, actions: seq<Action>, k: nat)
    requires k in Run(o, actions).calls
    requires Run(o, actions).calls[k].pc.Finished? && !Run(o, actions).calls[k].pc.answer.BeforeClaim()
    ensures
      exists j: nat ::
        AnswersAt(o, actions, j, k) && Run(o, actions[..j + 1]).calls[k].pc == Run(o, actions).calls[k].pc
  {
    var n := |actions| - 1;
    var w, pc := Run(o, actions[..n]), Run(o, actions).calls[k].pc;
    if k in w.calls && w.calls[k].pc == pc {
      LateAnswersAreGiven(o, actions[..n], k);
      var j: nat :| AnswersAt(o, actions[..n], j, k) && Run(o, actions[..n][..j + 1]).calls[k].pc == pc;
      AnswersAtStays(o, actions, n, j, k);
    } else {
      LastStepAnswers(o, w, actions[n], k);
      assert actions[..n + 1] == actions;
      assert AnswersAt(o, actions, n, k);
    }
  }

  lemma LastStepAnswers(o: Outside, w: World, a: Action, k: nat)
    requires k in Step(o, w, a).calls && Step(o, w, a).calls[k].pc.Finished?
    requires !Step(o, w, a).calls[k].pc.answer.BeforeClaim()
    requires k !in w.calls || w.calls[k].pc != Step(o, w, a).calls[k].pc
    ensures a.Steps? && a.k == k && k in w.calls && !w.calls[k].pc.Finished?
  {
    if a.Starts? {
      AdmittedIsCanonical(o, a.request);
    }
  }

  /** At the step that gives an actionable answer the row awaits its funding. */
  lemma ActionableAwaitsFunding(o: Outside, d: Data, pc: FinalizePc, i: Input)
    requires !pc.Finished?
    requires Move(o, d, pc, i).1.Finished? && Move(o, d, pc, i).1.answer.Actionable?
    ensures
      var terms := Move(o, d, pc, i).1.answer.terms;
      && pc.AtReadFunding? && pc.persisted && Move(o, d, pc, i).0 == d
      && pc.terms.intentId in d.rows && d.rows[pc.terms.intentId].terms == terms
      && d.rows[pc.terms.intentId].status == FundingRequired && i.nowMs < terms.expiresAtMs
  {
  }

  lemma GivenAt(o: Outside, actions: seq<Action>, j: nat, k: nat, terms: FundingTerms, nowMs: i64)
    requires AnswersAt(o, actions, j, k)
    requires Run(o, actions[..j + 1]).calls[k].pc == Finished(Actionable(terms, nowMs))
    ensures actions[j].input.nowMs == nowMs < terms.expiresAtMs
    ensures terms.intentId in DataAfter(o, actions[..j]).rows
    ensures DataAfter(o, actions[..j]).rows[terms.intentId].terms == terms
    ensures DataAfter(o, actions[..j]).rows[terms.intentId].status == FundingRequired
  {
    RunAt(o, actions, j);
    InvariantHolds(o, actions[..j]);
    var w := Run(o, actions[..j]);
    ActionableStep(o, w.d, w.calls[k].pc, actions[j].input, terms, nowMs);
  }

  /** Every actionable answer in a run was true when given: at its step the quoted row
      was there with these terms, awaiting its funding, before its deadline. */
  lemma ActionableAnswersAwaitFunding(o: Outside, actions: seq<Action>, k: nat)
    requires k in Run(o, actions).calls
    requires Run(o, actions).calls[k].pc.Finished? && Run(o, actions).calls[k].pc.answer.Actionable?
    ensures
      var terms, nowMs := Run(o, actions).calls[k].pc.answer.terms, Run(o, actions).calls[k].pc.answer.nowMs;
      exists j: nat ::
        && AnswersAt(o, actions, j, k) && actions[j].input.nowMs == nowMs < terms.expiresAtMs
        && terms.intentId in DataAfter(o, actions[..j]).rows
        && DataAfter(o, actions[..j]).rows[terms.intentId].terms == terms
        && DataAfter(o, actions[..j]).rows[terms.intentId].status == FundingRequired
  {
    LateAnswersAreGiven(o, actions, k);
    var pc := Run(o, actions).calls[k].pc;
    var j: nat :| AnswersAt(o, actions, j, k) && Run(o, actions[..j + 1]).calls[k].pc == pc;
    GivenAt(o, actions, j, k, pc.answer.terms, pc.answer.nowMs);
  }

  lemma ActionableStep(o: Outside, d: Data, pc: FinalizePc, i: Input, terms: FundingTerms, nowMs: i64)
    requires RowsOk(o, d.rows, d.rules, d.unconfirmed) && !pc.Finished?
    requires Move(o, d, pc, i).1 == Finished(Actionable(terms, nowMs))
    ensures i.nowMs == nowMs < terms.expiresAtMs
    ensures terms.intentId in d.rows && d.rows[terms.intentId].terms == terms
    ensures d.rows[terms.intentId].status == FundingRequired
  {
    ActionableAwaitsFunding(o, d, pc, i);
  }

  // ---- Rows that do not speak of their stored rule --------------------------------------------------

  /** Some call wrote the row of this id for a rule it could not confirm. */
  ghost predicate LeftBy(w: World, k: nat, id: string) {
    k in w.calls && w.calls[k].left == Some(id)
  }

  ghost predicate LeftBySomeone(w: World) {
    && (forall id :: id in w.d.unconfirmed ==> exists k: nat :: LeftBy(w, k, id))
    && (forall k: nat, id :: LeftBy(w, k, id) ==> id in w.d.unconfirmed)
  }

  lemma MoveLeaves(o: Outside, w: World, k: nat, i: Input)
    requires Inv(o, w) && k in w.calls
    ensures
      var w' := CallStep(o, w, k, i);
      || (w'.d.unconfirmed == w.d.unconfirmed && w'.calls[k].left == w.calls[k].left)
      || (exists id :: LeftBy(w', k, id) && w'.d.unconfirmed.Keys == w.d.unconfirmed.Keys + {id}
                       && w.calls[k].left.None?)
  {
    var call, d := w.calls[k], w.d;
    assert CallOk(o, d, call);
    if call.pc.AtInsertFunding? {
      var id, d' := HexLower(call.pc.rule.ruleId), Move(o, d, call.pc, i).0;
      assert d' == InsertFundingMove(o, d, call.pc.c, call.pc.rule, call.pc.persisted, call.pc.snap, i).0;
      if d'.unconfirmed != d.unconfirmed {
        assert d'.unconfirmed == d.unconfirmed[id := call.pc.rule] && d'.unconfirmed.Keys == d.unconfirmed.Keys + {id};
        assert LeftBy(CallStep(o, w, k, i), k, id);
      }
    } else {
      OnlyInsertsLeave(o, d, call.pc, i);
    }
  }

  lemma OnlyInsertsLeave(o: Outside, d: Data, pc: FinalizePc, i: Input)
    requires !pc.AtInsertFunding?
    ensures Move(o, d, pc, i).0.unconfirmed == d.unconfirmed
  {
  }

  lemma CallStepLeaves(o: Outside, w: World, k: nat, i: Input, w': World)
    requires Inv(o, w) && LeftBySomeone(w) && k in w.calls && w' == CallStep(o, w, k, i)
    ensures LeftBySomeone(w')
  {
    MoveLeaves(o, w, k, i);
    RecordsGrow(w, k, w');
  }

  /** Call k has left nothing new, or the one new row. */
  lemma RecordsGrow(w: World, k: nat, w': World)
    requires LeftBySomeone(w) && k in w.calls && k in w'.calls && w'.calls == w.calls[k := w'.calls[k]]
    requires
      || (w'.d.unconfirmed == w.d.unconfirmed && w'.calls[k].left == w.calls[k].left)
      || (exists id :: LeftBy(w', k, id) && w'.d.unconfirmed.Keys == w.d.unconfirmed.Keys + {id}
                       && w.calls[k].left.None?)
    ensures LeftBySomeone(w')
  {
    forall id | id in w'.d.unconfirmed.Keys ensures exists j: nat :: LeftBy(w', j, id) {
      if id in w.d.unconfirmed.Keys {
        var j: nat :| LeftBy(w, j, id);
        assert LeftBy(w', j, id);
      }
    }
    forall j: nat, id | LeftBy(w', j, id) ensures id in w'.d.unconfirmed {
      assert j != k ==> LeftBy(w, j, id);
      assert w.calls[k].left == Some(id) ==> LeftBy(w, k, id);
      assert id in w'.d.unconfirmed.Keys;
    }
  }

  /** No other action touches these records. */
  lemma OtherStepsLeave(o: Outside, w: World, a: Action, w': World)
    requires w' == Step(o, w, a) && !(a.Steps? && a.k in w.calls)
    ensures w'.d.unconfirmed == w.d.unconfirmed
    ensures forall k: nat, id :: LeftBy(w', k, id) <==> LeftBy(w, k, id)
  {
  }

  lemma {:induction false} WritersAreKnown(o: Outside, actions: seq<Action>)
    ensures LeftBySomeone(Run(o, actions))
  {
    if actions != [] {
      var n := |actions| - 1;
      var w, w' := Run(o, actions[..n]), Run(o, actions);
      WritersAreKnown(o, actions[..n]);
      InvariantHolds(o, actions[..n]);
      if actions[n].Steps? && actions[n].k in w.calls {
        CallStepLeaves(o, w, actions[n].k, actions[n].input, w');
      } else {
        OtherStepsLeave(o, w, actions[n], w');
        forall id | id in w'.d.unconfirmed ensures exists k: nat :: LeftBy(w', k, id) {
          var k: nat :| LeftBy(w, k, id);
          assert LeftBy(w', k, id);
        }
      }
    }
  }

  /** The row of this id does not carry the hash of the rule stored beside it. */
  predicate Mismatched(o: Outside, d: Data, id: string) {
    id in d.rows
    && (id !in d.rules || d.rows[id].terms.canonicalRuleHashHex != RuleHashHex(o.lib, d.rules[id].rule))
  }

  /** Built rules of one id differ in their slot only. */
  lemma SameIdSameRule(o: Outside, a: WatchRule, b: WatchRule)
    requires IsBuilt(o.pins, a) && IsBuilt(o.pins, b) && HexLower(a.ruleId) == HexLower(b.ruleId)
    ensures a == b <==> a.createdAtSlot == b.createdAtSlot
  {
    HexLowerInjective(a.ruleId, b.ruleId);
    RuleIdInjective(a.conditions[0].thresholdBps, a.maxInputAmountRaw, b.conditions[0].thresholdBps,
                    b.maxInputAmountRaw, o.pins.controlled);
  }

  /** Exactly when a row does not speak of its stored rule: a call that could not confirm
      its rule wrote the row, and since then no rule, or one of another slot, came to
      be stored under the id. */
  lemma MismatchedIff(o: Outside, actions: seq<Action>, id: string)
    requires CollisionFree(o.lib) && id in DataAfter(o, actions).rows
    ensures
      var d := DataAfter(o, actions);
      Mismatched(o, d, id) <==>
        id in d.unconfirmed
        && (id !in d.rules || d.rules[id].rule.createdAtSlot != d.unconfirmed[id].createdAtSlot)
  {
    InvariantHolds(o, actions);
    var d := DataAfter(o, actions);
    if id in d.unconfirmed && id in d.rules {
      var written, stored := d.unconfirmed[id], d.rules[id].rule;
      assert WrittenFor(o, id, d.rows[id].terms, written) && RuleOk(o, id, d.rules[id]);
      SameIdSameRule(o, written, stored);
      if RuleHashHex(o.lib, written) == RuleHashHex(o.lib, stored) {
        HexLowerInjective(o.lib.ruleHash(written), o.lib.ruleHash(stored));
      }
    }
  }

  /** Whoever left such a row says so: the call that wrote it is known, and if it was
      answered at all then as unconfirmed or with a store failure, never as actionable. */
  lemma MismatchedRowsAreUnconfirmed(o: Outside, actions: seq<Action>, id: string)
    requires Mismatched(o, DataAfter(o, actions), id)
    ensures id in DataAfter(o, actions).unconfirmed
    ensures
      exists k: nat ::
        && LeftBy(Run(o, actions), k, id)
        && var pc := Run(o, actions).calls[k].pc;
           pc.Finished? ==> pc.answer.RuleUnconfirmed? || pc.answer.StoreFailed?
  {
    InvariantHolds(o, actions);
    WritersAreKnown(o, actions);
    var w := Run(o, actions);
    assert id in w.d.unconfirmed;
    var k: nat :| LeftBy(w, k, id);
    assert CallOk(o, w.d, w.calls[k]);
    assert OwnsUp(w.calls[k].pc);
  }

  // ---- A run that leaves one ------------------------------------------------------------------------------

  function Well(snap: Snapshot): Input {
    Input(NoFault, OpenWorks, 0, Some(snap))
  }

  function Lost(snap: Snapshot): Input {
    Input(LostBefore, OpenWorks, 0, Some(snap))
  }

  /** The first call: claim, market, a failed insert, a failed read-back, the row. */
  function FirstCall(r: Request, snap: Snapshot): seq<Action> {
    [Starts(0, r)] + [Steps(0, Well(snap))] + [Steps(0, Well(snap))] + [Steps(0, Lost(snap))] + [Steps(0, Lost(snap))]
    + [Steps(0, Well(snap))] + [Steps(0, Well(snap))]
  }

  /** The second call: claim, market, and an insert that works. */
  function SecondCall(r: Request, snap: Snapshot): seq<Action> {
    [Starts(1, r)] + [Steps(1, Well(snap))] + [Steps(1, Well(snap))] + [Steps(1, Well(snap))]
  }

  lemma RunGoesOn(o: Outside, actions: seq<Action>, a: Action)
    ensures Run(o, actions + [a]) == Step(o, Run(o, actions), a)
  {
    assert (actions + [a])[..|actions|] == actions;
  }

  predicate Claimable(o: Outside, r: Request, c: Admitted) {
    Admit(o, r) == AtClaim(c) && NormalizeDraftId(c.draftId).Some? && IsLowerHexOf(c.draftHash, 64)
  }

  lemma FirstCallClaims(o: Outside, r: Request, c: Admitted, snap: Snapshot)
    requires Claimable(o, r, c)
    ensures
      var w := Run(o, [Starts(0, r)] + [Steps(0, Well(snap))]);
      && w.calls == map[0 := FinalizeSafety.Call(r, AtMarket(c), true, None)]
      && w.d.rows == map[] && w.d.rules == map[] && w.d.unconfirmed == map[]
      && w.d.side == Side(Ready, true, Tables(map[NormalizedId(c) := c.draftHash], map[]))
  {
    RunGoesOn(o, [], Starts(0, r));
    assert [] + [Starts(0, r)] == [Starts(0, r)];
    RunGoesOn(o, [Starts(0, r)], Steps(0, Well(snap)));
  }

  lemma Drive(o: Outside, actions: seq<Action>, k: nat, i: Input, d: Data, pc: FinalizePc)
    requires k in Run(o, actions).calls
    requires Move(o, Run(o, actions).d, Run(o, actions).calls[k].pc, i) == (d, pc)
    ensures
      var w := Run(o, actions + [Steps(k, i)]);
      w.d == d && w.calls.Keys == Run(o, actions).calls.Keys && w.calls[k].pc == pc
  {
    RunGoesOn(o, actions, Steps(k, i));
  }

  lemma MarketWorks(o: Outside, d: Data, c: Admitted, snap: Snapshot)
    requires IsCanonicalDraft(c.draft)
    ensures
      var rule := RuleFor(o.pins, c.draft.thresholdBps, c.draft.amountRaw, snap.lastCheckedSlot);
      Move(o, d, AtMarket(c), Well(snap)) == (d, AtInsertRule(c, rule, snap))
  {
  }

  lemma InsertAndReadLost(o: Outside, d: Data, c: Admitted, rule: WatchRule, snap: Snapshot)
    ensures Move(o, d, AtInsertRule(c, rule, snap), Lost(snap)) == (d, AtReadRule(c, rule, snap))
    ensures Move(o, d, AtReadRule(c, rule, snap), Lost(snap)) == (d, AtInsertFunding(c, rule, false, snap))
  {
  }

  lemma UnconfirmedRowWritten(o: Outside, d: Data, c: Admitted, rule: WatchRule, snap: Snapshot, terms: FundingTerms,
                              d': Data)
    requires terms == NewTerms(o, c, rule, snap, 0) && terms.intentId !in d.rows
    requires d' == d.(rows := d.rows[terms.intentId := FreshFundingRow(terms)],
                      unconfirmed := d.unconfirmed[terms.intentId := rule])
    ensures Move(o, d, AtInsertFunding(c, rule, false, snap), Well(snap)) == (d', AtReadFunding(c, rule, false, terms, true))
    ensures
      Move(o, d', AtReadFunding(c, rule, false, terms, true), Well(snap))
      == (d', Finished(RuleUnconfirmed(FundingRequired)))
  {
  }

  lemma InsertWorks(o: Outside, d: Data, c: Admitted, rule: WatchRule, snap: Snapshot)
    requires HexLower(rule.ruleId) !in d.rules && BuildWatchRule(o.pins, c.draft, rule.createdAtSlot) == Some(rule)
    ensures
      Move(o, d, AtInsertRule(c, rule, snap), Well(snap))
      == (d.(rules := d.rules[HexLower(rule.ruleId) := FreshRuleRow(o.lib, rule)]), AtIndex(c, rule, snap))
  {
  }

  /** The first call ends unconfirmed, with its row written and no rule stored. */
  lemma FirstCallLeaves(o: Outside, r: Request, c: Admitted, snap: Snapshot, rule: WatchRule)
    requires Claimable(o, r, c) && rule == RuleFor(o.pins, c.draft.thresholdBps, c.draft.amountRaw, snap.lastCheckedSlot)
    ensures
      var w, id := Run(o, FirstCall(r, snap)), HexLower(rule.ruleId);
      && w.d.rows == map[id := FreshFundingRow(NewTerms(o, c, rule, snap, 0))] && w.d.rules == map[]
      && w.calls.Keys == {0} && w.calls[0].pc == Finished(RuleUnconfirmed(FundingRequired))
      && w.d.side == Side(Ready, true, Tables(map[NormalizedId(c) := c.draftHash], map[]))
  {
    AdmittedIsCanonical(o, r);
    FirstCallClaims(o, r, c, snap);
    var run := [Starts(0, r)] + [Steps(0, Well(snap))];
    var d, terms := Run(o, run).d, NewTerms(o, c, rule, snap, 0);
    var d' := d.(rows := d.rows[terms.intentId := FreshFundingRow(terms)],
                 unconfirmed := d.unconfirmed[terms.intentId := rule]);
    MarketWorks(o, d, c, snap);
    Drive(o, run, 0, Well(snap), d, AtInsertRule(c, rule, snap));
    InsertAndReadLost(o, d, c, rule, snap);
    run := run + [Steps(0, Well(snap))];
    Drive(o, run, 0, Lost(snap), d, AtReadRule(c, rule, snap));
    run := run + [Steps(0, Lost(snap))];
    Drive(o, run, 0, Lost(snap), d, AtInsertFunding(c, rule, false, snap));
    UnconfirmedRowWritten(o, d, c, rule, snap, terms, d');
    run := run + [Steps(0, Lost(snap))];
    Drive(o, run, 0, Well(snap), d', AtReadFunding(c, rule, false, terms, true));
    run := run + [Steps(0, Well(snap))];
    Drive(o, run, 0, Well(snap), d', Finished(RuleUnconfirmed(FundingRequired)));
  }

  lemma ClaimWorks(o: Outside, d: Data, c: Admitted, snap: Snapshot)
    requires NormalizeDraftId(c.draftId).Some? && IsLowerHexOf(c.draftHash, 64)
    requires d.side.state == Ready && NormalizedId(c) !in d.side.tables.drafts
    ensures
      var move := Move(o, d, AtClaim(c), Well(snap));
      move.1 == AtMarket(c) && move.0.rows == d.rows && move.0.rules == d.rules
  {
  }

  /** After any run, a call whose draft is not yet claimed stores its rule. */
  lemma SecondCallStores(o: Outside, run: seq<Action>, r: Request, c: Admitted, snap: Snapshot, rule: WatchRule)
    requires Claimable(o, r, c) && rule == RuleFor(o.pins, c.draft.thresholdBps, c.draft.amountRaw, snap.lastCheckedSlot)
    requires
      var w := Run(o, run);
      && 1 !in w.calls && w.d.side.state == Ready && NormalizedId(c) !in w.d.side.tables.drafts
      && HexLower(rule.ruleId) !in w.d.rules
    ensures
      var d := Run(o, run).d;
      var d' := DataAfter(o, run + [Starts(1, r)] + [Steps(1, Well(snap))] + [Steps(1, Well(snap))] + [Steps(1, Well(snap))]);
      d'.rows == d.rows && d'.rules == d.rules[HexLower(rule.ruleId) := FreshRuleRow(o.lib, rule)]
  {
    AdmittedIsCanonical(o, r);
    RunGoesOn(o, run, Starts(1, r));
    var started := run + [Starts(1, r)];
    ClaimWorks(o, Run(o, run).d, c, snap);
    var d := Move(o, Run(o, run).d, AtClaim(c), Well(snap)).0;
    Drive(o, started, 1, Well(snap), d, AtMarket(c));
    MarketWorks(o, d, c, snap);
    var claimed := started + [Steps(1, Well(snap))];
    Drive(o, claimed, 1, Well(snap), d, AtInsertRule(c, rule, snap));
    InsertWorks(o, d, c, rule, snap);
    Drive(o, claimed + [Steps(1, Well(snap))], 1, Well(snap),
          d.(rules := d.rules[HexLower(rule.ruleId) := FreshRuleRow(o.lib, rule)]), AtIndex(c, rule, snap));
  }

  lemma SecondCallSpelled(run: seq<Action>, r: Request, snap: Snapshot)
    ensures
      run + SecondCall(r, snap)
      == run + [Starts(1, r)] + [Steps(1, Well(snap))] + [Steps(1, Well(snap))] + [Steps(1, Well(snap))]
  {
  }

  lemma DifferentRulesDifferentHashes(o: Outside, a: WatchRule, b: WatchRule)
    requires CollisionFree(o.lib) && a != b
    ensures RuleHashHex(o.lib, a) != RuleHashHex(o.lib, b)
  {
    if RuleHashHex(o.lib, a) == RuleHashHex(o.lib, b) {
      HexLowerInjective(o.lib.ruleHash(a), o.lib.ruleHash(b));
    }
  }

  /** A second draft of the same threshold and amount, at another slot, then stores its
      own rule under the id of that row. */
  lemma MismatchArises(o: Outside, r1: Request, c1: Admitted, snap1: Snapshot, rule1: WatchRule, r2: Request,
                       c2: Admitted, snap2: Snapshot, rule2: WatchRule)
    requires CollisionFree(o.lib) && Claimable(o, r1, c1) && Claimable(o, r2, c2)
    requires NormalizedId(c1) != NormalizedId(c2) && snap1.lastCheckedSlot != snap2.lastCheckedSlot
    requires c1.draft.thresholdBps == c2.draft.thresholdBps && c1.draft.amountRaw == c2.draft.amountRaw
    requires rule1 == RuleFor(o.pins, c1.draft.thresholdBps, c1.draft.amountRaw, snap1.lastCheckedSlot)
    requires rule2 == RuleFor(o.pins, c2.draft.thresholdBps, c2.draft.amountRaw, snap2.lastCheckedSlot)
    ensures Mismatched(o, DataAfter(o, FirstCall(r1, snap1) + SecondCall(r2, snap2)), HexLower(rule1.ruleId))
  {
    FirstCallLeaves(o, r1, c1, snap1, rule1);
    SecondCallSpelled(FirstCall(r1, snap1), r2, snap2);
    SecondCallStores(o, FirstCall(r1, snap1), r2, c2, snap2, rule2);
    assert rule1.ruleId == rule2.ruleId && rule1.createdAtSlot != rule2.createdAtSlot;
    DifferentRulesDifferentHashes(o, rule1, rule2);
  }
}
