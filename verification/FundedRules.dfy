// A payment is verified only after the stored rule was compared with the row, and
// neither changes afterwards: every funded row matches its rule, in every run.
module FundedRules {
  import opened Prelude
  import opened Codecs
  import opened WatchRules
  import opened StateStore
  import opened FundingProof
  import opened ConfirmFunding
  import opened Execution
  import opened Lifecycle
  import opened LifecycleInvariant
  import opened LifecycleSafety

  // ---- Rules keep their content ---------------------------------------------------------

  ghost predicate ContentKept(rules: Rules, rules': Rules) {
    forall id :: id in rules ==>
      id in rules' && rules'[id].rule == rules[id].rule && rules'[id].canonicalHash == rules[id].canonicalHash
  }

  lemma CompletionKeepsContent(rules: Rules, id: string, used: u64, slot: u64)
    ensures ContentKept(rules, RuleWritten(rules, id, used, slot))
  {
  }

  lemma NetworkMovesKeepTables(d: Data, v: Watcher, i: WatcherInput)
    ensures v.pc.AtSubmit? ==> SubmitMove(d, v, i).0.rules == d.rules && SubmitMove(d, v, i).0.proofs == d.proofs
    ensures v.pc.AtPoll? ==> PollMove(d, v, i).0.rules == d.rules && PollMove(d, v, i).0.proofs == d.proofs
  {
  }

  lemma WatcherKeepsContent(d: Data, v: Watcher, i: WatcherInput, d': Data)
    requires d' == WatcherMove(d, v, i).0
    ensures ContentKept(d.rules, d'.rules) && d'.proofs == d.proofs
  {
    match v.pc
    case AtSubmit(_) => NetworkMovesKeepTables(d, v, i);
    case AtPoll(_) => NetworkMovesKeepTables(d, v, i);
    case AtCompleteRule(_, slot) =>
      CompletionKeepsContent(d.rules, RuleKey(v.candidate), v.candidate.amountRaw, slot);
      assert d' == CompleteRuleMove(d, v, i).0;
    case _ => assert d'.rules == d.rules;
  }

  lemma ConfirmerKeepsRules(lib: Library, d: Data, f: Confirmer, i: ConfirmInput)
    ensures ConfirmMove(lib, d, f, i).0.rules == d.rules
  {
  }

  lemma StepKeepsContent(lib: Library, w: World, a: Action)
    ensures ContentKept(w.d.rules, Step(lib, w, a).d.rules)
  {
    match a
    case WatcherSteps(k, i) =>
      if k in w.watchers {
        WatcherKeepsContent(w.d, w.watchers[k], i, WatcherMove(w.d, w.watchers[k], i).0);
      }
    case ConfirmSteps(k, i) =>
      if k in w.confirmers {
        ConfirmerKeepsRules(lib, w.d, w.confirmers[k], i);
      }
    case _ =>
  }

  // ---- The invariant -----------------------------------------------------------------------

  ghost predicate Matched(lib: Library, d: Data, id: string) {
    id in d.rows && id in d.rules && RuleMatchesIntent(lib, d.rules[id], d.rows[id].terms)
  }

  /** Whoever reads a transaction has compared the rule with the row, and so has
      whoever put a payment on record. */
  ghost predicate ComparedFirst(lib: Library, w: World) {
    && (forall k :: k in w.confirmers && w.confirmers[k].pc.Reading? ==> Matched(lib, w.d, w.confirmers[k].params.intentId))
    && (forall key :: key in w.d.proofs ==> Matched(lib, w.d, key.0))
  }

  lemma MatchedStays(lib: Library, d: Data, d': Data, id: string)
    requires Matched(lib, d, id) && Keeps(d, d') && ContentKept(d.rules, d'.rules)
    ensures Matched(lib, d', id)
  {
  }

  /** The rule is compared with the row as it was read, whose terms are still the
      row's terms. */
  lemma ComparisonHolds(lib: Library, d: Data, f: Confirmer, i: ConfirmInput)
    requires ConfirmerOk(d, f)
    ensures !f.pc.Reading? && ConfirmMove(lib, d, f, i).1.pc.Reading? ==> Matched(lib, d, f.params.intentId)
    ensures !f.pc.Reading? ==> ConfirmMove(lib, d, f, i).0.proofs == d.proofs
    ensures f.pc.Reading? ==>
              ConfirmMove(lib, d, f, i).0.proofs.Keys <= d.proofs.Keys + {(f.params.intentId, f.params.txSignature)}
    ensures ConfirmMove(lib, d, f, i).1.params == f.params
  {
  }

  /** Nothing but a confirmation call's own step starts a reading or records a payment. */
  lemma OthersRecordNothing(lib: Library, w: World, a: Action, w': World)
    requires !a.ConfirmSteps? && w' == Step(lib, w, a)
    ensures w'.d.proofs == w.d.proofs
    ensures forall k :: k in w'.confirmers && w'.confirmers[k].pc.Reading? ==>
              k in w.confirmers && w'.confirmers[k] == w.confirmers[k]
  {
    if a.WatcherSteps? && a.k in w.watchers {
      WatcherKeepsContent(w.d, w.watchers[a.k], a.input, WatcherMove(w.d, w.watchers[a.k], a.input).0);
    }
    assert !a.ConfirmStarts? && !a.ConfirmCrashes? ==> w'.confirmers == w.confirmers;
  }

  lemma StepComparesFirst(lib: Library, w: World, a: Action)
    requires Inv(lib, w) && ComparedFirst(lib, w)
    ensures ComparedFirst(lib, Step(lib, w, a))
  {
    var w' := Step(lib, w, a);
    StepKeepsRecords(lib, w, a);
    StepKeepsContent(lib, w, a);
    if a.ConfirmSteps? && a.k in w.confirmers {
      ConfirmStepComparesFirst(lib, w, a.k, a.confirmInput, w');
    } else {
      if !a.ConfirmSteps? {
        OthersRecordNothing(lib, w, a, w');
      }
      forall key | key in w'.d.proofs ensures Matched(lib, w'.d, key.0) {
        MatchedStays(lib, w.d, w'.d, key.0);
      }
      forall k | k in w'.confirmers && w'.confirmers[k].pc.Reading?
        ensures Matched(lib, w'.d, w'.confirmers[k].params.intentId)
      {
        MatchedStays(lib, w.d, w'.d, w.confirmers[k].params.intentId);
      }
    }
  }

  lemma ConfirmStepComparesFirst(lib: Library, w: World, k: nat, i: ConfirmInput, w': World)
    requires Inv(lib, w) && ComparedFirst(lib, w) && k in w.confirmers
    requires w' == WithConfirmer(w, k, ConfirmMove(lib, w.d, w.confirmers[k], i))
    requires Keeps(w.d, w'.d) && ContentKept(w.d.rules, w'.d.rules)
    ensures ComparedFirst(lib, w')
  {
    var f := w.confirmers[k];
    ComparisonHolds(lib, w.d, f, i);
    forall key | key in w'.d.proofs ensures Matched(lib, w'.d, key.0) {
      if key !in w.d.proofs {
        assert key in w'.d.proofs.Keys;
        assert key.0 == f.params.intentId;
      }
      MatchedStays(lib, w.d, w'.d, key.0);
    }
    forall j | j in w'.confirmers && w'.confirmers[j].pc.Reading?
      ensures Matched(lib, w'.d, w'.confirmers[j].params.intentId)
    {
      MatchedStays(lib, w.d, w'.d, w'.confirmers[j].params.intentId);
    }
  }

  lemma {:induction false} RunsCompareFirst(lib: Library, actions: seq<Action>)
    ensures ComparedFirst(lib, Run(lib, actions))
  {
    if actions != [] {
      var n := |actions| - 1;
      RunsCompareFirst(lib, actions[..n]);
      InvariantHolds(lib, actions[..n]);
      StepComparesFirst(lib, Run(lib, actions[..n]), actions[n]);
    }
  }

  // ---- Used amounts -------------------------------------------------------------------------

  /** A completed rule has used exactly what its row was funded with. */
  ghost predicate UsedOk(d: Data) {
    forall id :: id in d.rules && d.rules[id].completed ==>
      id in d.rows && d.rules[id].usedAmountRaw == d.rows[id].terms.amountRaw
  }

  lemma CompletionUses(d: Data, d': Data, id: string, used: u64, slot: u64)
    requires UsedOk(d) && id in d.rows && used == d.rows[id].terms.amountRaw
    requires d'.rows == d.rows && (d'.rules == d.rules || d'.rules == RuleWritten(d.rules, id, used, slot))
    ensures UsedOk(d')
  {
  }

  /** Terms stay, and what is added to the rules is not completed. */
  lemma UsedStays(d: Data, d': Data)
    requires UsedOk(d) && Keeps(d, d')
    requires forall id :: id in d'.rules && d'.rules[id].completed ==> id in d.rules && d'.rules[id] == d.rules[id]
    ensures UsedOk(d')
  {
  }

  lemma WatcherStepUses(d: Data, v: Watcher, i: WatcherInput, d': Data)
    requires UsedOk(d) && WatcherOk(d, v) && Keeps(d, d') && d' == WatcherMove(d, v, i).0
    ensures UsedOk(d')
  {
    match v.pc
    case AtCompleteRule(_, slot) =>
      assert d' == CompleteRuleMove(d, v, i).0;
      CompletionUses(d, d', RuleKey(v.candidate), v.candidate.amountRaw, slot);
    case _ =>
      NetworkMovesKeepTables(d, v, i);
      assert d'.rules == d.rules;
      UsedStays(d, d');
  }

  /** No other step completes a rule. */
  lemma OthersCompleteNothing(lib: Library, w: World, a: Action, d': Data)
    requires !(a.WatcherSteps? && a.k in w.watchers) && d' == Step(lib, w, a).d
    ensures forall id :: id in d'.rules && d'.rules[id].completed ==> id in w.d.rules && d'.rules[id] == w.d.rules[id]
  {
    if a.ConfirmSteps? && a.k in w.confirmers {
      ConfirmerKeepsRules(lib, w.d, w.confirmers[a.k], a.confirmInput);
    }
  }

  lemma StepUses(lib: Library, w: World, a: Action, d': Data)
    requires Inv(lib, w) && UsedOk(w.d) && d' == Step(lib, w, a).d
    ensures UsedOk(d')
  {
    if a.WatcherSteps? && a.k in w.watchers {
      WatcherUses(lib, w, a.k, a.input, d');
    } else {
      OtherStepUses(lib, w, a, d');
    }
  }

  lemma WatcherUses(lib: Library, w: World, k: nat, i: WatcherInput, d': Data)
    requires Inv(lib, w) && UsedOk(w.d) && k in w.watchers && d' == WatcherMove(w.d, w.watchers[k], i).0
    ensures UsedOk(d')
  {
    WatcherStepKeeps(lib, w, k, i, d');
    assert WatcherOk(w.d, w.watchers[k]);
    WatcherStepUses(w.d, w.watchers[k], i, d');
  }

  lemma OtherStepUses(lib: Library, w: World, a: Action, d': Data)
    requires Inv(lib, w) && UsedOk(w.d) && d' == Step(lib, w, a).d && !(a.WatcherSteps? && a.k in w.watchers)
    ensures UsedOk(d')
  {
    StepKeepsRecords(lib, w, a);
    OthersCompleteNothing(lib, w, a, d');
    UsedStays(w.d, d');
  }

  lemma {:induction false} RunsUse(lib: Library, actions: seq<Action>)
    ensures UsedOk(DataAfter(lib, actions))
  {
    if actions != [] {
      var n := |actions| - 1;
      RunsUse(lib, actions[..n]);
      InvariantHolds(lib, actions[..n]);
      StepUses(lib, Run(lib, actions[..n]), actions[n], DataAfter(lib, actions));
    }
  }

  // ---- What every run guarantees --------------------------------------------------------------

  /** A row with a funding signature has a stored rule that agrees with it in id,
      hash, amount and controlled wallet. */
  lemma FundedRowsMatch(lib: Library, actions: seq<Action>, id: string)
    requires id in DataAfter(lib, actions).rows && DataAfter(lib, actions).rows[id].fundingSignature.Some?
    ensures Matched(lib, DataAfter(lib, actions), id)
    ensures
      var t, row := DataAfter(lib, actions).rows[id].terms, DataAfter(lib, actions).rules[id];
      && t.intentId == t.ruleIdHex == HexLower(row.rule.ruleId)
      && Lower(t.canonicalRuleHashHex) == Lower(HexLower(row.canonicalHash))
      && t.amountRaw == row.rule.maxInputAmountRaw && t.controlledWallet == lib.keyText(row.rule.destination)
  {
    InvariantHolds(lib, actions);
    RunsCompareFirst(lib, actions);
    var d := DataAfter(lib, actions);
    assert RowOk(d, id);
    var key := (id, d.rows[id].fundingSignature.value);
    assert key in d.proofs;
    assert Matched(lib, d, key.0);
  }

  /** So nothing is ever sent for a row that does not match its rule. */
  lemma SendsMatchTheirRules(lib: Library, actions: seq<Action>, id: string)
    requires DataAfter(lib, actions).Log(id) != []
    ensures Matched(lib, DataAfter(lib, actions), id)
  {
    SendsArePaidFor(lib, actions, id);
    FundedRowsMatch(lib, actions, id);
  }

  /** A completed intent used exactly the amount it was funded with, and so says its
      rule: what was paid, what was deposited and what is on record are one amount. */
  lemma CompletedUsedItsAmount(lib: Library, actions: seq<Action>, id: string)
    requires id in DataAfter(lib, actions).rows && DataAfter(lib, actions).rows[id].status == Completed
    ensures
      var d := DataAfter(lib, actions);
      && Matched(lib, d, id) && d.rules[id].completed
      && d.rules[id].usedAmountRaw == d.rules[id].rule.maxInputAmountRaw == d.rows[id].terms.amountRaw
  {
    CompletedIsTrue(lib, actions, id);
    SendsMatchTheirRules(lib, actions, id);
    RunsUse(lib, actions);
  }
}
