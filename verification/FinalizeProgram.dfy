// The finalize tool over the real stores. Each stage performs the same writes as
// one move of the state machine; `d` is the stores as the moves see them.
module FinalizeProgram {
  import opened Prelude
  import opened Codecs
  import opened WatchRules
  import opened StateStore
  import opened Sidecar
  import opened Finalize

  /** What the outside answers at each stage of one call. */
  datatype Inputs = Inputs(claim: Input, market: Input, insertRule: Input, readRule: Input, index: Input,
                           insertFunding: Input, readFunding: Input)

  function InputFor(pc: FinalizePc, s: Inputs): Input {
    match pc
    case AtClaim(_) => s.claim
    case AtMarket(_) => s.market
    case AtInsertRule(_, _, _) => s.insertRule
    case AtReadRule(_, _, _) => s.readRule
    case AtIndex(_, _, _) => s.index
    case AtInsertFunding(_, _, _, _) => s.insertFunding
    case _ => s.readFunding
  }

  /** The state machine run alone. */
  function Solo(o: Outside, d: Data, pc: FinalizePc, s: Inputs, n: nat): (Data, FinalizePc)
    decreases n
  {
    if n == 0 then (d, pc)
    else
      var move := Move(o, d, pc, InputFor(pc, s));
      Solo(o, move.0, move.1, s, n - 1)
  }

  lemma {:induction false} FinishedStays(o: Outside, d: Data, answer: FinalizeAnswer, s: Inputs, n: nat)
    ensures Solo(o, d, Finished(answer), s, n) == (d, Finished(answer))
  {
    if n > 0 {
      FinishedStays(o, d, answer, s, n - 1);
    }
  }

  /** Claim, market, two rule calls, index, two funding calls. */
  const FINALIZE_STEPS: nat := 7

  ghost predicate Mirrors(d: Data, store: Store, sidecar: IntentSidecar)
    reads store, sidecar, sidecar.file
  {
    d.side == sidecar.Now() && d.rows == store.funding && d.rules == store.rules
  }

  method ClaimStage(o: Outside, sidecar: IntentSidecar, store: Store, c: Admitted, i: Input, ghost d: Data)
    returns (pc: FinalizePc, ghost d': Data)
    requires Mirrors(d, store, sidecar)
    modifies sidecar`state, sidecar.file
    ensures Mirrors(d', store, sidecar) && (d', pc) == Move(o, d, AtClaim(c), i)
  {
    var outcome := sidecar.ClaimDraft(ClaimCall(c.draftId, c.draftHash, i.nowMs), i.open, i.fault);
    pc := AfterClaim(c, outcome);
    d' := ClaimMove(d, c, i).0;
  }

  method RuleStage(o: Outside, sidecar: IntentSidecar, store: Store, pc: FinalizePc, s: Inputs, ghost d: Data)
    returns (pc': FinalizePc, ghost d': Data)
    requires Mirrors(d, store, sidecar) && pc.AtInsertRule? && store.lib == o.lib
    modifies store`rules
    ensures Mirrors(d', store, sidecar)
    ensures
      var first := Move(o, d, pc, s.insertRule);
      (d', pc') == if first.1.AtReadRule? then Move(o, first.0, first.1, s.readRule) else first
    ensures !pc'.AtReadRule?
  {
    var written := store.InsertRule(pc.built, s.insertRule.fault);
    d' := InsertRuleMove(o, d, pc.c, pc.built, pc.snap, s.insertRule).0;
    if written.Ok? {
      pc' := Confirmed(o.pins, pc.c, pc.built, pc.snap);
      return;
    }
    var read := store.GetRule(HexLower(pc.built.ruleId), s.readRule.fault);
    pc' := AfterReadRule(o.pins, pc.c, pc.built, pc.snap, read);
  }

  method IndexStage(o: Outside, sidecar: IntentSidecar, store: Store, pc: FinalizePc, i: Input, ghost d: Data)
    returns (pc': FinalizePc, ghost d': Data)
    requires Mirrors(d, store, sidecar) && pc.AtIndex?
    modifies sidecar`state, sidecar.file
    ensures Mirrors(d', store, sidecar) && (d', pc') == Move(o, d, pc, i) && pc'.AtInsertFunding?
  {
    // The outcome is only logged: a failed index degrades later lookups by hash.
    var _ := sidecar.IndexHash(
      IndexCall(RuleHashHex(o.lib, pc.rule), HexLower(pc.rule.ruleId), pc.c.draftId, pc.c.draftHash, i.nowMs), i.fault);
    pc' := AtInsertFunding(pc.c, pc.rule, true, pc.snap);
    d' := IndexMove(o, d, pc.c, pc.rule, pc.snap, i).0;
  }

  method FundingStage(o: Outside, sidecar: IntentSidecar, store: Store, pc: FinalizePc, s: Inputs, ghost d: Data)
    returns (answer: FinalizeAnswer, ghost d': Data)
    requires Mirrors(d, store, sidecar) && pc.AtInsertFunding?
    modifies store`funding
    ensures Mirrors(d', store, sidecar)
    ensures Solo(o, d, pc, s, 2) == (d', Finished(answer))
  {
    var terms := NewTerms(o, pc.c, pc.rule, pc.snap, s.insertFunding.nowMs);
    var written := store.InsertFunding(terms, s.insertFunding.fault);
    var read := store.GetFunding(terms.intentId, s.readFunding.fault);
    var last := AfterReadFunding(o, pc.c, pc.rule, pc.persisted, written.Ok?, read, s.readFunding.nowMs);
    answer := last.answer;
    d' := InsertFundingMove(o, d, pc.c, pc.rule, pc.persisted, pc.snap, s.insertFunding).0;
  }

  /** Every path, from any stage before the funding row on, ends in one answer. */
  method FromRule(o: Outside, sidecar: IntentSidecar, store: Store, pc: FinalizePc, s: Inputs, ghost d: Data)
    returns (answer: FinalizeAnswer, ghost d': Data)
    requires Mirrors(d, store, sidecar) && pc.AtInsertRule? && store.lib == o.lib
    modifies store`rules, store`funding, sidecar`state, sidecar.file
    ensures Mirrors(d', store, sidecar)
    ensures Solo(o, d, pc, s, 5) == (d', Finished(answer))
  {
    var pc1, d1 := RuleStage(o, sidecar, store, pc, s, d);
    ghost var first := Move(o, d, pc, s.insertRule);
    ghost var left: nat := if first.1.AtReadRule? then 3 else 4;
    assert Solo(o, d, pc, s, 5) == Solo(o, d1, pc1, s, left);
    if pc1.Finished? {
      answer, d' := pc1.answer, d1;
      FinishedStays(o, d1, answer, s, left);
      return;
    }
    answer, d' := FromIndex(o, sidecar, store, pc1, s, d1, left);
  }

  /** The index, if the rule was confirmed, and the funding row. */
  method FromIndex(o: Outside, sidecar: IntentSidecar, store: Store, pc: FinalizePc, s: Inputs, ghost d: Data,
                   ghost left: nat) returns (answer: FinalizeAnswer, ghost d': Data)
    requires Mirrors(d, store, sidecar) && (pc.AtIndex? || pc.AtInsertFunding?) && left >= 3
    modifies store`funding, sidecar`state, sidecar.file
    ensures Mirrors(d', store, sidecar) && Solo(o, d, pc, s, left) == (d', Finished(answer))
  {
    var pc2, d2, left2 := pc, d, left;
    if pc.AtIndex? {
      pc2, d2 := IndexStage(o, sidecar, store, pc, s.index, d);
      left2 := left - 1;
    }
    answer, d' := FundingStage(o, sidecar, store, pc2, s, d2);
    SoloAdds(o, d2, pc2, s, 2, left2 - 2);
    FinishedStays(o, d', answer, s, left2 - 2);
  }

  lemma {:induction false} SoloAdds(o: Outside, d: Data, pc: FinalizePc, s: Inputs, n: nat, m: nat)
    ensures
      var mid := Solo(o, d, pc, s, n);
      Solo(o, d, pc, s, n + m) == Solo(o, mid.0, mid.1, s, m)
    decreases n
  {
    if n > 0 {
      var move := Move(o, d, pc, InputFor(pc, s));
      SoloAdds(o, move.0, move.1, s, n - 1, m);
    }
  }

  /** The tool does exactly what the state machine does, run to its end. */
  method FinalizeIntentJson(o: Outside, sidecar: IntentSidecar, store: Store, r: Request, s: Inputs)
    returns (answer: FinalizeAnswer)
    requires store.lib == o.lib
    modifies store`rules, store`funding, sidecar`state, sidecar.file
    ensures
      var before := old(Data(sidecar.Now(), store.funding, store.rules, map[], map[]));
      var (after, pc) := Solo(o, before, Admit(o, r), s, FINALIZE_STEPS);
      Mirrors(after, store, sidecar) && pc == Finished(answer)
    ensures answer.BeforeClaim() ==>
              sidecar.Now() == old(sidecar.Now()) && store.funding == old(store.funding)
              && store.rules == old(store.rules)
  {
    var admitted := Admit(o, r);
    AdmittedIsCanonical(o, r);
    ghost var d := Data(sidecar.Now(), store.funding, store.rules, map[], map[]);
    if admitted.Finished? {
      answer := admitted.answer;
      FinishedStays(o, d, answer, s, FINALIZE_STEPS);
      return;
    }
    var pc1, d1 := ClaimStage(o, sidecar, store, admitted.c, s.claim, d);
    if pc1.Finished? {
      answer := pc1.answer;
      FinishedStays(o, d1, answer, s, 6);
      return;
    }
    var pc2 := AfterMarket(o.pins, pc1.c, s.market.snapshot);
    if pc2.Finished? {
      answer := pc2.answer;
      FinishedStays(o, d1, answer, s, 5);
      return;
    }
    ghost var d';
    answer, d' := FromRule(o, sidecar, store, pc2, s, d1);
    FromRuleAnswers(o, d1, pc2, s);
  }

  /** Past the claim no answer is one of the early rejections. */
  lemma FromRuleAnswers(o: Outside, d: Data, pc: FinalizePc, s: Inputs)
    requires pc.AtInsertRule?
    ensures
      var end := Solo(o, d, pc, s, 5).1;
      end.Finished? ==> !end.answer.BeforeClaim()
  {
    var m1 := Move(o, d, pc, InputFor(pc, s));
    var m2 := Move(o, m1.0, m1.1, InputFor(m1.1, s));
    var m3 := Move(o, m2.0, m2.1, InputFor(m2.1, s));
    var m4 := Move(o, m3.0, m3.1, InputFor(m3.1, s));
    LateStaysLate(o, d, pc, InputFor(pc, s));
    LateStaysLate(o, m1.0, m1.1, InputFor(m1.1, s));
    LateStaysLate(o, m2.0, m2.1, InputFor(m2.1, s));
    LateStaysLate(o, m3.0, m3.1, InputFor(m3.1, s));
    LateStaysLate(o, m4.0, m4.1, InputFor(m4.1, s));
    assert Solo(o, d, pc, s, 5) == Solo(o, m4.0, m4.1, s, 1);
  }

  ghost predicate Late(pc: FinalizePc) {
    !pc.AtClaim? && !pc.AtMarket? && (pc.Finished? ==> !pc.answer.BeforeClaim())
  }

  lemma LateStaysLate(o: Outside, d: Data, pc: FinalizePc, i: Input)
    requires Late(pc)
    ensures Late(Move(o, d, pc, i).1)
  {
  }
}
