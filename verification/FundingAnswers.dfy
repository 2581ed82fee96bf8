// What a reserved answer says about the two deadlines, in every run: they are those of
// the stored row and the stored rule, however late the answer comes.
module FundingAnswers {
  import opened Prelude
  import opened WatchRules
  import opened StateStore
  import opened FundingProof
  import opened ConfirmFunding
  import opened Lifecycle
  import opened LifecycleInvariant
  import opened LifecycleSafety
  import opened FundedRules

  ghost predicate IsStoredRule(d: Data, id: string, rule: RuleRow) {
    id in d.rules && rule.rule == d.rules[id].rule
  }

  /** A confirmation call carries the stored rule, and its reserved answer tells the stored
      deadlines. */
  ghost predicate Quotes(d: Data, f: Confirmer) {
    var id := f.params.intentId;
    match f.pc
    case Reading(_, rule, _) => IsStoredRule(d, id, rule)
    case Submitting(_, rule, _) => IsStoredRule(d, id, rule)
    case Reserving(_, rule, _) => IsStoredRule(d, id, rule)
    case Rechecking(rule, _) => IsStoredRule(d, id, rule)
    case Rereading(rule, _) => IsStoredRule(d, id, rule)
    case Answered(answer) =>
      answer.Reserved? ==>
        id in d.rows && id in d.rules && TellsDeadlines(answer, d.rows[id].terms, d.rules[id].rule)
    case _ => true
  }

  lemma QuotesStays(d: Data, d': Data, f: Confirmer)
    requires Quotes(d, f) && Keeps(d, d') && ContentKept(d.rules, d'.rules)
    ensures Quotes(d', f)
  {
  }

  /** Success tells the deadlines of the row and the rule it is given. */
  lemma SuccessTells(row: FundingRow, rule: RuleRow, p: Params, slot: Option<u64>, tx: Observation, nowMs: i64,
                     idempotent: bool)
    ensures TellsLateness(Success(row, rule, p, slot, tx, nowMs, idempotent), row.terms, rule.rule, tx, nowMs)
  {
  }

  lemma LookupMoveQuotes(lib: Library, d: Data, f: Confirmer, i: ConfirmInput, move: (Data, Confirmer))
    requires f.pc.GettingRow? || f.pc.GettingRule?
    requires move == ConfirmMove(lib, d, f, i)
    ensures Quotes(d, move.1) && move.1.params == f.params
  {
  }

  lemma ReadMoveQuotes(lib: Library, d: Data, f: Confirmer, i: ConfirmInput, f': Confirmer)
    requires ConfirmerOk(d, f) && Quotes(d, f) && f.pc.Reading? && f' == ReadMove(lib, d, f, i).1
    ensures Quotes(d, f')
  {
    var row, rule := f.pc.row, f.pc.rule;
    if i.reader.Some? && i.reader.value.ReadConfirmed? {
      var tx := i.reader.value.tx;
      SuccessTells(row, rule, f.params, Or(row.fundingSlot, Some(tx.slot)), tx, i.nowMs, true);
    }
  }

  lemma WriteMoveQuotes(lib: Library, d: Data, f: Confirmer, i: ConfirmInput, f': Confirmer)
    requires Quotes(d, f) && (f.pc.Submitting? || f.pc.Reserving?) && f' == ConfirmMove(lib, d, f, i).1
    ensures Quotes(d, f')
  {
  }

  lemma LastMoveQuotes(lib: Library, d: Data, f: Confirmer, i: ConfirmInput, f': Confirmer)
    requires Quotes(d, f) && (f.pc.Rechecking? || f.pc.Rereading?) && f' == ConfirmMove(lib, d, f, i).1
    ensures Quotes(d, f')
  {
    var id, rule, tx := f.params.intentId, f.pc.rule, f.pc.tx;
    if id in d.rows {
      SuccessTells(d.rows[id], rule, f.params, Or(d.rows[id].fundingSlot, Some(tx.slot)), tx, i.nowMs, true);
      SuccessTells(d.rows[id], rule, f.params, Some(tx.slot), tx, i.nowMs, false);
    }
  }

  lemma MoveQuotes(lib: Library, d: Data, f: Confirmer, i: ConfirmInput, move: (Data, Confirmer))
    requires ConfirmerOk(d, f) && Quotes(d, f) && move == ConfirmMove(lib, d, f, i)
    requires Keeps(d, move.0) && ContentKept(d.rules, move.0.rules)
    ensures Quotes(move.0, move.1)
  {
    match f.pc
    case GettingRow => LookupMoveQuotes(lib, d, f, i, move);
    case GettingRule(_) => LookupMoveQuotes(lib, d, f, i, move);
    case Reading(_, _, _) => ReadMoveQuotes(lib, d, f, i, move.1);
    case Submitting(_, _, _) => WriteMoveQuotes(lib, d, f, i, move.1);
    case Reserving(_, _, _) => WriteMoveQuotes(lib, d, f, i, move.1);
    case Rechecking(_, _) => LastMoveQuotes(lib, d, f, i, move.1);
    case Rereading(_, _) => LastMoveQuotes(lib, d, f, i, move.1);
    case _ => assert move.1 == f;
    QuotesStays(d, move.0, move.1);
  }

  ghost predicate AllQuote(w: World) {
    forall k :: k in w.confirmers ==> Quotes(w.d, w.confirmers[k])
  }

  /** Any other step leaves a confirmation call as it is, starts it, or ends it. */
  lemma OthersQuote(lib: Library, w: World, a: Action, k: nat, w': World)
    requires AllQuote(w) && w' == Step(lib, w, a) && k in w'.confirmers && !(a.ConfirmSteps? && a.k == k)
    requires Keeps(w.d, w'.d) && ContentKept(w.d.rules, w'.d.rules)
    ensures Quotes(w'.d, w'.confirmers[k])
  {
    if k in w.confirmers && w'.confirmers[k] == w.confirmers[k] {
      QuotesStays(w.d, w'.d, w.confirmers[k]);
    }
  }

  lemma StepQuotes(lib: Library, w: World, a: Action, w': World)
    requires Inv(lib, w) && AllQuote(w) && w' == Step(lib, w, a)
    ensures AllQuote(w')
  {
    StepKeepsRecords(lib, w, a);
    StepKeepsContent(lib, w, a);
    forall k | k in w'.confirmers ensures Quotes(w'.d, w'.confirmers[k]) {
      if a.ConfirmSteps? && a.k == k {
        assert ConfirmerOk(w.d, w.confirmers[k]);
        MoveQuotes(lib, w.d, w.confirmers[k], a.confirmInput, ConfirmMove(lib, w.d, w.confirmers[k], a.confirmInput));
      } else {
        OthersQuote(lib, w, a, k, w');
      }
    }
  }

  lemma {:induction false} RunsQuote(lib: Library, actions: seq<Action>)
    ensures AllQuote(Run(lib, actions))
  {
    if actions != [] {
      var n := |actions| - 1;
      RunsQuote(lib, actions[..n]);
      InvariantHolds(lib, actions[..n]);
      StepQuotes(lib, Run(lib, actions[..n]), actions[n], Run(lib, actions));
    }
  }

  /** In every run a reserved answer says "late" exactly when its arrival time is not before
      the stored row's deadline, and "rule expired" exactly when its slot is not before the
      stored rule's. */
  lemma ReservedAnswersTellDeadlines(lib: Library, actions: seq<Action>, k: nat)
    requires k in Run(lib, actions).confirmers
    requires
      var pc := Run(lib, actions).confirmers[k].pc;
      pc.Answered? && pc.answer.Reserved?
    ensures
      var d, id := DataAfter(lib, actions), Run(lib, actions).confirmers[k].params.intentId;
      var answer := Run(lib, actions).confirmers[k].pc.answer;
      && id in d.rows && id in d.rules
      && (answer.late <==> answer.arrivalMs >= d.rows[id].terms.expiresAtMs)
      && (answer.ruleExpired <==> answer.slot.Some? && answer.slot.value >= d.rules[id].rule.expiresAtSlot)
  {
    RunsQuote(lib, actions);
    assert Quotes(DataAfter(lib, actions), Run(lib, actions).confirmers[k]);
  }
}
