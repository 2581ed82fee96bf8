// From any run of the finalize system, an undisturbed call for a new draft is carried
// through to its funding instructions.
module FinalizeProgress {
  import opened Prelude
  import opened Codecs
  import opened WatchRules
  import opened StateStore
  import Sidecar
  import opened Finalize
  import opened FinalizeProgram
  import opened FinalizeSafety
  import opened FinalizeAnswers

  /** The steps of call k that nobody disturbs. */
  function CallActions(o: Outside, d: Data, k: nat, pc: FinalizePc, s: Inputs, n: nat): (actions: seq<Action>)
    ensures forall i :: 0 <= i < |actions| ==> actions[i].Steps?
  {
    if n == 0 then []
    else CallActions(o, d, k, pc, s, n - 1) + [Steps(k, InputFor(Solo(o, d, pc, s, n - 1).1, s))]
  }

  /** The call is here: the data, and where it stands. */
  ghost predicate CallAt(w: World, k: nat, at: (Data, FinalizePc)) {
    k in w.calls && (w.d, w.calls[k].pc) == at
  }

  lemma NextCallStep(o: Outside, actions: seq<Action>, k: nat, i: Input, at: (Data, FinalizePc))
    requires CallAt(Run(o, actions), k, at)
    ensures CallAt(Run(o, actions + [Steps(k, i)]), k, Move(o, at.0, at.1, i))
  {
    var more := actions + [Steps(k, i)];
    assert more[..|more| - 1] == actions && more[|more| - 1] == Steps(k, i);
  }

  lemma SoloNext(o: Outside, d: Data, pc: FinalizePc, s: Inputs, n: nat, before: (Data, FinalizePc))
    requires before == Solo(o, d, pc, s, n)
    ensures Solo(o, d, pc, s, n + 1) == Move(o, before.0, before.1, InputFor(before.1, s))
  {
    SoloAdds(o, d, pc, s, n, 1);
    assert Solo(o, d, pc, s, n + 1) == Solo(o, before.0, before.1, s, 1);
  }

  /** A call left alone does what the sequential tool does. */
  lemma {:induction false} CallGoesOn(o: Outside, actions: seq<Action>, k: nat, s: Inputs, n: nat, d: Data,
                                      pc: FinalizePc)
    requires CallAt(Run(o, actions), k, (d, pc))
    ensures CallAt(Run(o, actions + CallActions(o, d, k, pc, s, n)), k, Solo(o, d, pc, s, n))
  {
    if n == 0 {
      assert actions + [] == actions;
    } else {
      CallGoesOn(o, actions, k, s, n - 1, d, pc);
      var last, before := actions + CallActions(o, d, k, pc, s, n - 1), Solo(o, d, pc, s, n - 1);
      NextCallStep(o, last, k, InputFor(before.1, s), before);
      SoloNext(o, d, pc, s, n - 1, before);
      assert actions + CallActions(o, d, k, pc, s, n) == last + [Steps(k, InputFor(before.1, s))];
    }
  }

  lemma CallStarted(o: Outside, actions: seq<Action>, k: nat, r: Request, w: World)
    requires w == Run(o, actions) && k !in w.calls
    ensures CallAt(Run(o, actions + [Starts(k, r)]), k, (w.d, Admit(o, r)))
  {
    var more := actions + [Starts(k, r)];
    assert more[..|more| - 1] == actions && more[|more| - 1] == Starts(k, r);
  }

  /** The actions of one call. */
  function Finalizes(o: Outside, d: Data, k: nat, r: Request, s: Inputs, n: nat): seq<Action> {
    [Starts(k, r)] + CallActions(o, d, k, Admit(o, r), s, n)
  }

  lemma CallRuns(o: Outside, actions: seq<Action>, k: nat, r: Request, s: Inputs, n: nat, w: World)
    requires w == Run(o, actions) && k !in w.calls
    ensures CallAt(Run(o, actions + Finalizes(o, w.d, k, r, s, n)), k, Solo(o, w.d, Admit(o, r), s, n))
  {
    CallStarted(o, actions, k, r, w);
    CallGoesOn(o, actions + [Starts(k, r)], k, s, n, w.d, Admit(o, r));
    assert actions + Finalizes(o, w.d, k, r, s, n)
        == actions + [Starts(k, r)] + CallActions(o, w.d, k, Admit(o, r), s, n);
  }

  /** A crash ends one call and a restart of the server all of them; neither touches the
      stores, and a restarted server opens its sidecar anew. */
  lemma CrashesAndRestarts(o: Outside, w: World, k: nat, i: Input)
    ensures
      var crashed := Step(o, w, Crashes(k));
      crashed.d == w.d && (k in w.calls ==> Step(o, crashed, Steps(k, i)) == crashed && crashed.calls[k].pc == FinalizeCrashed)
    ensures
      var restarted := Step(o, w, ServerRestarts);
      && restarted.d == w.d.(side := w.d.side.(state := Sidecar.Unopened)) && restarted.calls.Keys == w.calls.Keys
      && (k in w.calls ==> restarted.calls[k].pc == FinalizeCrashed)
  {
    if k in w.calls {
      var crashed := Step(o, w, Crashes(k));
      assert crashed.calls[k := crashed.calls[k]] == crashed.calls;
    }
  }

  /** What an undisturbed call for a new draft finds: a request nothing objects to, a draft
      id that is free, and neither rule nor row under the rule's id. */
  predicate CanBeFinalized(o: Outside, d: Data, r: Request, s: Inputs) {
    && Admit(o, r).AtClaim? && GoesWell(s) && IsNewDraft(d, Admit(o, r).c)
    && o.lib.parseKey(o.lib.keyText(Admit(o, r).c.wallet)) == Some(Admit(o, r).c.wallet)
    && HexLower(BuiltFor(o, Admit(o, r).c, s).ruleId) !in d.rules
    && HexLower(BuiltFor(o, Admit(o, r).c, s).ruleId) !in d.rows
  }

  /** In any run, one such call writes the rule and the row and answers with its terms. */
  lemma NewDraftCanBeFinalized(o: Outside, actions: seq<Action>, k: nat, r: Request, s: Inputs, w: World, w': World)
    requires w == Run(o, actions) && k !in w.calls && CanBeFinalized(o, w.d, r, s)
    requires w' == Run(o, actions + Finalizes(o, w.d, k, r, s, FINALIZE_STEPS))
    ensures
      var c := Admit(o, r).c;
      var rule, terms := BuiltFor(o, c, s), TermsFor(o, c, s);
      && k in w'.calls && w'.calls[k].pc == Finished(Actionable(terms, s.readFunding.nowMs))
      && w'.d.rows == w.d.rows[terms.intentId := FreshFundingRow(terms)]
      && w'.d.rules == w.d.rules[terms.intentId := FreshRuleRow(o.lib, rule)]
  {
    CallRuns(o, actions, k, r, s, FINALIZE_STEPS, w);
    NewDraftIsActionable(o, w.d, r, s);
  }
}
