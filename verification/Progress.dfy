// What the tools can always still do: from any run of the lifecycle, an undisturbed
// confirmation funds a waiting row, an undisturbed attempt executes a reserved one, and
// the refund worker takes back an expired one.
module Progress {
  import opened Prelude
  import opened Codecs
  import opened WatchRules
  import opened StateStore
  import opened Submission
  import opened FundingProof
  import opened ConfirmFunding
  import opened Execution
  import opened Lifecycle
  import opened LifecycleInvariant
  import opened LifecycleSafety

  // ---- One machine moving on -------------------------------------------------------------

  /** A watcher's moves on these inputs, when nobody else moves. */
  function WatcherAlone(d: Data, v: Watcher, inputs: seq<WatcherInput>): (Data, Watcher) {
    if inputs == [] then (d, v)
    else
      var n := |inputs| - 1;
      var before := WatcherAlone(d, v, inputs[..n]);
      WatcherMove(before.0, before.1, inputs[n])
  }

  function WatcherActions(k: nat, inputs: seq<WatcherInput>): (actions: seq<Action>)
    ensures |actions| == |inputs|
  {
    if inputs == [] then [] else WatcherActions(k, inputs[..|inputs| - 1]) + [WatcherSteps(k, inputs[|inputs| - 1])]
  }

  lemma {:induction false} WatcherGoesOn(lib: Library, actions: seq<Action>, k: nat, inputs: seq<WatcherInput>)
    requires k in Run(lib, actions).watchers
    ensures
      var w := Run(lib, actions);
      Run(lib, actions + WatcherActions(k, inputs)) == WithWatcher(w, k, WatcherAlone(w.d, w.watchers[k], inputs))
  {
    var w := Run(lib, actions);
    if inputs == [] {
      assert actions + [] == actions;
      assert w.watchers[k := w.watchers[k]] == w.watchers;
    } else {
      var n := |inputs| - 1;
      WatcherGoesOn(lib, actions, k, inputs[..n]);
      var last := actions + WatcherActions(k, inputs[..n]);
      NextWatcherStep(lib, last, k, inputs[n]);
      assert actions + WatcherActions(k, inputs) == last + [WatcherSteps(k, inputs[n])];
      StepTwice(w, k, WatcherAlone(w.d, w.watchers[k], inputs[..n]), WatcherAlone(w.d, w.watchers[k], inputs));
    }
  }

  /** The later of two moves of one watcher is what counts. */
  lemma StepTwice(w: World, k: nat, first: (Data, Watcher), second: (Data, Watcher))
    ensures WithWatcher(WithWatcher(w, k, first), k, second) == WithWatcher(w, k, second)
  {
  }

  /** A confirmation's moves on these inputs, likewise. */
  function ConfirmOn(lib: Library, d: Data, f: Confirmer, inputs: seq<ConfirmInput>): (Data, Confirmer) {
    if inputs == [] then (d, f)
    else
      var n := |inputs| - 1;
      var before := ConfirmOn(lib, d, f, inputs[..n]);
      ConfirmMove(lib, before.0, before.1, inputs[n])
  }

  lemma {:induction false} ConfirmOnFirst(lib: Library, d: Data, f: Confirmer, i: ConfirmInput, rest: seq<ConfirmInput>,
                                          move: (Data, Confirmer))
    requires move == ConfirmMove(lib, d, f, i)
    ensures ConfirmOn(lib, d, f, [i] + rest) == ConfirmOn(lib, move.0, move.1, rest)
  {
    var inputs := [i] + rest;
    if rest == [] {
      assert inputs[..0] == [];
    } else {
      var n := |rest| - 1;
      ConfirmOnFirst(lib, d, f, i, rest[..n], move);
      assert inputs[..|inputs| - 1] == [i] + rest[..n];
    }
  }

  function ConfirmActions(k: nat, inputs: seq<ConfirmInput>): (actions: seq<Action>)
    ensures |actions| == |inputs|
  {
    if inputs == [] then [] else ConfirmActions(k, inputs[..|inputs| - 1]) + [ConfirmSteps(k, inputs[|inputs| - 1])]
  }

  lemma NextConfirmStep(lib: Library, actions: seq<Action>, k: nat, i: ConfirmInput)
    requires k in Run(lib, actions).confirmers
    ensures
      Run(lib, actions + [ConfirmSteps(k, i)])
      == WithConfirmer(Run(lib, actions), k, ConfirmMove(lib, Run(lib, actions).d, Run(lib, actions).confirmers[k], i))
  {
    var more := actions + [ConfirmSteps(k, i)];
    assert more[..|more| - 1] == actions && more[|more| - 1] == ConfirmSteps(k, i);
  }

  lemma ConfirmTwice(w: World, k: nat, first: (Data, Confirmer), second: (Data, Confirmer))
    ensures WithConfirmer(WithConfirmer(w, k, first), k, second) == WithConfirmer(w, k, second)
  {
  }

  lemma {:induction false} ConfirmerGoesOn(lib: Library, actions: seq<Action>, k: nat, inputs: seq<ConfirmInput>)
    requires k in Run(lib, actions).confirmers
    ensures
      var w := Run(lib, actions);
      Run(lib, actions + ConfirmActions(k, inputs))
      == WithConfirmer(w, k, ConfirmOn(lib, w.d, w.confirmers[k], inputs))
  {
    var w := Run(lib, actions);
    if inputs == [] {
      assert actions + [] == actions;
      assert w.confirmers[k := w.confirmers[k]] == w.confirmers;
    } else {
      var n := |inputs| - 1;
      ConfirmerGoesOn(lib, actions, k, inputs[..n]);
      var last := actions + ConfirmActions(k, inputs[..n]);
      NextConfirmStep(lib, last, k, inputs[n]);
      assert actions + ConfirmActions(k, inputs) == last + [ConfirmSteps(k, inputs[n])];
      ConfirmTwice(w, k, ConfirmOn(lib, w.d, w.confirmers[k], inputs[..n]),
                   ConfirmOn(lib, w.d, w.confirmers[k], inputs));
    }
  }

  /** What the calls of a confirmation that runs alone are handed, one after the other. */
  function InputsOf(lib: Library, d: Data, f: Confirmer, o: ConfirmOutside, n: nat): (inputs: seq<ConfirmInput>)
    ensures |inputs| == n
    decreases n
  {
    if n == 0 then []
    else
      var move := ConfirmMove(lib, d, f, InputOf(o, f.pc));
      [InputOf(o, f.pc)] + InputsOf(lib, move.0, move.1, o, n - 1)
  }

  lemma {:induction false} ConfirmOnIsAlone(lib: Library, d: Data, f: Confirmer, o: ConfirmOutside, n: nat)
    ensures ConfirmOn(lib, d, f, InputsOf(lib, d, f, o, n)) == ConfirmAlone(lib, d, f, o, n)
    decreases n
  {
    if n > 0 {
      var move := ConfirmMove(lib, d, f, InputOf(o, f.pc));
      ConfirmOnIsAlone(lib, move.0, move.1, o, n - 1);
      ConfirmOnFirst(lib, d, f, InputOf(o, f.pc), InputsOf(lib, move.0, move.1, o, n - 1), move);
    }
  }

  // ---- Funding -------------------------------------------------------------------------------

  lemma ConfirmStarted(lib: Library, actions: seq<Action>, k: nat, p: Params)
    requires k !in Run(lib, actions).confirmers
    ensures
      var w := Run(lib, actions);
      Run(lib, actions + [ConfirmStarts(k, p)]) == WithConfirmer(w, k, (w.d, Confirmer(p, Start(lib, p), 0)))
  {
    var more := actions + [ConfirmStarts(k, p)];
    assert more[..|more| - 1] == actions && more[|more| - 1] == ConfirmStarts(k, p);
  }

  /** The actions of one confirmation that nobody disturbs, up to its step n. */
  function Confirms(lib: Library, d: Data, k: nat, p: Params, o: ConfirmOutside, n: nat): seq<Action> {
    [ConfirmStarts(k, p)] + ConfirmActions(k, InputsOf(lib, d, Confirmer(p, Start(lib, p), 0), o, n))
  }

  lemma StartedGoesOn(lib: Library, started: seq<Action>, k: nat, o: ConfirmOutside, n: nat, w: World)
    requires w == Run(lib, started) && k in w.confirmers
    ensures
      Run(lib, started + ConfirmActions(k, InputsOf(lib, w.d, w.confirmers[k], o, n)))
      == WithConfirmer(w, k, ConfirmAlone(lib, w.d, w.confirmers[k], o, n))
  {
    ConfirmerGoesOn(lib, started, k, InputsOf(lib, w.d, w.confirmers[k], o, n));
    ConfirmOnIsAlone(lib, w.d, w.confirmers[k], o, n);
  }

  lemma ConfirmsSpelled(lib: Library, actions: seq<Action>, d: Data, k: nat, p: Params, o: ConfirmOutside, n: nat)
    ensures
      actions + Confirms(lib, d, k, p, o, n)
      == actions + [ConfirmStarts(k, p)] + ConfirmActions(k, InputsOf(lib, d, Confirmer(p, Start(lib, p), 0), o, n))
  {
  }

  /** Such a confirmation does what the sequential tool does. */
  lemma ConfirmsRun(lib: Library, actions: seq<Action>, k: nat, p: Params, o: ConfirmOutside, n: nat, w: World)
    requires w == Run(lib, actions) && k !in w.confirmers
    ensures
      var f := Confirmer(p, Start(lib, p), 0);
      Run(lib, actions + Confirms(lib, w.d, k, p, o, n)) == WithConfirmer(w, k, ConfirmAlone(lib, w.d, f, o, n))
  {
    var f := Confirmer(p, Start(lib, p), 0);
    ConfirmStarted(lib, actions, k, p);
    StartedGoesOn(lib, actions + [ConfirmStarts(k, p)], k, o, n, WithConfirmer(w, k, (w.d, f)));
    ConfirmsSpelled(lib, actions, w.d, k, p, o, n);
    ConfirmTwice(w, k, (w.d, f), ConfirmAlone(lib, w.d, f, o, n));
  }

  /** From any run, one undisturbed confirmation reserves a row that waits for this payment. */
  lemma WaitingRowCanBeFunded(lib: Library, actions: seq<Action>, k: nat, p: Params, o: ConfirmOutside,
                              tx: Observation, w: World, w': World)
    requires w == Run(lib, actions) && w' == Run(lib, actions + Confirms(lib, w.d, k, p, o, CONFIRM_STEPS))
    requires k !in w.confirmers && Start(lib, p) == GettingRow && NoFaults(o)
    requires p.intentId in w.d.rows && p.intentId in w.d.rules
    requires RuleMatchesIntent(lib, w.d.rules[p.intentId], w.d.rows[p.intentId].terms)
    requires w.d.rows[p.intentId].status == FundingRequired
             || (w.d.rows[p.intentId].status == FundingSubmitted
                 && w.d.rows[p.intentId].fundingSignature == Some(p.txSignature))
    requires o.reader == Some(ReadConfirmed(tx)) && Paid(lib, tx, w.d.rows[p.intentId].terms)
    ensures p.intentId in w'.d.rows && w'.d.rows[p.intentId].status == BudgetReserved
    ensures w'.d.rows[p.intentId].terms == w.d.rows[p.intentId].terms
    ensures w'.d.rules == w.d.rules && w'.watchers == w.watchers
  {
    var f := Confirmer(p, Start(lib, p), 0);
    ConfirmsRun(lib, actions, k, p, o, CONFIRM_STEPS, w);
    RetryAfterAnyRun(lib, actions, f, o, tx);
  }

  // ---- Execution -------------------------------------------------------------------------------

  /** Every call works, the review signs, the send is accepted and seen finalized. */
  function Works(nowMs: i64, payload: Payload, slot: u64): WatcherInput {
    WatcherInput(NoFault, nowMs, Ok(payload), true, Submitted(payload.signature), PollLanded(slot))
  }

  function Copies(i: WatcherInput, n: nat): (inputs: seq<WatcherInput>)
    ensures |inputs| == n && forall j :: 0 <= j < n ==> inputs[j] == i
  {
    if n == 0 then [] else Copies(i, n - 1) + [i]
  }

  lemma AloneAgain(d: Data, v: Watcher, i: WatcherInput, n: nat, before: (Data, Watcher))
    requires before == WatcherAlone(d, v, Copies(i, n))
    ensures WatcherAlone(d, v, Copies(i, n + 1)) == WatcherMove(before.0, before.1, i)
  {
    assert Copies(i, n + 1)[..n] == Copies(i, n);
  }

  /** The row, the rule and the records after an execution with this signature and slot. */
  function ExecutedData(d: Data, c: Candidate, signature: string, slot: u64): Data
    requires c.intentId in d.rows && RuleKey(c) in d.rules
  {
    d.(rows := d.rows[c.intentId := d.rows[c.intentId].(status := Completed, executionSignature := Some(signature))],
       rules := d.rules[RuleKey(c) := d.rules[RuleKey(c)].(status := RuleCompleted, completed := true,
                                                           usedAmountRaw := c.amountRaw, lastCheckedSlot := Some(slot))],
       sends := d.sends[c.intentId := d.Log(c.intentId) + [signature]],
       landed := d.landed + {signature})
  }

  predicate CanBeLeased(d: Data, c: Candidate, nowMs: i64) {
    && c.intentId in d.rows && RuleKey(c) in d.rules
    && d.rows[c.intentId].status == BudgetReserved && nowMs < d.rows[c.intentId].terms.expiresAtMs
  }

  /** The lease and the review. */
  lemma ReachesSubmit(d: Data, c: Candidate, i: WatcherInput, nowMs: i64, payload: Payload, slot: u64)
    requires CanBeLeased(d, c, nowMs) && i == Works(nowMs, payload, slot)
    ensures
      WatcherAlone(d, Watcher(c, AtLease, 0), Copies(i, 2))
      == (d.(rows := d.rows[c.intentId := d.rows[c.intentId].(status := Executing)]), Watcher(c, AtSubmit(payload), 0))
  {
    var v := Watcher(c, AtLease, 0);
    var d1 := d.(rows := d.rows[c.intentId := d.rows[c.intentId].(status := Executing)]);
    AloneAgain(d, v, i, 0, (d, v));
    LeaseWorks(d, v, i);
    AloneAgain(d, v, i, 1, (d1, v.(pc := AtReview)));
  }

  /** The send and the poll. */
  lemma ReachesFinality(d: Data, c: Candidate, i: WatcherInput, nowMs: i64, payload: Payload, slot: u64)
    requires CanBeLeased(d, c, nowMs) && i == Works(nowMs, payload, slot)
    ensures
      var signature := payload.signature;
      WatcherAlone(d, Watcher(c, AtLease, 0), Copies(i, 4))
      == (d.(rows := d.rows[c.intentId := d.rows[c.intentId].(status := Executing)],
             sends := d.sends[c.intentId := d.Log(c.intentId) + [signature]], landed := d.landed + {signature}),
          Watcher(c, AtCompleteRule(signature, slot), 0))
  {
    var v, id, signature := Watcher(c, AtLease, 0), c.intentId, payload.signature;
    var d1 := d.(rows := d.rows[id := d.rows[id].(status := Executing)]);
    var d3 := d1.(sends := d.sends[id := d.Log(id) + [signature]]);
    ReachesSubmit(d, c, i, nowMs, payload, slot);
    AloneAgain(d, v, i, 2, (d1, v.(pc := AtSubmit(payload))));
    SendWorks(d1, v.(pc := AtSubmit(payload)), i);
    AloneAgain(d, v, i, 3, (d3, v.(pc := AtPoll(signature))));
    PollWorks(d3, v.(pc := AtPoll(signature)), i, slot);
  }

  lemma PollWorks(d: Data, v: Watcher, i: WatcherInput, slot: u64)
    requires v.pc.AtPoll? && i.poll == PollLanded(slot)
    ensures
      WatcherMove(d, v, i)
      == (d.(landed := d.landed + {v.pc.signature}), v.(pc := AtCompleteRule(v.pc.signature, slot)))
  {
  }

  lemma LeaseWorks(d: Data, v: Watcher, i: WatcherInput)
    requires v.pc.AtLease? && CanBeLeased(d, v.candidate, i.nowMs) && i.fault.NoFault?
    ensures
      var id := v.candidate.intentId;
      WatcherMove(d, v, i) == (d.(rows := d.rows[id := d.rows[id].(status := Executing)]), v.(pc := AtReview))
  {
  }

  lemma SendWorks(d: Data, v: Watcher, i: WatcherInput)
    requires v.pc.AtSubmit? && i.writable && i.send == Submitted(v.pc.payload.signature)
    ensures
      var id, signature := v.candidate.intentId, v.pc.payload.signature;
      WatcherMove(d, v, i)
      == (d.(sends := d.sends[id := d.Log(id) + [signature]]), v.(pc := AtPoll(signature)))
  {
  }

  /** And the two completions. */
  lemma AttemptCompletes(d: Data, c: Candidate, i: WatcherInput, nowMs: i64, payload: Payload, slot: u64)
    requires CanBeLeased(d, c, nowMs) && i == Works(nowMs, payload, slot)
    ensures
      var end := WatcherAlone(d, Watcher(c, AtLease, 0), Copies(i, 6));
      end.0 == ExecutedData(d, c, payload.signature, slot) && end.1.pc.Done? && end.1.pc.report.status.CompletedAll?
  {
    var v, id, signature := Watcher(c, AtLease, 0), c.intentId, payload.signature;
    ReachesFinality(d, c, i, nowMs, payload, slot);
    var before := WatcherAlone(d, v, Copies(i, 4));
    AloneAgain(d, v, i, 4, before);
    RuleWorks(before.0, before.1, i);
    var middle := WatcherMove(before.0, before.1, i);
    AloneAgain(d, v, i, 5, middle);
    CompletionWorks(middle.0, middle.1, i);
    assert WatcherMove(middle.0, middle.1, i).0.rows == ExecutedData(d, c, signature, slot).rows;
  }

  lemma RuleWorks(d: Data, v: Watcher, i: WatcherInput)
    requires v.pc.AtCompleteRule? && RuleKey(v.candidate) in d.rules && i.fault.NoFault?
    ensures
      var key := RuleKey(v.candidate);
      WatcherMove(d, v, i)
      == (d.(rules := d.rules[key := d.rules[key].(status := RuleCompleted, completed := true,
                                                   usedAmountRaw := v.candidate.amountRaw,
                                                   lastCheckedSlot := Some(v.pc.slot))]),
          v.(pc := AtCompleteFunding(v.pc.signature, v.pc.slot), ruleWrites := v.ruleWrites + 1))
  {
  }

  lemma CompletionWorks(d: Data, v: Watcher, i: WatcherInput)
    requires v.pc.AtCompleteFunding? && v.candidate.intentId in d.rows && i.fault.NoFault?
    requires d.rows[v.candidate.intentId].status == Executing
    ensures
      var id, move := v.candidate.intentId, WatcherMove(d, v, i);
      && move.0 == d.(rows := d.rows[id := d.rows[id].(status := Completed,
                                                       executionSignature := Some(v.pc.signature))])
      && move.1.pc.Done? && move.1.pc.report.status.CompletedAll?
  {
  }

  /** Where the attempt stands before each of its moves. */
  lemma AttemptStands(d: Data, c: Candidate, i: WatcherInput, nowMs: i64, payload: Payload, slot: u64, n: nat)
    requires CanBeLeased(d, c, nowMs) && i == Works(nowMs, payload, slot) && n < 6
    ensures WatcherAlone(d, Watcher(c, AtLease, 0), Copies(i, n)).1.pc.AtReview? <==> n == 1
  {
    var v := Watcher(c, AtLease, 0);
    match n
    case 0 =>
    case 1 =>
      AloneAgain(d, v, i, 0, (d, v));
      LeaseWorks(d, v, i);
    case 2 => ReachesSubmit(d, c, i, nowMs, payload, slot);
    case 3 =>
      ReachesSubmit(d, c, i, nowMs, payload, slot);
      var before := WatcherAlone(d, v, Copies(i, 2));
      AloneAgain(d, v, i, 2, before);
      SendWorks(before.0, before.1, i);
    case 4 => ReachesFinality(d, c, i, nowMs, payload, slot);
    case _ =>
      ReachesFinality(d, c, i, nowMs, payload, slot);
      var before := WatcherAlone(d, v, Copies(i, 4));
      AloneAgain(d, v, i, 4, before);
      RuleWorks(before.0, before.1, i);
  }

  lemma WatcherStarted(lib: Library, actions: seq<Action>, k: nat, c: Candidate, w: World)
    requires w == Run(lib, actions) && k !in w.watchers && MayStart(w.d, c)
    ensures Run(lib, actions + [WatcherStarts(k, c)]) == WithWatcher(w, k, (w.d, Watcher(c, AtLease, 0)))
  {
    var more := actions + [WatcherStarts(k, c)];
    assert more[..|more| - 1] == actions && more[|more| - 1] == WatcherStarts(k, c);
  }

  /** The actions of one attempt that nobody disturbs. */
  function Executes(k: nat, c: Candidate, i: WatcherInput): seq<Action> {
    [WatcherStarts(k, c)] + WatcherActions(k, Copies(i, 6))
  }

  /** From any run, one undisturbed attempt whose review signs and whose transaction lands
      executes a reserved row before its deadline: row and rule are completed, with the one
      signature sent. */
  lemma ReservedRowCanBeExecuted(lib: Library, actions: seq<Action>, k: nat, c: Candidate, nowMs: i64,
                                 payload: Payload, slot: u64, w: World)
    requires w == Run(lib, actions) && k !in w.watchers && MayStart(w.d, c) && CanBeLeased(w.d, c, nowMs)
    ensures
      Run(lib, actions + Executes(k, c, Works(nowMs, payload, slot))).d == ExecutedData(w.d, c, payload.signature, slot)
  {
    var i := Works(nowMs, payload, slot);
    WatcherStarted(lib, actions, k, c, w);
    StartedExecutes(lib, actions + [WatcherStarts(k, c)], k, c, i, nowMs, payload, slot,
                    WithWatcher(w, k, (w.d, Watcher(c, AtLease, 0))));
    assert actions + Executes(k, c, i) == actions + [WatcherStarts(k, c)] + WatcherActions(k, Copies(i, 6));
  }

  lemma StartedExecutes(lib: Library, started: seq<Action>, k: nat, c: Candidate, i: WatcherInput, nowMs: i64,
                        payload: Payload, slot: u64, w: World)
    requires w == Run(lib, started) && k in w.watchers && w.watchers[k] == Watcher(c, AtLease, 0)
    requires CanBeLeased(w.d, c, nowMs) && i == Works(nowMs, payload, slot)
    ensures Run(lib, started + WatcherActions(k, Copies(i, 6))).d == ExecutedData(w.d, c, payload.signature, slot)
  {
    WatcherGoesOn(lib, started, k, Copies(i, 6));
    AttemptCompletes(w.d, c, i, nowMs, payload, slot);
  }

  /** A crashed confirmation writes nothing more. */
  lemma CrashedConfirmationStops(lib: Library, w: World, k: nat, i: ConfirmInput)
    requires k in w.confirmers
    ensures
      var crashed := Step(lib, w, ConfirmCrashes(k));
      crashed.d == w.d && crashed.confirmers[k].pc.ConfirmCrashed? && Step(lib, crashed, ConfirmSteps(k, i)) == crashed
  {
    var crashed := Step(lib, w, ConfirmCrashes(k));
    assert crashed.confirmers[k := crashed.confirmers[k]] == crashed.confirmers;
  }

  // ---- Refund -----------------------------------------------------------------------------------

  lemma OtherWrote(lib: Library, actions: seq<Action>, id: string, write: FundingWrite, w: World)
    requires w == Run(lib, actions) && id in w.d.rows && OthersMay(w.d.rows[id], write)
    ensures
      Run(lib, actions + [OtherWriter(id, write)])
      == w.(d := w.d.(rows := w.d.rows[id := Updated(w.d.rows[id], write)]))
  {
    var more := actions + [OtherWriter(id, write)];
    assert more[..|more| - 1] == actions && more[|more| - 1] == OtherWriter(id, write);
  }

  /** From any run, a reserved row past its deadline can be expired and refunded. */
  lemma ExpiredRowCanBeRefunded(lib: Library, actions: seq<Action>, id: string, nowMs: i64, signature: string,
                                w: World)
    requires w == Run(lib, actions) && id in w.d.rows
    requires w.d.rows[id].status == BudgetReserved && nowMs >= w.d.rows[id].terms.expiresAtMs
    ensures
      var refund := [OtherWriter(id, MarkExpired(nowMs))] + [OtherWriter(id, LeaseRefund(nowMs))]
                    + [OtherWriter(id, MarkRefunded(signature))];
      Run(lib, actions + refund).d.rows
      == w.d.rows[id := w.d.rows[id].(status := Refunded, refundSignature := Some(signature))]
  {
    var row := w.d.rows[id];
    var a1, a2, a3 := OtherWriter(id, MarkExpired(nowMs)), OtherWriter(id, LeaseRefund(nowMs)),
                      OtherWriter(id, MarkRefunded(signature));
    OtherWrote(lib, actions, id, MarkExpired(nowMs), w);
    var w1 := w.(d := w.d.(rows := w.d.rows[id := row.(status := Expired)]));
    ExpiredIsRefunded(lib, actions + [a1], id, nowMs, signature, w1);
    assert actions + ([a1] + [a2] + [a3]) == actions + [a1] + ([a2] + [a3]);
  }

  lemma ExpiredIsRefunded(lib: Library, actions: seq<Action>, id: string, nowMs: i64, signature: string, w: World)
    requires w == Run(lib, actions) && id in w.d.rows
    requires w.d.rows[id].status == Expired && nowMs >= w.d.rows[id].terms.expiresAtMs
    ensures
      Run(lib, actions + ([OtherWriter(id, LeaseRefund(nowMs))] + [OtherWriter(id, MarkRefunded(signature))])).d.rows
      == w.d.rows[id := w.d.rows[id].(status := Refunded, refundSignature := Some(signature))]
  {
    var row := w.d.rows[id];
    var a2, a3 := OtherWriter(id, LeaseRefund(nowMs)), OtherWriter(id, MarkRefunded(signature));
    OtherWrote(lib, actions, id, LeaseRefund(nowMs), w);
    OtherWrote(lib, actions + [a2], id, MarkRefunded(signature),
               w.(d := w.d.(rows := w.d.rows[id := row.(status := Refunding)])));
    assert actions + ([a2] + [a3]) == actions + [a2] + [a3];
  }
}
