// Joint runs as the watch loop drives them: an attempt starts only from a passed check
// of the stored row and rule, and submits only what a review has signed. What a check
// and a review are is left to the loop.
module WatchRuns {
  import opened Prelude
  import opened Codecs
  import opened WatchRules
  import opened StateStore
  import opened Candidates
  import opened ExecutionPolicy
  import opened WalletReview
  import Finalize
  import Submission
  import X = Execution
  import F = FinalizeSafety
  import L = Lifecycle
  import LS = LifecycleSafety
  import J = JointRuns
  import E = EndToEnd

  // ---- The loop -----------------------------------------------------------------------------

  /** What a check reads besides the tables: two clock readings and the decoded accounts. */
  datatype Reading = Reading(before: PreflightClocks, facts: ChainFacts, after: Clocks)

  /** The plan and the candidate that a passed check hands to execution. */
  datatype Checked = Checked(reading: Reading, plan: PlanInputs, candidate: X.Candidate)

  /** A check of a row and its rule, a review of a plan, and how a signature is written. */
  datatype Loop = Loop(
    o: Finalize.Outside,
    check: (FundingTerms, WatchRule, Reading) -> Option<Checked>,
    sign: (PlanInputs, ReviewOutside) -> Option<Reviewed>,
    signatureText: Signature -> string)

  /** A check answers for the row, the rule and the amount it was asked about. */
  ghost predicate ChecksItsOwn(loop: Loop) {
    forall t, r, s :: loop.check(t, r, s).Some? ==>
      var c := loop.check(t, r, s).value;
      c.reading == s && c.candidate == X.Candidate(t.intentId, r.ruleId, t.amountRaw) && HexLower(r.ruleId) == t.intentId
  }

  function PayloadOf(loop: Loop, r: Reviewed): X.Payload {
    X.Payload(r.signedTransactionBytes, loop.signatureText(r.signature), r.lastValidBlockHeight)
  }

  function ReviewResultOf(loop: Loop, p: PlanInputs, outside: ReviewOutside, error: Submission.ErrorClass)
    : X.ReviewResult
  {
    match loop.sign(p, outside)
    case Some(r) => Ok(PayloadOf(loop, r))
    case None => Err(error)
  }

  // ---- The system -----------------------------------------------------------------------------

  datatype Signing = Signing(outside: ReviewOutside, reviewed: Reviewed)

  datatype World = World(j: J.World, checked: map<nat, Checked>, signed: map<nat, Signing>)

  const EMPTY := World(J.EMPTY, map[], map[])

  /** `Goes` is any joint action but the two that the watch loop guards: starting an
      execution attempt, and reviewing. */
  datatype Action =
    | Goes(a: J.Action)
    | Inspects(k: nat, id: string, reading: Reading)
    | Reviews(k: nat, outside: ReviewOutside, error: Submission.ErrorClass, input: L.WatcherInput)

  predicate AtReview(w: World, k: nat) {
    k in w.j.l.watchers && w.j.l.watchers[k].pc.AtReview?
  }

  predicate Free(w: World, a: J.Action) {
    a.Proceeds? ==> !a.b.WatcherStarts? && (a.b.WatcherSteps? ==> !AtReview(w, a.b.k))
  }

  function CheckNow(loop: Loop, w: World, id: string, s: Reading): Option<Checked> {
    var d := w.j.l.d;
    if id in d.rows && id in d.rules then loop.check(d.rows[id].terms, d.rules[id].rule, s) else None
  }

  /** The joint action behind an action of the watch loop. */
  function JointAction(loop: Loop, w: World, a: Action): Option<J.Action> {
    match a
    case Goes(a) => if Free(w, a) then Some(a) else None
    case Inspects(k, id, s) =>
      var check := CheckNow(loop, w, id, s);
      if k !in w.j.l.watchers && check.Some? then Some(J.Proceeds(L.WatcherStarts(k, check.value.candidate))) else None
    case Reviews(k, outside, error, input) =>
      if AtReview(w, k) && k in w.checked then
        var result := ReviewResultOf(loop, w.checked[k].plan, outside, error);
        Some(J.Proceeds(L.WatcherSteps(k, input.(review := result))))
      else None
  }

  function Step(loop: Loop, w: World, a: Action): World {
    match JointAction(loop, w, a)
    case None => w
    case Some(joint) =>
      World(J.Step(loop.o, w.j, joint),
            if a.Inspects? then w.checked[a.k := CheckNow(loop, w, a.id, a.reading).value] else w.checked,
            if a.Reviews? && loop.sign(w.checked[a.k].plan, a.outside).Some? then
              w.signed[a.k := Signing(a.outside, loop.sign(w.checked[a.k].plan, a.outside).value)]
            else w.signed)
  }

  function Run(loop: Loop, actions: seq<Action>): World {
    if actions == [] then EMPTY else Step(loop, Run(loop, actions[..|actions| - 1]), actions[|actions| - 1])
  }

  /** The joint run underneath. */
  function JointRun(loop: Loop, actions: seq<Action>): seq<J.Action> {
    if actions == [] then []
    else
      var n := |actions| - 1;
      J.More(JointRun(loop, actions[..n]), JointAction(loop, Run(loop, actions[..n]), actions[n]))
  }

  lemma JointRunGoesOn(loop: Loop, js: seq<J.Action>, a: J.Action)
    ensures J.Run(loop.o, js + [a]) == J.Step(loop.o, J.Run(loop.o, js), a)
  {
    assert (js + [a])[..|js|] == js;
  }

  /** Everything proved of joint runs holds here too. */
  lemma {:induction false} RunsAreJoint(loop: Loop, actions: seq<Action>)
    ensures J.Run(loop.o, JointRun(loop, actions)) == Run(loop, actions).j
  {
    if actions != [] {
      var n := |actions| - 1;
      RunsAreJoint(loop, actions[..n]);
      var next := JointAction(loop, Run(loop, actions[..n]), actions[n]);
      if next.Some? {
        JointRunGoesOn(loop, JointRun(loop, actions[..n]), next.value);
      }
    }
  }

  // ---- The invariant ------------------------------------------------------------------------------

  /** The watcher's plan came out of a passed check of the stored row and rule. */
  ghost predicate IsChecked(loop: Loop, d: L.Data, v: L.Watcher, c: Checked) {
    var id := v.candidate.intentId;
    && id in d.rows && id in d.rules && d.rows[id].terms.intentId == id
    && loop.check(d.rows[id].terms, d.rules[id].rule, c.reading) == Some(c) && v.candidate == c.candidate
  }

  ghost predicate IsSigned(loop: Loop, c: Checked, s: Signing) {
    loop.sign(c.plan, s.outside) == Some(s.reviewed)
  }

  /** Watcher k acts for this intent and signed with this signature. */
  ghost predicate SignedFor(loop: Loop, w: World, k: nat, id: string, signature: string) {
    && k in w.j.l.watchers && w.j.l.watchers[k].candidate.intentId == id && k in w.signed
    && loop.signatureText(w.signed[k].reviewed.signature) == signature
  }

  ghost predicate WatcherTraced(loop: Loop, w: World, k: nat)
    requires k in w.j.l.watchers
  {
    var v := w.j.l.watchers[k];
    && k in w.checked && IsChecked(loop, w.j.l.d, v, w.checked[k])
    && (v.pc.AtSubmit? ==> k in w.signed && v.pc.payload == PayloadOf(loop, w.signed[k].reviewed))
    && (k in w.signed ==> !v.pc.AtLease? && !v.pc.AtReview? && IsSigned(loop, w.checked[k], w.signed[k]))
  }

  ghost predicate WatchersTraced(loop: Loop, w: World) {
    forall k :: k in w.j.l.watchers ==> WatcherTraced(loop, w, k)
  }

  ghost predicate RecordsOfWatchers(w: World) {
    w.checked.Keys <= w.j.l.watchers.Keys && w.signed.Keys <= w.j.l.watchers.Keys
  }

  ghost predicate SendsAreSigned(loop: Loop, w: World) {
    forall id, signature :: signature in w.j.l.d.Log(id) ==> exists k: nat :: SignedFor(loop, w, k, id, signature)
  }

  ghost predicate Traced(loop: Loop, w: World) {
    WatchersTraced(loop, w) && RecordsOfWatchers(w) && SendsAreSigned(loop, w)
  }

  // ---- One step ----------------------------------------------------------------------------------

  ghost predicate TablesKept(d: L.Data, d': L.Data) {
    && (forall id :: id in d.rows ==> id in d'.rows && d'.rows[id].terms == d.rows[id].terms)
    && (forall id :: id in d.rules ==> id in d'.rules && d'.rules[id].rule == d.rules[id].rule)
  }

  /** What a free step may do to a watcher: it reaches no submission it was not at, and
      it is before its review only if it was before its lease. */
  ghost predicate Follows(v: L.Watcher, v': L.Watcher) {
    && v'.candidate == v.candidate && (v'.pc.AtSubmit? ==> v' == v)
    && (v'.pc.AtLease? || v'.pc.AtReview? ==> v.pc.AtLease?)
  }

  lemma MoveFollows(d: L.Data, v: L.Watcher, i: L.WatcherInput)
    requires !v.pc.AtReview?
    ensures Follows(v, L.WatcherMove(d, v, i).1)
  {
  }

  /** Every new signature in a log is that of a watcher at its submission. */
  ghost predicate LogsFollow(l: L.World, d': L.Data) {
    forall id, signature :: signature in d'.Log(id) ==>
      signature in l.d.Log(id) || exists k: nat :: Submits(l, k, id, signature)
  }

  ghost predicate Submits(l: L.World, k: nat, id: string, signature: string) {
    && k in l.watchers && l.watchers[k].pc.AtSubmit? && l.watchers[k].candidate.intentId == id
    && l.watchers[k].pc.payload.signature == signature
  }

  lemma SameSendsFollow(l: L.World, d': L.Data)
    requires d'.sends == l.d.sends
    ensures LogsFollow(l, d')
  {
    assert forall id :: d'.Log(id) == l.d.Log(id);
  }

  lemma SubmitLogsFollow(l: L.World, k: nat, i: L.WatcherInput)
    requires k in l.watchers && l.watchers[k].pc.AtSubmit?
    ensures LogsFollow(l, L.SubmitMove(l.d, l.watchers[k], i).0)
  {
    var v := l.watchers[k];
    var d', mine := L.SubmitMove(l.d, v, i).0, v.candidate.intentId;
    forall id, signature | signature in d'.Log(id)
      ensures signature in l.d.Log(id) || exists k: nat :: Submits(l, k, id, signature)
    {
      if id == mine && signature !in l.d.Log(id) {
        assert Submits(l, k, id, signature);
      }
    }
  }

  lemma OtherMovesSendNothing(d: L.Data, v: L.Watcher, i: L.WatcherInput)
    requires !v.pc.AtSubmit?
    ensures L.WatcherMove(d, v, i).0.sends == d.sends
  {
  }

  lemma ConfirmSendsNothing(lib: Library, d: L.Data, f: L.Confirmer, i: L.ConfirmInput)
    ensures L.ConfirmMove(lib, d, f, i).0.sends == d.sends
  {
  }

  /** A lifecycle step that neither starts an attempt nor passes a review. */
  lemma FreeStepFollows(lib: Library, l: L.World, b: L.Action, l': L.World)
    requires l' == L.Step(lib, l, b) && !b.WatcherStarts?
    requires b.WatcherSteps? && b.k in l.watchers ==> !l.watchers[b.k].pc.AtReview?
    ensures l'.watchers.Keys == l.watchers.Keys && LogsFollow(l, l'.d)
    ensures forall k :: k in l.watchers && k in l'.watchers ==>
              l'.watchers[k] == l.watchers[k] || Follows(l.watchers[k], l'.watchers[k])
  {
    if b.WatcherSteps? && b.k in l.watchers {
      MoveFollows(l.d, l.watchers[b.k], b.input);
      if l.watchers[b.k].pc.AtSubmit? {
        SubmitLogsFollow(l, b.k, b.input);
      } else {
        OtherMovesSendNothing(l.d, l.watchers[b.k], b.input);
        SameSendsFollow(l, l'.d);
      }
    } else {
      if b.ConfirmSteps? && b.k in l.confirmers {
        ConfirmSendsNothing(lib, l.d, l.confirmers[b.k], b.confirmInput);
      }
      SameSendsFollow(l, l'.d);
    }
  }

  /** A check stays good: it speaks of terms and a rule that never change. */
  lemma CheckStays(loop: Loop, d: L.Data, d': L.Data, v: L.Watcher, v': L.Watcher, c: Checked)
    requires IsChecked(loop, d, v, c) && TablesKept(d, d') && v'.candidate == v.candidate
    ensures IsChecked(loop, d', v', c)
  {
  }

  /** A watcher whose records stay is traced as before. */
  lemma TraceGoesOn(loop: Loop, w: World, w': World, k: nat)
    requires k in w.j.l.watchers && WatcherTraced(loop, w, k) && TablesKept(w.j.l.d, w'.j.l.d)
    requires k in w'.checked && w'.checked[k] == w.checked[k]
    requires (k in w'.signed <==> k in w.signed) && (k in w.signed ==> w'.signed[k] == w.signed[k])
    requires k in w'.j.l.watchers
    requires w'.j.l.watchers[k] == w.j.l.watchers[k] || Follows(w.j.l.watchers[k], w'.j.l.watchers[k])
    ensures WatcherTraced(loop, w', k)
  {
    CheckStays(loop, w.j.l.d, w'.j.l.d, w.j.l.watchers[k], w'.j.l.watchers[k], w.checked[k]);
  }

  ghost predicate SignaturesKept(w: World, w': World) {
    && (forall k :: k in w.signed ==> k in w'.signed && w'.signed[k] == w.signed[k])
    && (forall k :: k in w.j.l.watchers ==>
          k in w'.j.l.watchers && w'.j.l.watchers[k].candidate == w.j.l.watchers[k].candidate)
  }

  lemma SendsTraced(loop: Loop, w: World, w': World)
    requires WatchersTraced(loop, w) && SendsAreSigned(loop, w) && LogsFollow(w.j.l, w'.j.l.d) && SignaturesKept(w, w')
    ensures SendsAreSigned(loop, w')
  {
    forall id, signature | signature in w'.j.l.d.Log(id) ensures exists k: nat :: SignedFor(loop, w', k, id, signature) {
      if signature in w.j.l.d.Log(id) {
        var k: nat :| SignedFor(loop, w, k, id, signature);
        assert SignedFor(loop, w', k, id, signature);
      } else {
        var k: nat :| Submits(w.j.l, k, id, signature);
        assert WatcherTraced(loop, w, k);
        assert SignedFor(loop, w', k, id, signature);
      }
    }
  }

  /** What a free joint step does to the watchers and the logs. */
  lemma FreeJointStep(loop: Loop, w: World, a: J.Action, l': L.World)
    requires Free(w, a) && l' == J.Step(loop.o, w.j, a).l
    ensures l'.watchers.Keys == w.j.l.watchers.Keys && LogsFollow(w.j.l, l'.d)
    ensures forall k :: k in w.j.l.watchers && k in l'.watchers ==>
              l'.watchers[k] == w.j.l.watchers[k] || Follows(w.j.l.watchers[k], l'.watchers[k])
  {
    if a.Proceeds? && J.MayAct(a) {
      FreeStepFollows(loop.o.lib, w.j.l, a.b, l');
    } else {
      SameSendsFollow(w.j.l, l'.d);
    }
  }

  lemma GoesTraced(loop: Loop, w: World, w': World)
    requires Traced(loop, w) && w'.checked == w.checked && w'.signed == w.signed && TablesKept(w.j.l.d, w'.j.l.d)
    requires w'.j.l.watchers.Keys == w.j.l.watchers.Keys && LogsFollow(w.j.l, w'.j.l.d)
    requires forall k :: k in w.j.l.watchers && k in w'.j.l.watchers ==>
               w'.j.l.watchers[k] == w.j.l.watchers[k] || Follows(w.j.l.watchers[k], w'.j.l.watchers[k])
    ensures Traced(loop, w')
  {
    assert forall k :: k in w'.j.l.watchers.Keys <==> k in w.j.l.watchers.Keys;
    forall k | k in w'.j.l.watchers ensures WatcherTraced(loop, w', k) {
      assert WatcherTraced(loop, w, k);
      TraceGoesOn(loop, w, w', k);
    }
    SendsTraced(loop, w, w');
  }

  /** Only watcher k and its records are new. */
  ghost predicate OnlyChanges(w: World, w': World, k: nat, v': L.Watcher) {
    && w'.j.l == L.WithWatcher(w.j.l, k, (w.j.l.d, v'))
    && (forall j :: j != k ==> (j in w'.checked <==> j in w.checked) && (j in w'.signed <==> j in w.signed))
    && (forall j :: j != k && j in w.checked ==> w'.checked[j] == w.checked[j])
    && (forall j :: j != k && j in w.signed ==> w'.signed[j] == w.signed[j])
  }

  lemma OthersTraced(loop: Loop, w: World, w': World, k: nat, v': L.Watcher)
    requires WatchersTraced(loop, w) && OnlyChanges(w, w', k, v') && WatcherTraced(loop, w', k)
    ensures WatchersTraced(loop, w')
  {
    forall j | j in w'.j.l.watchers ensures WatcherTraced(loop, w', j) {
      if j != k {
        assert WatcherTraced(loop, w, j);
        TraceGoesOn(loop, w, w', j);
      }
    }
  }

  lemma RecordsStay(w: World, w': World, k: nat, v': L.Watcher)
    requires RecordsOfWatchers(w) && OnlyChanges(w, w', k, v')
    requires w'.checked.Keys <= w.checked.Keys + {k} && w'.signed.Keys <= w.signed.Keys + {k}
    ensures RecordsOfWatchers(w')
  {
    assert w'.j.l.watchers.Keys == w.j.l.watchers.Keys + {k};
  }

  lemma SendsStaySigned(loop: Loop, w: World, w': World, k: nat, v': L.Watcher)
    requires WatchersTraced(loop, w) && SendsAreSigned(loop, w) && OnlyChanges(w, w', k, v') && k !in w.signed
    requires k in w.j.l.watchers ==> w.j.l.watchers[k].candidate == v'.candidate
    ensures SendsAreSigned(loop, w')
  {
    SameSendsFollow(w.j.l, w'.j.l.d);
    SendsTraced(loop, w, w');
  }

  lemma OneWatcherTraced(loop: Loop, w: World, w': World, k: nat, v': L.Watcher)
    requires Traced(loop, w) && OnlyChanges(w, w', k, v') && WatcherTraced(loop, w', k) && k !in w.signed
    requires k in w.j.l.watchers ==> w.j.l.watchers[k].candidate == v'.candidate
    requires w'.checked.Keys <= w.checked.Keys + {k} && w'.signed.Keys <= w.signed.Keys + {k}
    ensures Traced(loop, w')
  {
    OthersTraced(loop, w, w', k, v');
    RecordsStay(w, w', k, v');
    SendsStaySigned(loop, w, w', k, v');
  }

  lemma CheckStarts(loop: Loop, d: L.Data, id: string, s: Reading, c: Checked)
    requires ChecksItsOwn(loop) && id in d.rows && id in d.rules && d.rows[id].terms.intentId == id
    requires loop.check(d.rows[id].terms, d.rules[id].rule, s) == Some(c)
    ensures L.MayStart(d, c.candidate) && IsChecked(loop, d, L.Watcher(c.candidate, X.AtLease, 0), c)
  {
  }

  lemma InspectsStep(loop: Loop, w: World, k: nat, id: string, s: Reading, c: Checked, w': World)
    requires k !in w.j.l.watchers && CheckNow(loop, w, id, s) == Some(c) && L.MayStart(w.j.l.d, c.candidate)
    requires w' == Step(loop, w, Inspects(k, id, s))
    ensures w'.j.l == L.WithWatcher(w.j.l, k, (w.j.l.d, L.Watcher(c.candidate, X.AtLease, 0)))
    ensures w'.checked == w.checked[k := c] && w'.signed == w.signed
  {
  }

  lemma InspectedIsTraced(loop: Loop, w: World, k: nat, c: Checked, v': L.Watcher, w': World)
    requires RecordsOfWatchers(w) && k !in w.j.l.watchers && v' == L.Watcher(c.candidate, X.AtLease, 0)
    requires w'.j.l == L.WithWatcher(w.j.l, k, (w.j.l.d, v'))
    requires w'.checked == w.checked[k := c] && w'.signed == w.signed && IsChecked(loop, w.j.l.d, v', c)
    ensures WatcherTraced(loop, w', k) && OnlyChanges(w, w', k, v') && k !in w.signed
  {
    assert k !in w.signed.Keys;
  }

  /** A passed check starts a watcher that is traced from its first state on. */
  lemma InspectsTraced(loop: Loop, w: World, k: nat, id: string, s: Reading, c: Checked, w': World)
    requires ChecksItsOwn(loop)
    requires Traced(loop, w) && k !in w.j.l.watchers && CheckNow(loop, w, id, s) == Some(c)
    requires w.j.l.d.rows[id].terms.intentId == id && w' == Step(loop, w, Inspects(k, id, s))
    ensures Traced(loop, w')
  {
    var v' := L.Watcher(c.candidate, X.AtLease, 0);
    CheckStarts(loop, w.j.l.d, id, s, c);
    InspectsStep(loop, w, k, id, s, c, w');
    InspectedIsTraced(loop, w, k, c, v', w');
    OneWatcherTraced(loop, w, w', k, v');
  }

  lemma ReviewsStep(loop: Loop, w: World, k: nat, outside: ReviewOutside, error: Submission.ErrorClass,
                    input: L.WatcherInput, review: X.ReviewResult, w': World)
    requires AtReview(w, k) && k in w.checked && review == ReviewResultOf(loop, w.checked[k].plan, outside, error)
    requires w' == Step(loop, w, Reviews(k, outside, error, input))
    ensures w'.j.l == L.WithWatcher(w.j.l, k, (w.j.l.d, w.j.l.watchers[k].(pc := X.AfterReview(review))))
    ensures w'.checked == w.checked
    ensures review.Err? ==> w'.signed == w.signed
    ensures review.Ok? ==> exists s :: IsSigned(loop, w.checked[k], s) && w'.signed == w.signed[k := s]
                                       && review.value == PayloadOf(loop, s.reviewed)
  {
    var signs := loop.sign(w.checked[k].plan, outside);
    if signs.Some? {
      assert IsSigned(loop, w.checked[k], Signing(outside, signs.value));
    }
  }

  lemma ReviewedIsTraced(loop: Loop, w: World, k: nat, review: X.ReviewResult, v': L.Watcher, w': World)
    requires AtReview(w, k) && WatcherTraced(loop, w, k) && w'.checked == w.checked
    requires v' == w.j.l.watchers[k].(pc := X.AfterReview(review))
    requires w'.j.l == L.WithWatcher(w.j.l, k, (w.j.l.d, v'))
    requires review.Err? ==> w'.signed == w.signed
    requires review.Ok? ==> exists s :: IsSigned(loop, w.checked[k], s) && w'.signed == w.signed[k := s]
                                        && review.value == PayloadOf(loop, s.reviewed)
    ensures WatcherTraced(loop, w', k) && OnlyChanges(w, w', k, v') && k !in w.signed
    ensures w'.signed.Keys <= w.signed.Keys + {k}
  {
    CheckStays(loop, w.j.l.d, w'.j.l.d, w.j.l.watchers[k], v', w.checked[k]);
  }

  /** A review leaves its watcher at the submission of what it signed, or on the way to
      releasing the lease. */
  lemma ReviewsTraced(loop: Loop, w: World, k: nat, review: X.ReviewResult, w': World)
    requires Traced(loop, w) && AtReview(w, k) && k in w.checked && w'.checked == w.checked
    requires w'.j.l == L.WithWatcher(w.j.l, k, (w.j.l.d, w.j.l.watchers[k].(pc := X.AfterReview(review))))
    requires review.Err? ==> w'.signed == w.signed
    requires review.Ok? ==> exists s :: IsSigned(loop, w.checked[k], s) && w'.signed == w.signed[k := s]
                                        && review.value == PayloadOf(loop, s.reviewed)
    ensures Traced(loop, w')
  {
    var v' := w.j.l.watchers[k].(pc := X.AfterReview(review));
    assert WatcherTraced(loop, w, k);
    ReviewedIsTraced(loop, w, k, review, v', w');
    OneWatcherTraced(loop, w, w', k, v');
  }

  // ---- Runs ------------------------------------------------------------------------------------------

  /** The tables of a run, as the two invariants of its joint run know them. */
  lemma RunTables(loop: Loop, actions: seq<Action>, id: string)
    requires id in Run(loop, actions).j.l.d.rows
    ensures Run(loop, actions).j.l.d.rows[id].terms.intentId == id
  {
    RunsAreJoint(loop, actions);
    var js := JointRun(loop, actions);
    J.JointRunsProject(loop.o, js);
    F.InvariantHolds(loop.o, J.FinalizeRun(loop.o, js));
  }

  lemma StepKeepsTables(loop: Loop, actions: seq<Action>, a: J.Action)
    ensures TablesKept(Run(loop, actions).j.l.d, J.Step(loop.o, Run(loop, actions).j, a).l.d)
  {
    RunsAreJoint(loop, actions);
    var js := JointRun(loop, actions);
    JointRunGoesOn(loop, js, a);
    J.JointRunsProject(loop.o, js);
    J.JointRunsProject(loop.o, js + [a]);
    E.JointKeeps(loop.o, js, [a]);
  }

  lemma GoesKeepsTrace(loop: Loop, actions: seq<Action>, a: J.Action)
    requires Traced(loop, Run(loop, actions))
    ensures Traced(loop, Step(loop, Run(loop, actions), Goes(a)))
  {
    var w := Run(loop, actions);
    var w' := Step(loop, w, Goes(a));
    if Free(w, a) {
      StepKeepsTables(loop, actions, a);
      FreeJointStep(loop, w, a, w'.j.l);
      GoesTraced(loop, w, w');
    }
  }

  lemma InspectsKeepsTrace(loop: Loop, actions: seq<Action>, k: nat, id: string, s: Reading, w: World, w': World)
    requires ChecksItsOwn(loop)
    requires w == Run(loop, actions) && Traced(loop, w) && w' == Step(loop, w, Inspects(k, id, s))
    ensures Traced(loop, w')
  {
    var c := CheckNow(loop, w, id, s);
    if k !in w.j.l.watchers && c.Some? {
      RunTables(loop, actions, id);
      InspectsTraced(loop, w, k, id, s, c.value, w');
    } else {
      assert w' == w;
    }
  }

  lemma ReviewsKeepsTrace(loop: Loop, w: World, k: nat, outside: ReviewOutside, error: Submission.ErrorClass,
                          input: L.WatcherInput, w': World)
    requires Traced(loop, w) && w' == Step(loop, w, Reviews(k, outside, error, input))
    ensures Traced(loop, w')
  {
    if AtReview(w, k) {
      assert WatcherTraced(loop, w, k);
      var review := ReviewResultOf(loop, w.checked[k].plan, outside, error);
      ReviewsStep(loop, w, k, outside, error, input, review, w');
      ReviewsTraced(loop, w, k, review, w');
    } else {
      assert w' == w;
    }
  }

  lemma {:induction false} RunsTraced(loop: Loop, actions: seq<Action>)
    requires ChecksItsOwn(loop)
    ensures Traced(loop, Run(loop, actions))
  {
    if actions == [] {
      assert forall id :: L.EMPTY.d.Log(id) == [];
    } else {
      var n := |actions| - 1;
      RunsTraced(loop, actions[..n]);
      match actions[n]
      case Goes(a) => GoesKeepsTrace(loop, actions[..n], a);
      case Inspects(k, id, s) => InspectsKeepsTrace(loop, actions[..n], k, id, s, Run(loop, actions[..n]), Run(loop, actions));
      case Reviews(k, outside, error, input) =>
        ReviewsKeepsTrace(loop, Run(loop, actions[..n]), k, outside, error, input, Run(loop, actions));
    }
  }

  // ---- What every run guarantees ----------------------------------------------------------------------

  lemma SentOnce(loop: Loop, actions: seq<Action>, id: string)
    ensures |Run(loop, actions).j.l.d.Log(id)| <= 1
  {
    RunsAreJoint(loop, actions);
    var js := JointRun(loop, actions);
    J.JointRunsProject(loop.o, js);
    LS.AtMostOneSend(loop.o.lib, J.LifecycleRun(loop.o, js), id);
  }

  lemma TracedSend(loop: Loop, w: World, id: string)
    requires Traced(loop, w) && |w.j.l.d.Log(id)| == 1
    ensures exists k: nat :: SentBy(loop, w, k, id)
  {
    var signature := w.j.l.d.Log(id)[0];
    assert signature in w.j.l.d.Log(id);
    var k: nat :| SignedFor(loop, w, k, id, signature);
    SignerSent(loop, w, k, id, signature);
  }

  lemma SignerSent(loop: Loop, w: World, k: nat, id: string, signature: string)
    requires SignedFor(loop, w, k, id, signature) && WatchersTraced(loop, w) && w.j.l.d.Log(id) == [signature]
    ensures SentBy(loop, w, k, id)
  {
    assert WatcherTraced(loop, w, k);
  }

  /** Whatever is sent for an intent was sent once, by an attempt that was checked
      against the stored row and rule and signed through a review of its plan. */
  lemma SentWasTraced(loop: Loop, actions: seq<Action>, id: string)
    requires ChecksItsOwn(loop) && Run(loop, actions).j.l.d.Log(id) != []
    ensures
      |Run(loop, actions).j.l.d.Log(id)| == 1 && exists k: nat :: SentBy(loop, Run(loop, actions), k, id)
  {
    RunsTraced(loop, actions);
    SentOnce(loop, actions, id);
    TracedSend(loop, Run(loop, actions), id);
  }

  /** Watcher k's check and review lead to what was sent for this intent. */
  ghost predicate SentBy(loop: Loop, w: World, k: nat, id: string) {
    && k in w.j.l.watchers && k in w.checked && k in w.signed && id in w.j.l.d.rows && id in w.j.l.d.rules
    && w.j.l.watchers[k].candidate.intentId == id
    && IsChecked(loop, w.j.l.d, w.j.l.watchers[k], w.checked[k]) && IsSigned(loop, w.checked[k], w.signed[k])
    && w.j.l.d.Log(id) == [loop.signatureText(w.signed[k].reviewed.signature)]
  }
}
