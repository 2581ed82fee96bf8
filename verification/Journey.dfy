// The whole way of an intent, in the system with its checks and reviews: from any run, a
// new draft can be finalized, its row funded, and the funded row executed.
module Journey {
  import opened Prelude
  import opened WatchRules
  import opened StateStore
  import opened ConfirmFunding
  import opened WatchRuns
  import Finalize
  import X = Execution
  import L = Lifecycle
  import LP = Progress
  import J = JointRuns
  import JP = JointProgress
  import WP = WatchProgress

  // ---- Joint actions that need no guard ----------------------------------------------------

  function Freely(js: seq<J.Action>): (actions: seq<Action>)
    ensures |actions| == |js|
  {
    if js == [] then [] else Freely(js[..|js| - 1]) + [Goes(js[|js| - 1])]
  }

  lemma LastOf(before: seq<Action>, s: seq<Action>, a: Action)
    ensures (before + (s + [a]))[..|before + (s + [a])| - 1] == before + s
    ensures (before + (s + [a]))[|before + (s + [a])| - 1] == a
  {
  }

  lemma GoesOnce(loop: Loop, before: seq<Action>, s: seq<Action>, a: J.Action)
    requires JP.Unwatched(a)
    ensures JointRun(loop, before + (s + [Goes(a)])) == JointRun(loop, before + s) + [a]
  {
    LastOf(before, s, Goes(a));
  }

  lemma {:induction false} FreelyGoes(loop: Loop, before: seq<Action>, js: seq<J.Action>)
    requires forall i :: 0 <= i < |js| ==> JP.Unwatched(js[i])
    ensures JointRun(loop, before + Freely(js)) == JointRun(loop, before) + js
  {
    if js == [] {
      assert before + [] == before;
    } else {
      var n := |js| - 1;
      FreelyGoes(loop, before, js[..n]);
      GoesOnce(loop, before, Freely(js[..n]), js[n]);
      assert JointRun(loop, before) + js == JointRun(loop, before) + js[..n] + [js[n]];
    }
  }

  /** Such actions do here what they do in joint runs. */
  lemma FreeRun(loop: Loop, before: seq<Action>, js: seq<J.Action>)
    requires forall i :: 0 <= i < |js| ==> JP.Unwatched(js[i])
    ensures Run(loop, before).j == J.Run(loop.o, JointRun(loop, before))
    ensures Run(loop, before + Freely(js)).j == J.Run(loop.o, JointRun(loop, before) + js)
  {
    RunsAreJoint(loop, before);
    RunsAreJoint(loop, before + Freely(js));
    FreelyGoes(loop, before, js);
  }

  // ---- From the draft to the completion -----------------------------------------------------

  /** The check passes for the draft's row and rule, before the deadline, and the review of
      its plan signs. */
  ghost predicate IsSignedInTime(loop: Loop, w: J.World, y: JP.Way, a: WP.Attempt)
    requires Finalize.Admit(loop.o, y.r).AtClaim? && y.s.market.snapshot.Some?
  {
    var terms := JP.Terms(loop.o, y);
    && a.k !in w.l.watchers && a.id == terms.intentId
    && loop.check(terms, JP.Rule(loop.o, y), a.reading) == Some(a.checked)
    && ReviewResultOf(loop, a.checked.plan, a.outside, a.error) == Ok(a.payload)
    && a.nowMs < terms.expiresAtMs
  }

  /** The draft's row is reserved after a continuation in which no watcher acts. */
  ghost predicate Reserves(loop: Loop, before: seq<Action>, so: seq<Action>, y: JP.Way)
    requires Finalize.Admit(loop.o, y.r).AtClaim? && y.s.market.snapshot.Some?
  {
    && before <= so && JP.IsReserved(loop.o, Run(loop, so).j, y)
    && Run(loop, so).j.l.watchers == Run(loop, before).j.l.watchers
  }

  /** What joint runs can do, the loop can do. */
  lemma JointContinuation(loop: Loop, before: seq<Action>, js: seq<J.Action>)
    requires JP.GoesOn(JointRun(loop, before), js)
    ensures exists so :: before <= so && Run(loop, so).j == J.Run(loop.o, js)
  {
    var more := js[|JointRun(loop, before)|..];
    FreeRun(loop, before, more);
    assert JointRun(loop, before) + more == js;
    assert before <= before + Freely(more);
  }

  /** The draft's row can be reserved here as in joint runs. */
  lemma DraftCanBeReserved(loop: Loop, before: seq<Action>, y: JP.Way, w: J.World)
    requires w == Run(loop, before).j && JP.StartsWell(loop.o, w, y) && JP.IsPaid(loop.o, w, y)
    ensures exists so :: Reserves(loop, before, so, y)
  {
    RunsAreJoint(loop, before);
    JP.DraftCanBeFunded(loop.o, JointRun(loop, before), y, w);
    var js :| JP.Reserves(loop.o, JointRun(loop, before), js, y);
    JointContinuation(loop, before, js);
    var so :| before <= so && Run(loop, so).j == J.Run(loop.o, js);
    assert Reserves(loop, before, so, y);
  }

  /** A reserved draft's attempt can succeed. */
  lemma ReservedCanSucceed(loop: Loop, w: World, y: JP.Way, a: WP.Attempt)
    requires ChecksItsOwn(loop) && Finalize.Admit(loop.o, y.r).AtClaim? && y.s.market.snapshot.Some?
    requires JP.IsReserved(loop.o, w.j, y) && IsSignedInTime(loop, w.j, y, a)
    ensures WP.CanSucceed(loop, w, a)
    ensures
      var terms := JP.Terms(loop.o, y);
      a.checked.candidate == X.Candidate(terms.intentId, JP.Rule(loop.o, y).ruleId, terms.amountRaw)
  {
  }

  /** The draft was executed: row and rule are completed under its terms, and its signature
      landed. */
  ghost predicate IsCompleted(d: L.Data, t: FundingTerms, signature: string) {
    && t.intentId in d.rows && d.rows[t.intentId].terms == t && d.rows[t.intentId].status == Completed
    && d.rows[t.intentId].executionSignature == Some(signature) && signature in d.landed
    && signature in d.Log(t.intentId)
    && t.intentId in d.rules && d.rules[t.intentId].completed && d.rules[t.intentId].usedAmountRaw == t.amountRaw
  }

  lemma ExecutedIsCompleted(d: L.Data, c: X.Candidate, t: FundingTerms, signature: string, slot: u64)
    requires t.intentId in d.rows && d.rows[t.intentId].terms == t && t.intentId in d.rules
    requires c.intentId == X.RuleKey(c) == t.intentId && c.amountRaw == t.amountRaw
    ensures IsCompleted(LP.ExecutedData(d, c, signature, slot), t, signature)
  {
    var log := d.Log(t.intentId) + [signature];
    assert log[|log| - 1] == signature;
  }

  lemma ReservedIsCompleted(loop: Loop, so: seq<Action>, y: JP.Way, a: WP.Attempt, w: World)
    requires ChecksItsOwn(loop) && Finalize.Admit(loop.o, y.r).AtClaim? && y.s.market.snapshot.Some?
    requires w == Run(loop, so) && JP.IsReserved(loop.o, w.j, y) && IsSignedInTime(loop, w.j, y, a)
    ensures IsCompleted(Run(loop, so + WP.Attempts(a)).j.l.d, JP.Terms(loop.o, y), a.payload.signature)
  {
    ReservedCanSucceed(loop, w, y, a);
    WP.CheckedRowCanBeExecuted(loop, so, a, w, Run(loop, so + WP.Attempts(a)));
    ExecutedIsCompleted(w.j.l.d, a.checked.candidate, JP.Terms(loop.o, y), a.payload.signature, a.slot);
  }

  lemma SignedStays(loop: Loop, w: J.World, w': J.World, y: JP.Way, a: WP.Attempt)
    requires Finalize.Admit(loop.o, y.r).AtClaim? && y.s.market.snapshot.Some?
    requires IsSignedInTime(loop, w, y, a) && w'.l.watchers == w.l.watchers
    ensures IsSignedInTime(loop, w', y, a)
  {
  }

  /** The continuation completes the draft. */
  ghost predicate Completes(loop: Loop, before: seq<Action>, so: seq<Action>, y: JP.Way, a: WP.Attempt)
    requires Finalize.Admit(loop.o, y.r).AtClaim? && y.s.market.snapshot.Some?
  {
    before <= so && IsCompleted(Run(loop, so).j.l.d, JP.Terms(loop.o, y), a.payload.signature)
  }

  lemma ContinuationIsCompleted(loop: Loop, before: seq<Action>, so: seq<Action>, y: JP.Way, a: WP.Attempt, w: J.World)
    requires ChecksItsOwn(loop) && Finalize.Admit(loop.o, y.r).AtClaim? && y.s.market.snapshot.Some?
    requires w == Run(loop, before).j && Reserves(loop, before, so, y) && IsSignedInTime(loop, w, y, a)
    ensures exists all :: Completes(loop, before, all, y, a)
  {
    SignedStays(loop, w, Run(loop, so).j, y, a);
    ReservedIsCompleted(loop, so, y, a, Run(loop, so));
    assert Completes(loop, before, so + WP.Attempts(a), y, a);
  }

  /** From any run of all the tools together, the way leads through: a new draft is finalized,
      funded by a transaction that pays for its quoted terms, checked, reviewed, sent and
      completed, for exactly its amount. */
  lemma DraftCanBeCompleted(loop: Loop, before: seq<Action>, y: JP.Way, a: WP.Attempt, w: J.World)
    requires ChecksItsOwn(loop) && w == Run(loop, before).j && JP.StartsWell(loop.o, w, y)
    requires JP.IsPaid(loop.o, w, y) && IsSignedInTime(loop, w, y, a)
    ensures exists so :: Completes(loop, before, so, y, a)
  {
    DraftCanBeReserved(loop, before, y, w);
    var so :| Reserves(loop, before, so, y);
    ContinuationIsCompleted(loop, before, so, y, a, w);
  }
}
