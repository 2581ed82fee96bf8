// Attempts in the system with checks and reviews: from any run, a reserved row whose check
// passes and whose review signs is executed.
module WatchProgress {
  import opened Prelude
  import opened WatchRules
  import opened StateStore
  import opened WatchRuns
  import opened WalletReview
  import Submission
  import X = Execution
  import L = Lifecycle
  import LP = Progress
  import J = JointRuns

  /** Watcher k stands here, with this check on record. */
  ghost predicate WatcherAt(w: World, k: nat, at: (L.Data, L.Watcher), c: Checked) {
    && k in w.j.l.watchers && (w.j.l.d, w.j.l.watchers[k]) == at && k in w.checked && w.checked[k] == c
  }

  lemma RunNext(loop: Loop, before: seq<Action>, a: Action)
    ensures Run(loop, before + [a]) == Step(loop, Run(loop, before), a)
  {
    assert (before + [a])[..|before|] == before;
  }

  lemma CheckStartsAttempt(loop: Loop, before: seq<Action>, k: nat, id: string, s: Reading, c: Checked, w: World)
    requires w == Run(loop, before) && k !in w.j.l.watchers
    requires CheckNow(loop, w, id, s) == Some(c) && L.MayStart(w.j.l.d, c.candidate)
    ensures
      WatcherAt(Run(loop, before + [Inspects(k, id, s)]), k, (w.j.l.d, L.Watcher(c.candidate, X.AtLease, 0)), c)
  {
    RunNext(loop, before, Inspects(k, id, s));
    InspectsStep(loop, w, k, id, s, c, Run(loop, before + [Inspects(k, id, s)]));
  }

  function Steps(k: nat, i: L.WatcherInput): Action {
    Goes(J.Proceeds(L.WatcherSteps(k, i)))
  }

  lemma FreeStep(loop: Loop, w: World, k: nat, i: L.WatcherInput, at: (L.Data, L.Watcher), c: Checked, w': World)
    requires WatcherAt(w, k, at, c) && !at.1.pc.AtReview? && w' == Step(loop, w, Steps(k, i))
    ensures WatcherAt(w', k, L.WatcherMove(at.0, at.1, i), c)
  {
  }

  lemma ReviewStep(loop: Loop, w: World, k: nat, outside: ReviewOutside, error: Submission.ErrorClass,
                   i: L.WatcherInput, at: (L.Data, L.Watcher), c: Checked, w': World)
    requires WatcherAt(w, k, at, c) && at.1.pc.AtReview? && w' == Step(loop, w, Reviews(k, outside, error, i))
    requires i.review == ReviewResultOf(loop, c.plan, outside, error)
    ensures WatcherAt(w', k, L.WatcherMove(at.0, at.1, i), c)
  {
    assert i.(review := i.review) == i;
  }

  /** Everything that one attempt meets: its check, its review, and its network. */
  datatype Attempt = Attempt(k: nat, id: string, reading: Reading, checked: Checked, outside: ReviewOutside,
                             error: Submission.ErrorClass, nowMs: i64, payload: X.Payload, slot: u64)

  function InputOf(a: Attempt): L.WatcherInput {
    LP.Works(a.nowMs, a.payload, a.slot)
  }

  /** The review comes second, after the lease. */
  function MoveOf(a: Attempt, n: nat): Action {
    if n == 1 then Reviews(a.k, a.outside, a.error, InputOf(a)) else Steps(a.k, InputOf(a))
  }

  function Moves(a: Attempt, n: nat): (actions: seq<Action>)
    ensures |actions| == n
  {
    if n == 0 then [] else Moves(a, n - 1) + [MoveOf(a, n - 1)]
  }

  function Attempts(a: Attempt): seq<Action> {
    [Inspects(a.k, a.id, a.reading)] + Moves(a, 6)
  }

  /** The check passes now, the row can be leased, and the review signs this payload. */
  ghost predicate CanSucceed(loop: Loop, w: World, a: Attempt) {
    && a.k !in w.j.l.watchers && CheckNow(loop, w, a.id, a.reading) == Some(a.checked)
    && L.MayStart(w.j.l.d, a.checked.candidate) && LP.CanBeLeased(w.j.l.d, a.checked.candidate, a.nowMs)
    && ReviewResultOf(loop, a.checked.plan, a.outside, a.error) == Ok(a.payload)
  }

  /** Where the attempt stands after its check and n moves. */
  function StandsAt(d: L.Data, a: Attempt, n: nat): (L.Data, L.Watcher) {
    LP.WatcherAlone(d, L.Watcher(a.checked.candidate, X.AtLease, 0), LP.Copies(InputOf(a), n))
  }

  lemma StandsNext(d: L.Data, a: Attempt, n: nat)
    requires LP.CanBeLeased(d, a.checked.candidate, a.nowMs) && n < 6
    ensures StandsAt(d, a, n).1.pc.AtReview? <==> n == 1
    ensures StandsAt(d, a, n + 1) == L.WatcherMove(StandsAt(d, a, n).0, StandsAt(d, a, n).1, InputOf(a))
  {
    LP.AttemptStands(d, a.checked.candidate, InputOf(a), a.nowMs, a.payload, a.slot, n);
    LP.AloneAgain(d, L.Watcher(a.checked.candidate, X.AtLease, 0), InputOf(a), n, StandsAt(d, a, n));
  }

  lemma MovesOnce(loop: Loop, w: World, a: Attempt, n: nat, at: (L.Data, L.Watcher), w': World)
    requires WatcherAt(w, a.k, at, a.checked) && (at.1.pc.AtReview? <==> n == 1)
    requires ReviewResultOf(loop, a.checked.plan, a.outside, a.error) == Ok(a.payload)
    requires w' == Step(loop, w, MoveOf(a, n))
    ensures WatcherAt(w', a.k, L.WatcherMove(at.0, at.1, InputOf(a)), a.checked)
  {
    if n == 1 {
      ReviewStep(loop, w, a.k, a.outside, a.error, InputOf(a), at, a.checked, w');
    } else {
      FreeStep(loop, w, a.k, InputOf(a), at, a.checked, w');
    }
  }

  lemma OneMove(loop: Loop, so: seq<Action>, a: Attempt, n: nat, d: L.Data)
    requires WatcherAt(Run(loop, so), a.k, StandsAt(d, a, n), a.checked) && n < 6
    requires LP.CanBeLeased(d, a.checked.candidate, a.nowMs)
    requires ReviewResultOf(loop, a.checked.plan, a.outside, a.error) == Ok(a.payload)
    ensures WatcherAt(Run(loop, so + [MoveOf(a, n)]), a.k, StandsAt(d, a, n + 1), a.checked)
  {
    StandsNext(d, a, n);
    RunNext(loop, so, MoveOf(a, n));
    MovesOnce(loop, Run(loop, so), a, n, StandsAt(d, a, n), Run(loop, so + [MoveOf(a, n)]));
  }

  /** What each move keeps up holds after all of them. */
  lemma {:induction false} Chained(a: Attempt, start: seq<Action>, n: nat, p: (seq<Action>, nat) -> bool)
    requires p(start, 0) && n <= 6
    requires forall so, m: nat :: m < 6 && p(so, m) ==> p(so + [MoveOf(a, m)], m + 1)
    ensures p(start + Moves(a, n), n)
  {
    if n == 0 {
      assert start + [] == start;
    } else {
      Chained(a, start, n - 1, p);
      assert start + Moves(a, n) == start + Moves(a, n - 1) + [MoveOf(a, n - 1)];
    }
  }

  lemma AllMoves(loop: Loop, inspected: seq<Action>, a: Attempt, d: L.Data)
    requires WatcherAt(Run(loop, inspected), a.k, StandsAt(d, a, 0), a.checked)
    requires LP.CanBeLeased(d, a.checked.candidate, a.nowMs)
    requires ReviewResultOf(loop, a.checked.plan, a.outside, a.error) == Ok(a.payload)
    ensures WatcherAt(Run(loop, inspected + Moves(a, 6)), a.k, StandsAt(d, a, 6), a.checked)
  {
    ghost var p: (seq<Action>, nat) -> bool :=
      (so: seq<Action>, n: nat) => WatcherAt(Run(loop, so), a.k, StandsAt(d, a, n), a.checked);
    forall so, m: nat | m < 6 && p(so, m) ensures p(so + [MoveOf(a, m)], m + 1) {
      OneMove(loop, so, a, m, d);
    }
    Chained(a, inspected, 6, p);
  }

  /** A reserved row whose check passes and whose review signs can be executed: row and rule
      are completed, and its one signature has landed. */
  lemma CheckedRowCanBeExecuted(loop: Loop, before: seq<Action>, a: Attempt, w: World, w': World)
    requires w == Run(loop, before) && CanSucceed(loop, w, a) && w' == Run(loop, before + Attempts(a))
    ensures w'.j.l.d == LP.ExecutedData(w.j.l.d, a.checked.candidate, a.payload.signature, a.slot)
  {
    CheckStartsAttempt(loop, before, a.k, a.id, a.reading, a.checked, w);
    AttemptsSpelled(before, a);
    InspectedIsExecuted(loop, before + [Inspects(a.k, a.id, a.reading)], a, w.j.l.d);
  }

  lemma AttemptsSpelled(before: seq<Action>, a: Attempt)
    ensures before + Attempts(a) == before + [Inspects(a.k, a.id, a.reading)] + Moves(a, 6)
  {
  }

  lemma InspectedIsExecuted(loop: Loop, inspected: seq<Action>, a: Attempt, d: L.Data)
    requires LP.CanBeLeased(d, a.checked.candidate, a.nowMs)
    requires WatcherAt(Run(loop, inspected), a.k, (d, L.Watcher(a.checked.candidate, X.AtLease, 0)), a.checked)
    requires ReviewResultOf(loop, a.checked.plan, a.outside, a.error) == Ok(a.payload)
    ensures
      Run(loop, inspected + Moves(a, 6)).j.l.d
      == LP.ExecutedData(d, a.checked.candidate, a.payload.signature, a.slot)
  {
    AllMoves(loop, inspected, a, d);
    LP.AttemptCompletes(d, a.checked.candidate, InputOf(a), a.nowMs, a.payload, a.slot);
  }
}
