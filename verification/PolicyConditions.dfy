// What the conditions of the policy engine mean, in terms of the transaction, the
// simulation and the calendar instead of the engine's own scans and sums.
module PolicyConditions {
  import opened Prelude
  import opened Policy

  /** Only an approving rule approves, only a rejecting one rejects, and every verdict names
      the rule that gave it. */
  lemma VerdictsFollowActions(rule: Rule)
    ensures ActionVerdict(rule).Approved? <==> rule.action == Approve
    ensures ActionVerdict(rule).Rejected? <==> rule.action == Reject
    ensures ActionVerdict(rule).RequiresHumanApproval? <==> rule.action in {RequireHumanApproval, RequireApprovalChain}
    ensures !ActionVerdict(rule).SimulationFailed? && ActionVerdict(rule).rule == rule.name
  {
  }

  // ---- Lists ---------------------------------------------------------------------------

  function Programs(ixs: seq<InstructionSummary>): set<string> {
    set i | 0 <= i < |ixs| :: ixs[i].programId
  }

  function Touched(ixs: seq<InstructionSummary>): set<string> {
    set i, j | 0 <= i < |ixs| && 0 <= j < |ixs[i].accounts| :: ixs[i].accounts[j]
  }

  function MovedMints(ixs: seq<InstructionSummary>): set<string> {
    set i | 0 <= i < |ixs| && ixs[i].tokenTransfer.Some? :: ixs[i].tokenTransfer.value.mint
  }

  function Members(s: seq<string>): set<string> {
    set i | 0 <= i < |s| :: s[i]
  }

  lemma MembersIff(s: seq<string>, t: string)
    ensures t in Members(s) <==> t in s
  {
  }

  /** Allowlists, if they are not empty, must cover what is used; the denylist must not be
      touched. */
  lemma ListConditions(p: PolicySet, rule: Rule, ctx: Context)
    ensures
      rule.condition.ProgramNotInAllowlist? ==>
        (Matches(p, rule, ctx) <==>
           p.programAllowlist != [] && !(Programs(ctx.instructions) <= Members(p.programAllowlist)))
    ensures
      rule.condition.MintNotInAllowlist? ==>
        (Matches(p, rule, ctx) <==>
           rule.condition.allowedMints != [] && !(MovedMints(ctx.instructions) <= Members(rule.condition.allowedMints)))
    ensures
      rule.condition.DestinationInDenylist? ==>
        (Matches(p, rule, ctx) <==> Touched(ctx.instructions) * Members(p.destinationDenylist) != {})
    ensures rule.condition.NetworkIn? ==> (Matches(p, rule, ctx) <==> {ctx.network} <= rule.condition.networks)
  {
    match rule.condition
    case ProgramNotInAllowlist => ProgramsCovered(p, rule, ctx);
    case MintNotInAllowlist(allowed) => MintsCovered(p, rule, ctx);
    case DestinationInDenylist => DenylistTouched(p, rule, ctx);
    case _ =>
  }

  lemma ProgramsCovered(p: PolicySet, rule: Rule, ctx: Context)
    requires rule.condition.ProgramNotInAllowlist?
    ensures Matches(p, rule, ctx) <==>
              p.programAllowlist != [] && !(Programs(ctx.instructions) <= Members(p.programAllowlist))
  {
    var ixs := ctx.instructions;
    forall t ensures t in Members(p.programAllowlist) <==> t in p.programAllowlist {
      MembersIff(p.programAllowlist, t);
    }
    if i :| 0 <= i < |ixs| && ixs[i].programId !in p.programAllowlist {
      assert ixs[i].programId in Programs(ixs);
    }
  }

  lemma MintsCovered(p: PolicySet, rule: Rule, ctx: Context)
    requires rule.condition.MintNotInAllowlist?
    ensures Matches(p, rule, ctx) <==>
              rule.condition.allowedMints != []
              && !(MovedMints(ctx.instructions) <= Members(rule.condition.allowedMints))
  {
    var ixs, allowed := ctx.instructions, rule.condition.allowedMints;
    forall t ensures t in Members(allowed) <==> t in allowed {
      MembersIff(allowed, t);
    }
    if i :| 0 <= i < |ixs| && ixs[i].tokenTransfer.Some? && ixs[i].tokenTransfer.value.mint !in allowed {
      assert ixs[i].tokenTransfer.value.mint in MovedMints(ixs);
    }
  }

  lemma DenylistTouched(p: PolicySet, rule: Rule, ctx: Context)
    requires rule.condition.DestinationInDenylist?
    ensures Matches(p, rule, ctx) <==> Touched(ctx.instructions) * Members(p.destinationDenylist) != {}
  {
    var ixs, both := ctx.instructions, Touched(ctx.instructions) * Members(p.destinationDenylist);
    if i, j :| 0 <= i < |ixs| && 0 <= j < |ixs[i].accounts| && ixs[i].accounts[j] in p.destinationDenylist {
      MembersIff(p.destinationDenylist, ixs[i].accounts[j]);
      assert ixs[i].accounts[j] in both;
    }
    if both != {} {
      var t :| t in both;
      MembersIff(p.destinationDenylist, t);
    }
  }

  // ---- Amounts ---------------------------------------------------------------------------

  /** What the transfers listed in the instructions come to, exactly. */
  function LamportTotal(ixs: seq<InstructionSummary>): nat {
    if ixs == [] then 0
    else
      var last := ixs[|ixs| - 1].transferLamports;
      LamportTotal(ixs[..|ixs| - 1]) + if last.Some? then last.value else 0
  }

  predicate ListsTransfer(ixs: seq<InstructionSummary>) {
    exists i :: 0 <= i < |ixs| && ixs[i].transferLamports.Some?
  }

  lemma {:induction false} AmountsSnoc(ixs: seq<InstructionSummary>, ix: InstructionSummary)
    ensures
      LamportAmounts(ixs + [ix])
      == LamportAmounts(ixs) + if ix.transferLamports.Some? then [ix.transferLamports.value] else []
  {
    if ixs == [] {
      assert ixs + [ix] == [ix] && [ix][1..] == [];
    } else {
      AmountsSnoc(ixs[1..], ix);
      assert (ixs + [ix])[1..] == ixs[1..] + [ix];
    }
  }

  lemma {:induction false} SumSnoc(amounts: seq<u64>, amount: u64)
    ensures ExactSum(amounts + [amount]) == ExactSum(amounts) + amount
  {
    if amounts == [] {
      assert amounts + [amount] == [amount] && [amount][1..] == [];
    } else {
      SumSnoc(amounts[1..], amount);
      assert (amounts + [amount])[1..] == amounts[1..] + [amount];
    }
  }

  lemma {:induction false} AmountsMean(ixs: seq<InstructionSummary>)
    ensures LamportAmounts(ixs) != [] <==> ListsTransfer(ixs)
    ensures ExactSum(LamportAmounts(ixs)) == LamportTotal(ixs)
  {
    if ixs != [] {
      var n := |ixs| - 1;
      var before, last := ixs[..n], ixs[n];
      AmountsMean(before);
      AmountsSnoc(before, last);
      assert before + [last] == ixs;
      if last.transferLamports.Some? {
        SumSnoc(LamportAmounts(before), last.transferLamports.value);
        assert ListsTransfer(ixs);
      } else {
        assert LamportAmounts(ixs) == LamportAmounts(before);
        assert forall i :: 0 <= i < n ==> before[i] == ixs[i];
        if ListsTransfer(before) {
          var i :| 0 <= i < n && before[i].transferLamports.Some?;
          assert ixs[i].transferLamports.Some?;
        }
      }
    }
  }

  /** The first entry of an account among the simulated differences. */
  predicate IsDiffOf(diffs: seq<AccountDiff>, pubkey: string, i: nat) {
    i < |diffs| && diffs[i].pubkey == pubkey && forall j :: 0 <= j < i ==> diffs[j].pubkey != pubkey
  }

  lemma {:induction false} FindsDiff(diffs: seq<AccountDiff>, pubkey: string, i: nat)
    requires IsDiffOf(diffs, pubkey, i)
    ensures FindDiff(diffs, pubkey) == Some(diffs[i])
  {
    if i > 0 {
      assert forall j :: 0 <= j < i ==> diffs[1..][j] == diffs[j + 1];
      FindsDiff(diffs[1..], pubkey, i - 1);
    }
  }

  lemma {:induction false} FindsNoDiff(diffs: seq<AccountDiff>, pubkey: string)
    requires forall i :: 0 <= i < |diffs| ==> diffs[i].pubkey != pubkey
    ensures FindDiff(diffs, pubkey).None?
  {
    if diffs != [] {
      FindsNoDiff(diffs[1..], pubkey);
    }
  }

  /** Listed transfers are judged by their exact total, however large. */
  lemma ListedAmountMatches(p: PolicySet, rule: Rule, ctx: Context)
    requires rule.condition.AmountExceedsLamports? && ListsTransfer(ctx.instructions)
    ensures Matches(p, rule, ctx) <==> LamportTotal(ctx.instructions) >= rule.condition.thresholdLamports
  {
    AmountsMean(ctx.instructions);
    SaturationIsFaithful(LamportAmounts(ctx.instructions), 0, rule.condition.thresholdLamports);
  }

  /** Without listed transfers the wallet's simulated loss is judged, the fee apart: at least
      the threshold besides the fee, or any loss at all if the threshold is zero. */
  lemma SpentAmountMatches(p: PolicySet, rule: Rule, ctx: Context, i: nat)
    requires rule.condition.AmountExceedsLamports? && !ListsTransfer(ctx.instructions)
    requires ctx.simulation.Some? && IsDiffOf(ctx.simulation.value.accountDiffs, ctx.walletPubkey, i)
    ensures
      var s, diff := ctx.simulation.value, ctx.simulation.value.accountDiffs[i];
      var fee := if s.feeLamports.Some? then s.feeLamports.value else 0;
      Matches(p, rule, ctx) <==>
        && diff.lamportsBefore.Some? && diff.lamportsAfter.Some?
        && diff.lamportsBefore.value >= diff.lamportsAfter.value
        && (rule.condition.thresholdLamports == 0
            || diff.lamportsBefore.value >= diff.lamportsAfter.value + fee + rule.condition.thresholdLamports)
  {
    AmountsMean(ctx.instructions);
    FindsDiff(ctx.simulation.value.accountDiffs, ctx.walletPubkey, i);
  }

  /** With neither, no amount is exceeded. */
  lemma NoAmountNoMatch(p: PolicySet, rule: Rule, ctx: Context)
    requires rule.condition.AmountExceedsLamports? && !ListsTransfer(ctx.instructions)
    requires
      ctx.simulation.Some? ==>
        forall i :: 0 <= i < |ctx.simulation.value.accountDiffs| ==>
          ctx.simulation.value.accountDiffs[i].pubkey != ctx.walletPubkey
    ensures !Matches(p, rule, ctx)
  {
    AmountsMean(ctx.instructions);
    if ctx.simulation.Some? {
      FindsNoDiff(ctx.simulation.value.accountDiffs, ctx.walletPubkey);
    }
  }

  // ---- Hours -------------------------------------------------------------------------------

  /** The weekday of a day counted from the first of January 1970, a Thursday: 1 is Monday,
      7 is Sunday, and days seven apart have the same. */
  predicate IsWeekday(day: int, weekday: nat) {
    1 <= weekday <= 7 && (day + 4 - weekday) % 7 == 0
  }

  /** Going on from the first hour one reaches this one no later than the last. */
  predicate InWindow(hour: nat, first: nat, last: nat) {
    (hour - first) % 24 <= (last - first) % 24
  }

  /** The hours allowed are those of the local day, past midnight if the window wraps, on
      the weekdays allowed. */
  lemma HoursIff(c: Condition, nowSeconds: int, day: int, hour: nat, rest: nat, weekday: nat)
    requires c.OutsideAllowedHours? && c.startHour < 24 && c.endHour < 24 && -24 < c.utcOffsetHours < 24
    requires hour < 24 && rest < 3600 && nowSeconds + c.utcOffsetHours * 3600 == (day * 24 + hour) * 3600 + rest
    requires IsWeekday(day, weekday)
    ensures
      OutsideHours(c, nowSeconds) <==>
        (c.allowedDays != [] && weekday !in c.allowedDays) || !InWindow(hour, c.startHour, c.endHour)
  {
    var local := nowSeconds + c.utcOffsetHours * 3600;
    assert local == day * 86400 + (hour * 3600 + rest);
    DayAndHour(local, day, hour, rest);
    assert (day + 3) % 7 + 1 == weekday;
  }

  lemma DayAndHour(local: int, day: int, hour: nat, rest: nat)
    requires hour < 24 && rest < 3600 && local == day * 86400 + (hour * 3600 + rest)
    ensures local / 86400 == day && local % 86400 / 3600 == hour
  {
    assert local % 86400 == hour * 3600 + rest;
  }

  /** An offset of a day or more is taken as none. */
  lemma FarOffsetIsUtc(c: Condition, nowSeconds: int)
    requires c.OutsideAllowedHours? && !(-24 < c.utcOffsetHours < 24)
    ensures OutsideHours(c, nowSeconds) <==> OutsideHours(c.(utcOffsetHours := 0), nowSeconds)
  {
  }
}
