// The first-match policy engine: rules in declaration order, the first one whose
// condition holds decides, and nothing matching means a human decides.
module Policy {
  import opened Prelude

  datatype Network = MainnetBeta | Devnet | Testnet | Localnet

  datatype TokenTransfer = TokenTransfer(mint: string, amount: u64)

  datatype InstructionSummary = InstructionSummary(
    programId: string,
    accounts: seq<string>,
    transferLamports: Option<u64>,
    tokenTransfer: Option<TokenTransfer>,
    isLegacyTokenTransfer: bool)

  datatype AccountDiff = AccountDiff(pubkey: string, lamportsBefore: Option<u64>, lamportsAfter: Option<u64>)

  datatype Simulation = Simulation(success: bool, feeLamports: Option<u64>, accountDiffs: seq<AccountDiff>)

  datatype Context = Context(
    walletPubkey: string,
    instructions: seq<InstructionSummary>,
    simulation: Option<Simulation>,
    network: Network,
    nowSeconds: int)

  datatype Condition =
    | NetworkIn(networks: set<Network>)
    | ProgramNotInAllowlist
    | DestinationInDenylist
    | AmountExceedsLamports(thresholdLamports: u64)
    | SimulationNotPassed
    | TokenAmountExceeds(mint: string, threshold: u64)
    | MintNotInAllowlist(allowedMints: seq<string>)
    | LegacyTokenTransferPresent
    | OutsideAllowedHours(startHour: u8, endHour: u8, allowedDays: seq<u8>, utcOffsetHours: int)
    | Always

  datatype Action = Approve | RequireHumanApproval | RequireApprovalChain | Reject

  datatype Rule = Rule(name: string, condition: Condition, action: Action)

  datatype PolicySet = PolicySet(rules: seq<Rule>, programAllowlist: seq<string>, destinationDenylist: seq<string>)

  datatype Verdict =
    | Approved(rule: string)
    | RequiresHumanApproval(rule: string)
    | Rejected(rule: string)
    | SimulationFailed

  datatype Evaluation = Evaluation(verdict: Verdict, rulesTotal: nat, rulesEvaluated: nat, matchedIndex: Option<nat>)

  const DEFAULT_RULE := "default-fail-closed"

  // ---- Sums -----------------------------------------------------------------------------

  /** The exact amount moved of one mint. */
  function TokenTotal(instructions: seq<InstructionSummary>, mint: string): nat {
    if instructions == [] then 0
    else
      var t := instructions[0].tokenTransfer;
      (if t.Some? && t.value.mint == mint then t.value.amount else 0) + TokenTotal(instructions[1..], mint)
  }

  /** The sum as the optimized program computes it: 64-bit additions that wrap. */
  function WrappedTotal(instructions: seq<InstructionSummary>, mint: string, acc: u64): u64 {
    if instructions == [] then acc
    else
      var t := instructions[0].tokenTransfer;
      WrappedTotal(instructions[1..], mint,
                   if t.Some? && t.value.mint == mint then (acc + t.value.amount) % TWO_64 else acc)
  }

  lemma {:induction false} WrappedTotalIsModular(instructions: seq<InstructionSummary>, mint: string, acc: u64)
    ensures WrappedTotal(instructions, mint, acc) == (acc + TokenTotal(instructions, mint)) % TWO_64
  {
    if instructions == [] {
      ModSmall(acc);
    } else {
      var t, rest := instructions[0].tokenTransfer, TokenTotal(instructions[1..], mint);
      var moved := if t.Some? && t.value.mint == mint then t.value.amount else 0;
      WrappedTotalIsModular(instructions[1..], mint, (acc + moved) % TWO_64);
      ModAdd(acc + moved, rest);
      ModSmall(acc);
      assert TokenTotal(instructions, mint) == moved + rest;
    }
  }

  lemma ModSmall(a: u64)
    ensures a % TWO_64 == a
  {
  }

  lemma ModAdd(a: nat, b: nat)
    ensures (a % TWO_64 + b) % TWO_64 == (a + b) % TWO_64
  {
    var q := a / TWO_64;
    assert a == q * TWO_64 + a % TWO_64;
    ModShift(a % TWO_64 + b, q);
  }

  lemma {:induction false} ModShift(a: nat, q: nat)
    ensures (a + q * TWO_64) % TWO_64 == a % TWO_64
  {
    if q > 0 {
      ModShift(a, q - 1);
      assert a + q * TWO_64 == (a + (q - 1) * TWO_64) + TWO_64;
    }
  }

  function SaturatingAdd(a: u64, b: u64): u64 {
    if a + b < TWO_64 then a + b else TWO_64 - 1
  }

  function LamportAmounts(instructions: seq<InstructionSummary>): seq<u64> {
    if instructions == [] then []
    else
      (if instructions[0].transferLamports.Some? then [instructions[0].transferLamports.value] else [])
      + LamportAmounts(instructions[1..])
  }

  function SaturatingSum(amounts: seq<u64>, acc: u64): u64 {
    if amounts == [] then acc else SaturatingSum(amounts[1..], SaturatingAdd(acc, amounts[0]))
  }

  function ExactSum(amounts: seq<u64>): nat {
    if amounts == [] then 0 else amounts[0] + ExactSum(amounts[1..])
  }

  /** Saturation never hides a large total from a threshold test. */
  lemma {:induction false} SaturationIsFaithful(amounts: seq<u64>, acc: u64, threshold: u64)
    ensures SaturatingSum(amounts, acc) >= threshold <==> acc + ExactSum(amounts) >= threshold
  {
    if amounts != [] {
      SaturationIsFaithful(amounts[1..], SaturatingAdd(acc, amounts[0]), threshold);
    }
  }

  function FindDiff(diffs: seq<AccountDiff>, pubkey: string): Option<AccountDiff> {
    if diffs == [] then None
    else if diffs[0].pubkey == pubkey then Some(diffs[0])
    else FindDiff(diffs[1..], pubkey)
  }

  function TransferAmountLamports(ctx: Context): Option<u64> {
    var amounts := LamportAmounts(ctx.instructions);
    if amounts != [] then Some(SaturatingSum(amounts, 0))
    else if ctx.simulation.None? then None
    else
      var diff := FindDiff(ctx.simulation.value.accountDiffs, ctx.walletPubkey);
      if diff.None? || diff.value.lamportsBefore.None? || diff.value.lamportsAfter.None?
         || diff.value.lamportsBefore.value < diff.value.lamportsAfter.value then None
      else
        var spent := diff.value.lamportsBefore.value - diff.value.lamportsAfter.value;
        match ctx.simulation.value.feeLamports
        case Some(fee) => Some(if spent >= fee then spent - fee else 0)
        case None => Some(spent)
  }

  // ---- Conditions --------------------------------------------------------------------------

  /** An offset outside a day falls back to UTC. */
  function LocalSeconds(nowSeconds: int, utcOffsetHours: int): int {
    if -24 < utcOffsetHours < 24 then nowSeconds + utcOffsetHours * 3600 else nowSeconds
  }

  predicate OutsideHours(c: Condition, nowSeconds: int)
    requires c.OutsideAllowedHours?
  {
    var local := LocalSeconds(nowSeconds, c.utcOffsetHours);
    var hour, day := local % 86400 / 3600, (local / 86400 + 3) % 7 + 1;
    (c.allowedDays != [] && day !in c.allowedDays)
    || !(if c.startHour <= c.endHour then c.startHour <= hour <= c.endHour
         else hour >= c.startHour || hour <= c.endHour)
  }

  predicate Matches(p: PolicySet, rule: Rule, ctx: Context) {
    var ixs := ctx.instructions;
    match rule.condition
    case NetworkIn(networks) => ctx.network in networks
    case ProgramNotInAllowlist =>
      p.programAllowlist != [] && exists i :: 0 <= i < |ixs| && ixs[i].programId !in p.programAllowlist
    case DestinationInDenylist =>
      exists i, j :: 0 <= i < |ixs| && 0 <= j < |ixs[i].accounts| && ixs[i].accounts[j] in p.destinationDenylist
    case AmountExceedsLamports(threshold) =>
      TransferAmountLamports(ctx).Some? && TransferAmountLamports(ctx).value >= threshold
    case SimulationNotPassed => ctx.simulation.None? || !ctx.simulation.value.success
    case TokenAmountExceeds(mint, threshold) => WrappedTotal(ixs, mint, 0) >= threshold
    case MintNotInAllowlist(allowed) =>
      allowed != []
      && exists i :: 0 <= i < |ixs| && ixs[i].tokenTransfer.Some? && ixs[i].tokenTransfer.value.mint !in allowed
    case LegacyTokenTransferPresent => exists i :: 0 <= i < |ixs| && ixs[i].isLegacyTokenTransfer
    case OutsideAllowedHours(_, _, _, _) => OutsideHours(rule.condition, ctx.nowSeconds)
    case Always => true
  }

  // ---- Evaluation --------------------------------------------------------------------------------

  function ActionVerdict(rule: Rule): Verdict {
    match rule.action
    case Approve => Approved(rule.name)
    case RequireHumanApproval => RequiresHumanApproval(rule.name)
    case RequireApprovalChain => RequiresHumanApproval(rule.name)
    case Reject => Rejected(rule.name)
  }

  predicate SimulationRefused(ctx: Context) {
    ctx.simulation.Some? && !ctx.simulation.value.success
  }

  ghost predicate IsFirstMatch(p: PolicySet, ctx: Context, i: nat) {
    i < |p.rules| && Matches(p, p.rules[i], ctx) && forall j :: 0 <= j < i ==> !Matches(p, p.rules[j], ctx)
  }

  /** A failed simulation decides before any rule; then the first match decides;
      then a human does. */
  method EvaluateAt(p: PolicySet, ctx: Context) returns (result: Evaluation)
    ensures result.rulesTotal == |p.rules|
    ensures SimulationRefused(ctx) ==> result == Evaluation(SimulationFailed, |p.rules|, 0, None)
    ensures
      !SimulationRefused(ctx) && result.matchedIndex.Some? ==>
        var i := result.matchedIndex.value;
        IsFirstMatch(p, ctx, i) && result.verdict == ActionVerdict(p.rules[i]) && result.rulesEvaluated == i + 1
    ensures
      !SimulationRefused(ctx) && result.matchedIndex.None? ==>
        && (forall j :: 0 <= j < |p.rules| ==> !Matches(p, p.rules[j], ctx))
        && result.verdict == RequiresHumanApproval(DEFAULT_RULE) && result.rulesEvaluated == |p.rules|
    ensures result.verdict == VerdictOf(p, ctx)
  {
    if ctx.simulation.Some? && !ctx.simulation.value.success {
      return Evaluation(SimulationFailed, |p.rules|, 0, None);
    }
    for i := 0 to |p.rules|
      invariant forall j :: 0 <= j < i ==> !Matches(p, p.rules[j], ctx)
    {
      if Matches(p, p.rules[i], ctx) {
        FirstMatchDecides(p, ctx, i);
        return Evaluation(ActionVerdict(p.rules[i]), |p.rules|, i + 1, Some(i));
      }
    }
    NoMatchAsksHuman(p, ctx);
    result := Evaluation(RequiresHumanApproval(DEFAULT_RULE), |p.rules|, |p.rules|, None);
  }

  /** The same, as a function of the remaining rules. */
  function VerdictFrom(p: PolicySet, ctx: Context, i: nat): Verdict
    requires i <= |p.rules|
    decreases |p.rules| - i
  {
    if i == |p.rules| then RequiresHumanApproval(DEFAULT_RULE)
    else if Matches(p, p.rules[i], ctx) then ActionVerdict(p.rules[i])
    else VerdictFrom(p, ctx, i + 1)
  }

  function VerdictOf(p: PolicySet, ctx: Context): Verdict {
    if SimulationRefused(ctx) then SimulationFailed else VerdictFrom(p, ctx, 0)
  }

  lemma {:induction false} SkipMisses(p: PolicySet, ctx: Context, i: nat, k: nat)
    requires i <= k <= |p.rules| && forall j :: i <= j < k ==> !Matches(p, p.rules[j], ctx)
    ensures VerdictFrom(p, ctx, i) == VerdictFrom(p, ctx, k)
    decreases k - i
  {
    if i < k {
      SkipMisses(p, ctx, i + 1, k);
    }
  }

  lemma FirstMatchDecides(p: PolicySet, ctx: Context, i: nat)
    requires IsFirstMatch(p, ctx, i)
    ensures VerdictFrom(p, ctx, 0) == ActionVerdict(p.rules[i])
  {
    SkipMisses(p, ctx, 0, i);
  }

  lemma NoMatchAsksHuman(p: PolicySet, ctx: Context)
    requires forall j :: 0 <= j < |p.rules| ==> !Matches(p, p.rules[j], ctx)
    ensures VerdictFrom(p, ctx, 0) == RequiresHumanApproval(DEFAULT_RULE)
  {
    SkipMisses(p, ctx, 0, |p.rules|);
  }

  // ---- Session rules ---------------------------------------------------------------------------------

  function WithSessionRules(p: PolicySet, session: seq<Rule>): PolicySet {
    p.(rules := session + p.rules)
  }

  /** Session rules come first: the first of them that matches decides, and if none
      does the set answers as it would without them. */
  lemma SessionRulesTakePrecedence(p: PolicySet, session: seq<Rule>, ctx: Context)
    ensures
      var layered := WithSessionRules(p, session);
      if forall j :: 0 <= j < |session| ==> !Matches(p, session[j], ctx) then
        VerdictOf(layered, ctx) == VerdictOf(p, ctx)
      else VerdictOf(layered, ctx) == VerdictOf(p.(rules := session), ctx)
  {
    var layered := WithSessionRules(p, session);
    assert forall r :: Matches(layered, r, ctx) == Matches(p, r, ctx) == Matches(p.(rules := session), r, ctx);
    if forall j :: 0 <= j < |session| ==> !Matches(p, session[j], ctx) {
      SkipMisses(layered, ctx, 0, |session|);
      Shifted(p, session, ctx, 0);
    } else {
      var i := Least(p, session, ctx, 0);
      FirstMatchDecides(layered, ctx, i);
      FirstMatchDecides(p.(rules := session), ctx, i);
    }
  }

  lemma {:induction false} Shifted(p: PolicySet, session: seq<Rule>, ctx: Context, i: nat)
    requires i <= |p.rules|
    ensures VerdictFrom(WithSessionRules(p, session), ctx, |session| + i) == VerdictFrom(p, ctx, i)
    decreases |p.rules| - i
  {
    if i < |p.rules| {
      Shifted(p, session, ctx, i + 1);
      assert (session + p.rules)[|session| + i] == p.rules[i];
    }
  }

  ghost function Least(p: PolicySet, rules: seq<Rule>, ctx: Context, i: nat): (k: nat)
    requires i <= |rules| && exists j :: i <= j < |rules| && Matches(p, rules[j], ctx)
    ensures i <= k < |rules| && Matches(p, rules[k], ctx)
    ensures forall j :: i <= j < k ==> !Matches(p, rules[j], ctx)
    decreases |rules| - i
  {
    if Matches(p, rules[i], ctx) then i else Least(p, rules, ctx, i + 1)
  }
}
