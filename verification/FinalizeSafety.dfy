// Any number of finalize calls interleaved with the rest of the system: what
// they never do twice, never change, and never hand out.
module FinalizeSafety {
  import opened Prelude
  import opened Codecs
  import opened WatchRules
  import opened StateStore
  import opened Proposals
  import opened Sidecar
  import opened Finalize

  // ---- The system -----------------------------------------------------------------------

  /** `reachedClaim` records whether the call ever tried to write anything, `left` the
      funding row it wrote for a rule it could not confirm. */
  datatype Call = Call(request: Request, pc: FinalizePc, reachedClaim: bool, left: Option<string>)

  datatype World = World(d: Data, calls: map<nat, Call>)

  const EMPTY_WORLD := World(Data(Side(Unopened, false, EMPTY_TABLES), map[], map[], map[], map[]), map[])

  /** Besides the calls: other writers of funding rows, completions of rules, hash
      lookups on the shared sidecar instance, and server restarts. */
  datatype Action =
    | Starts(k: nat, request: Request)
    | Steps(k: nat, input: Input)
    | Crashes(k: nat)
    | OtherFundingWrite(id: string, write: FundingWrite)
    | RuleCompletes(ruleId: string, used: u64, slot: u64)
    | HashLookedUp(hash: string, open: OpenAnswer, fault: Fault)
    | ServerRestarts

  function CallStep(o: Outside, w: World, k: nat, i: Input): World
    requires k in w.calls
  {
    var call := w.calls[k];
    var move := Move(o, w.d, call.pc, i);
    World(move.0, w.calls[k := Moved(o, w.d, call, i)])
  }

  function Moved(o: Outside, d: Data, call: Call, i: Input): Call {
    var move := Move(o, d, call.pc, i);
    Call(call.request, move.1, call.reachedClaim || call.pc.AtClaim?,
         if move.0.unconfirmed != d.unconfirmed && call.pc.AtInsertFunding? then Some(HexLower(call.pc.rule.ruleId))
         else call.left)
  }

  function Step(o: Outside, w: World, a: Action): World {
    match a
    case Starts(k, r) => if k !in w.calls then w.(calls := w.calls[k := Call(r, Admit(o, r), false, None)]) else w
    case Steps(k, i) => if k in w.calls then CallStep(o, w, k, i) else w
    case Crashes(k) =>
      if k in w.calls then w.(calls := w.calls[k := w.calls[k].(pc := FinalizeCrashed)]) else w
    case OtherFundingWrite(id, write) => w.(d := w.d.(rows := Written(w.d.rows, id, write)))
    case RuleCompletes(id, used, slot) => w.(d := w.d.(rules := RuleWritten(w.d.rules, id, used, slot)))
    case HashLookedUp(hash, open, fault) => w.(d := w.d.(side := LookupOn(w.d.side, hash, open, fault).0))
    case ServerRestarts =>
      World(w.d.(side := w.d.side.(state := Unopened)), map k | k in w.calls :: w.calls[k].(pc := FinalizeCrashed))
  }

  function Run(o: Outside, actions: seq<Action>): World {
    if actions == [] then EMPTY_WORLD else Step(o, Run(o, actions[..|actions| - 1]), actions[|actions| - 1])
  }

  // ---- The invariant --------------------------------------------------------------------------

  /** Stored rules are intact, keyed by their own id, and made by this tool from a
      draft in range. */
  ghost predicate RulesOk(o: Outside, rules: Rules) {
    forall id :: id in rules ==> RuleOk(o, id, rules[id])
  }

  ghost predicate RuleOk(o: Outside, id: string, row: RuleRow) {
    && Intact(o.lib, row) && id == HexLower(row.rule.ruleId)
    && IsBuilt(o.pins, row.rule) && RuleInRange(row.rule)
  }

  ghost predicate RuleInRange(r: WatchRule) {
    && MIN_AMOUNT_RAW <= r.maxInputAmountRaw <= MAX_AMOUNT_RAW
    && |r.conditions| == 1 && r.conditions[0].SolendReserveSupplyRate?
    && 1 <= r.conditions[0].thresholdBps <= MAX_THRESHOLD
  }

  /** A row speaks of its stored rule, unless the rule was never confirmed. */
  ghost predicate RowsOk(o: Outside, rows: Rows, rules: Rules, unconfirmed: map<string, WatchRule>) {
    forall id :: id in rows ==>
      && rows[id].terms.intentId == rows[id].terms.ruleIdHex == id
      && (id !in unconfirmed ==> id in rules && TermsFit(o, rows[id].terms, rules[id].rule))
  }

  ghost predicate UnconfirmedOk(o: Outside, rows: Rows, unconfirmed: map<string, WatchRule>) {
    forall id :: id in unconfirmed ==> id in rows && WrittenFor(o, id, rows[id].terms, unconfirmed[id])
  }

  /** The row speaks of the rule its writer could not confirm. */
  ghost predicate WrittenFor(o: Outside, id: string, t: FundingTerms, rule: WatchRule) {
    IsBuilt(o.pins, rule) && HexLower(rule.ruleId) == id && TermsFit(o, t, rule)
  }

  /** The terms of a row are those of this rule, for the controlled wallet, and with
      the funding window as deadline. */
  ghost predicate TermsFit(o: Outside, t: FundingTerms, rule: WatchRule) {
    && t.canonicalRuleHashHex == RuleHashHex(o.lib, rule)
    && t.amountRaw == rule.maxInputAmountRaw
    && |rule.conditions| == 1 && rule.conditions[0].SolendReserveSupplyRate?
    && t.thresholdBps == rule.conditions[0].thresholdBps
    && t.controlledWallet == CONTROLLED_WALLET && t.controlledUsdcAta == CONTROLLED_USDC_ATA
    && t.expiresAtMs == SaturatingDeadline(t.createdAtMs)
  }

  ghost predicate ClaimsOk(claims: map<string, nat>, drafts: map<string, string>) {
    forall id :: id in claims ==> claims[id] <= 1 && (claims[id] == 1 ==> id in drafts)
  }

  /** Every index entry is the hash of the stored rule it points to. */
  ghost predicate IndexAgrees(o: Outside, index: map<string, IndexEntry>, rules: Rules) {
    forall h :: h in index ==> index[h].intentId in rules && h == RuleHashHex(o.lib, rules[index[h].intentId].rule)
  }

  ghost predicate DataOk(o: Outside, d: Data) {
    && RulesOk(o, d.rules) && RowsOk(o, d.rows, d.rules, d.unconfirmed) && UnconfirmedOk(o, d.rows, d.unconfirmed)
    && TablesOk(d.side.tables) && IndexAgrees(o, d.side.tables.index, d.rules)
    && ClaimsOk(d.claims, d.side.tables.drafts)
  }

  ghost predicate Stored(d: Data, rule: WatchRule) {
    HexLower(rule.ruleId) in d.rules && d.rules[HexLower(rule.ruleId)].rule == rule
  }

  ghost predicate DraftsRule(o: Outside, c: Admitted, rule: WatchRule) {
    InRange(c.draft) && BuildWatchRule(o.pins, c.draft, rule.createdAtSlot) == Some(rule)
  }

  ghost predicate PcOk(o: Outside, d: Data, pc: FinalizePc) {
    match pc
    case AtClaim(c) => IsCanonicalDraft(c.draft) && InRange(c.draft)
    case AtMarket(c) => IsCanonicalDraft(c.draft) && InRange(c.draft)
    case AtInsertRule(c, built, _) => DraftsRule(o, c, built)
    case AtReadRule(c, built, _) => DraftsRule(o, c, built)
    case AtIndex(c, rule, _) => DraftsRule(o, c, rule) && Stored(d, rule)
    case AtInsertFunding(c, rule, persisted, _) => DraftsRule(o, c, rule) && (persisted ==> Stored(d, rule))
    case AtReadFunding(c, rule, persisted, terms, inserted) =>
      && DraftsRule(o, c, rule) && (persisted ==> Stored(d, rule))
      && terms.intentId == HexLower(rule.ruleId) && terms.userWallet == o.lib.keyText(c.wallet)
      && (inserted ==> terms.intentId in d.rows && d.rows[terms.intentId].terms == terms)
    case Finished(answer) => AnswerOk(o, d, answer)
    case FinalizeCrashed => true
  }

  /** What stays true of an answer that was given. */
  ghost predicate AnswerOk(o: Outside, d: Data, answer: FinalizeAnswer) {
    && answer != ExistingRuleConflict
    && (answer.Actionable? ==>
          && answer.terms.intentId in d.rows && d.rows[answer.terms.intentId].terms == answer.terms
          && answer.terms.intentId in d.rules
          && Lower(answer.terms.canonicalRuleHashHex)
             == Lower(RuleHashHex(o.lib, d.rules[answer.terms.intentId].rule))
          && answer.nowMs < answer.terms.expiresAtMs)
  }

  /** Which wallet the running call acts for. */
  ghost predicate ActsFor(o: Outside, pc: FinalizePc, wallet: string) {
    match pc
    case AtClaim(c) => o.lib.keyText(c.wallet) == wallet
    case AtMarket(c) => o.lib.keyText(c.wallet) == wallet
    case AtInsertRule(c, _, _) => o.lib.keyText(c.wallet) == wallet
    case AtReadRule(c, _, _) => o.lib.keyText(c.wallet) == wallet
    case AtIndex(c, _, _) => o.lib.keyText(c.wallet) == wallet
    case AtInsertFunding(c, _, _, _) => o.lib.keyText(c.wallet) == wallet
    case AtReadFunding(c, _, _, _, _) => o.lib.keyText(c.wallet) == wallet
    case Finished(answer) => answer.Actionable? ==> answer.terms.userWallet == wallet
    case FinalizeCrashed => true
  }

  /** The requested wallet in its canonical text. */
  function RequestedWallet(o: Outside, r: Request): string {
    var key := o.lib.parseKey(Trim(r.userWallet)); if key.Some? then o.lib.keyText(key.value) else ""
  }

  ghost predicate ReachedOk(call: Call) {
    && (call.pc.AtClaim? ==> !call.reachedClaim)
    && (call.pc.Finished? && call.pc.answer.BeforeClaim() ==> !call.reachedClaim)
    && (!call.pc.AtClaim? && !call.pc.Finished? && !call.pc.FinalizeCrashed? ==> call.reachedClaim)
    && (call.left.Some? ==> OwnsUp(call.pc))
  }

  /** A call that wrote for an unconfirmed rule is about to say so, has said so, or could
      not read its row back. */
  ghost predicate OwnsUp(pc: FinalizePc) {
    || (pc.AtReadFunding? && !pc.persisted)
    || (pc.Finished? && (pc.answer.RuleUnconfirmed? || pc.answer.StoreFailed?))
    || pc.FinalizeCrashed?
  }

  ghost predicate CallOk(o: Outside, d: Data, call: Call) {
    PcOk(o, d, call.pc) && ActsFor(o, call.pc, RequestedWallet(o, call.request)) && ReachedOk(call)
  }

  ghost predicate Inv(o: Outside, w: World) {
    DataOk(o, w.d) && forall k :: k in w.calls ==> CallOk(o, w.d, w.calls[k])
  }

  // ---- What no step undoes -------------------------------------------------------------------------

  ghost predicate RowsKept(rows: Rows, rows': Rows) {
    forall id :: id in rows ==> id in rows' && rows'[id].terms == rows[id].terms
  }

  ghost predicate RulesKept(rules: Rules, rules': Rules) {
    forall id :: id in rules ==> id in rules' && rules'[id].rule == rules[id].rule
  }

  /** Rows keep their terms, deadline included; rules keep their content; claims are
      never forgotten; the sidecar only appends. */
  ghost predicate Keeps(d: Data, d': Data) {
    && RowsKept(d.rows, d'.rows) && RulesKept(d.rules, d'.rules)
    && (forall id :: CountOf(d.claims, id) <= CountOf(d'.claims, id))
    && OnlyAppended(d.side.tables, d'.side.tables)
    && (forall id :: id in d.unconfirmed ==> id in d'.unconfirmed && d'.unconfirmed[id] == d.unconfirmed[id])
  }

  lemma PcStill(o: Outside, d: Data, d': Data, pc: FinalizePc)
    requires Keeps(d, d') && PcOk(o, d, pc)
    ensures PcOk(o, d', pc)
  {
  }

  // ---- One move ------------------------------------------------------------------------------------------

  lemma CountsStay(claims: map<string, nat>)
    ensures forall id :: CountOf(claims, id) <= CountOf(claims, id)
  {
  }

  /** A change of the sidecar and the claim counts alone. */
  lemma SideMoves(o: Outside, d: Data, side: Side, claims: map<string, nat>)
    requires DataOk(o, d)
    requires TablesOk(side.tables) && OnlyAppended(d.side.tables, side.tables)
    requires IndexAgrees(o, side.tables.index, d.rules)
    requires ClaimsOk(claims, side.tables.drafts) && forall id :: CountOf(d.claims, id) <= CountOf(claims, id)
    ensures Keeps(d, d.(side := side, claims := claims)) && DataOk(o, d.(side := side, claims := claims))
  {
  }

  lemma ClaimLeavesIndex(s: Side, c: ClaimCall, open: OpenAnswer, fault: Fault)
    ensures ClaimOn(s, c, open, fault).0.tables.index == s.tables.index
    ensures
      ClaimOn(s, c, open, fault).1 == Claimed ==>
        && NormalizeDraftId(c.draftId).Some? && NormalizeDraftId(c.draftId).value !in s.tables.drafts
        && NormalizeDraftId(c.draftId).value in ClaimOn(s, c, open, fault).0.tables.drafts
  {
  }

  lemma OneMoreClaim(claims: map<string, nat>, drafts: map<string, string>, drafts': map<string, string>, id: string)
    requires ClaimsOk(claims, drafts) && id !in drafts && id in drafts'
    requires forall other :: other in drafts ==> other in drafts'
    ensures
      var claims' := claims[id := CountOf(claims, id) + 1];
      ClaimsOk(claims', drafts') && forall other :: CountOf(claims, other) <= CountOf(claims', other)
  {
    assert CountOf(claims, id) == 0;
  }

  lemma ClaimMoveOk(o: Outside, d: Data, c: Admitted, i: Input)
    requires DataOk(o, d)
    ensures Keeps(d, ClaimMove(d, c, i).0) && DataOk(o, ClaimMove(d, c, i).0)
  {
    var call := ClaimCall(c.draftId, c.draftHash, i.nowMs);
    var (side, outcome) := ClaimOn(d.side, call, i.open, i.fault);
    ClaimCallKeepsTables(d.side, call, i.open, i.fault);
    ClaimLeavesIndex(d.side, call, i.open, i.fault);
    if outcome == Claimed {
      OneMoreClaim(d.claims, d.side.tables.drafts, side.tables.drafts, NormalizedId(c));
      SideMoves(o, d, side, d.claims[NormalizedId(c) := CountOf(d.claims, NormalizedId(c)) + 1]);
    } else {
      CountsStay(d.claims);
      SideMoves(o, d, side, d.claims);
    }
  }

  lemma FreshRuleOk(o: Outside, built: WatchRule)
    requires IsBuilt(o.pins, built) && RuleInRange(built)
    ensures RuleOk(o, HexLower(built.ruleId), FreshRuleRow(o.lib, built))
  {
    FreshRowIsIntact(o.lib, built);
  }

  lemma RuleInsertKeeps(o: Outside, rules: Rules, built: WatchRule)
    requires RulesOk(o, rules) && IsBuilt(o.pins, built) && RuleInRange(built)
    ensures RulesOk(o, RuleInserted(rules, o.lib, built)) && RulesKept(rules, RuleInserted(rules, o.lib, built))
  {
    FreshRuleOk(o, built);
  }

  lemma SameRuleOk(o: Outside, id: string, row: RuleRow, row': RuleRow)
    requires RuleOk(o, id, row)
    requires row'.rule == row.rule && row'.canonicalHash == row.canonicalHash && row'.ruleIdHex == row.ruleIdHex
    ensures RuleOk(o, id, row')
  {
  }

  lemma RuleCompletionKeeps(o: Outside, rules: Rules, id: string, used: u64, slot: u64)
    requires RulesOk(o, rules)
    ensures RulesOk(o, RuleWritten(rules, id, used, slot)) && RulesKept(rules, RuleWritten(rules, id, used, slot))
  {
    if id in rules {
      SameRuleOk(o, id, rules[id], RuleWritten(rules, id, used, slot)[id]);
    }
  }

  /** A change of the rules alone. */
  lemma RulesMove(o: Outside, d: Data, rules: Rules)
    requires DataOk(o, d) && RulesOk(o, rules) && RulesKept(d.rules, rules)
    ensures Keeps(d, d.(rules := rules)) && DataOk(o, d.(rules := rules))
  {
    CountsStay(d.claims);
  }

  lemma InsertRuleMoveOk(o: Outside, d: Data, c: Admitted, built: WatchRule, snap: Snapshot, i: Input)
    requires DataOk(o, d) && DraftsRule(o, c, built)
    ensures Keeps(d, InsertRuleMove(o, d, c, built, snap, i).0) && DataOk(o, InsertRuleMove(o, d, c, built, snap, i).0)
  {
    RuleInsertKeeps(o, d.rules, built);
    RulesMove(o, d, RuleInserted(d.rules, o.lib, built));
    RulesMove(o, d, d.rules);
  }

  lemma InsertRulePcOk(o: Outside, d: Data, c: Admitted, built: WatchRule, snap: Snapshot, i: Input)
    requires DataOk(o, d) && DraftsRule(o, c, built)
    ensures
      var move := InsertRuleMove(o, d, c, built, snap, i);
      PcOk(o, move.0, move.1)
  {
  }

  /** Whatever rule is read back under the draft's id is the draft's own rule. */
  lemma ReadRulePcOk(o: Outside, d: Data, c: Admitted, built: WatchRule, snap: Snapshot, fault: Fault, pc: FinalizePc)
    requires DataOk(o, d) && DraftsRule(o, c, built)
    requires pc == AfterReadRule(o.pins, c, built, snap, RuleLookup(o.lib, d.rules, HexLower(built.ruleId), fault))
    ensures PcOk(o, d, pc)
  {
    var id := HexLower(built.ruleId);
    if id in d.rules && fault.NoFault? {
      assert RuleOk(o, id, d.rules[id]);
      StoredIsDrafts(o, d.rules, c, built);
      ConfirmedPcOk(o, d, c, d.rules[id].rule, snap);
    } else {
      assert pc == AtInsertFunding(c, built, false, snap);
    }
  }

  lemma ConfirmedPcOk(o: Outside, d: Data, c: Admitted, rule: WatchRule, snap: Snapshot)
    requires DraftsRule(o, c, rule) && Stored(d, rule)
    ensures Confirmed(o.pins, c, rule, snap) == AtIndex(c, rule, snap)
    ensures PcOk(o, d, Confirmed(o.pins, c, rule, snap))
  {
  }

  lemma StoredIsDrafts(o: Outside, rules: Rules, c: Admitted, built: WatchRule)
    requires RulesOk(o, rules) && DraftsRule(o, c, built) && HexLower(built.ruleId) in rules
    ensures DraftsRule(o, c, rules[HexLower(built.ruleId)].rule)
    ensures rules[HexLower(built.ruleId)].rule.ruleId == built.ruleId
  {
    var row := rules[HexLower(built.ruleId)];
    assert RuleOk(o, HexLower(built.ruleId), row);
    HexLowerInjective(row.rule.ruleId, built.ruleId);
    RecoveredRuleIsDrafts(o.pins, c.draft, built.createdAtSlot, row.rule);
  }

  lemma IndexEntryAgrees(o: Outside, t: Tables, hash: string, e: IndexEntry, rules: Rules)
    requires IndexAgrees(o, t.index, rules)
    requires e.intentId in rules && hash == RuleHashHex(o.lib, rules[e.intentId].rule)
    ensures IndexAgrees(o, IndexIn(t, hash, e).0.index, rules)
  {
  }

  lemma IndexCallAgrees(o: Outside, s: Side, c: IndexCall, fault: Fault, rules: Rules)
    requires IndexAgrees(o, s.tables.index, rules)
    requires c.intentId in rules && c.hash == RuleHashHex(o.lib, rules[c.intentId].rule)
    ensures IndexAgrees(o, IndexOn(s, c, fault).0.tables.index, rules)
    ensures IndexOn(s, c, fault).0.tables.drafts == s.tables.drafts
  {
    if IndexWellFormed(c) {
      var e := IndexEntry(c.intentId, NormalizeDraftId(c.draftId).value, c.draftHash);
      IndexOnTables(s, c, fault, e);
      IndexEntryAgrees(o, s.tables, c.hash, e, rules);
    }
  }

  lemma IndexOnTables(s: Side, c: IndexCall, fault: Fault, e: IndexEntry)
    requires IndexWellFormed(c) && e == IndexEntry(c.intentId, NormalizeDraftId(c.draftId).value, c.draftHash)
    ensures
      var tables := IndexOn(s, c, fault).0.tables;
      tables == s.tables || tables == IndexIn(s.tables, c.hash, e).0
    ensures IndexIn(s.tables, c.hash, e).0.drafts == s.tables.drafts
  {
  }

  lemma IndexMoveOk(o: Outside, d: Data, c: Admitted, rule: WatchRule, snap: Snapshot, i: Input)
    requires DataOk(o, d) && Stored(d, rule)
    ensures Keeps(d, IndexMove(o, d, c, rule, snap, i).0) && DataOk(o, IndexMove(o, d, c, rule, snap, i).0)
  {
    var call := IndexCall(RuleHashHex(o.lib, rule), HexLower(rule.ruleId), c.draftId, c.draftHash, i.nowMs);
    IndexCallKeepsTables(d.side, call, i.fault);
    IndexCallAgrees(o, d.side, call, i.fault, d.rules);
    CountsStay(d.claims);
    SideMoves(o, d, IndexOn(d.side, call, i.fault).0, d.claims);
  }

  lemma NewTermsFit(o: Outside, c: Admitted, rule: WatchRule, snap: Snapshot, nowMs: i64)
    requires DraftsRule(o, c, rule)
    ensures TermsFit(o, NewTerms(o, c, rule, snap, nowMs), rule)
  {
  }

  lemma UnconfirmedStays(o: Outside, rows: Rows, rows': Rows, unconfirmed: map<string, WatchRule>)
    requires UnconfirmedOk(o, rows, unconfirmed) && RowsKept(rows, rows')
    ensures UnconfirmedOk(o, rows', unconfirmed)
  {
    forall id | id in unconfirmed ensures id in rows' && WrittenFor(o, id, rows'[id].terms, unconfirmed[id]) {
      assert WrittenFor(o, id, rows[id].terms, unconfirmed[id]);
    }
  }

  lemma RowInsertKeeps(o: Outside, rows: Rows, rules: Rules, unconfirmed: map<string, WatchRule>,
                       more: map<string, WatchRule>, t: FundingTerms)
    requires RowsOk(o, rows, rules, unconfirmed) && t.intentId !in rows && t.ruleIdHex == t.intentId
    requires forall id :: id in unconfirmed ==> id in more
    requires t.intentId in more || (t.intentId in rules && TermsFit(o, t, rules[t.intentId].rule))
    ensures RowsOk(o, Inserted(rows, t), rules, more) && RowsKept(rows, Inserted(rows, t))
  {
  }

  lemma UnconfirmedInsertKeeps(o: Outside, rows: Rows, unconfirmed: map<string, WatchRule>, t: FundingTerms,
                               rule: WatchRule)
    requires UnconfirmedOk(o, rows, unconfirmed) && t.intentId !in rows && WrittenFor(o, t.intentId, t, rule)
    ensures UnconfirmedOk(o, Inserted(rows, t), unconfirmed[t.intentId := rule]) && t.intentId !in unconfirmed
  {
    UnconfirmedStays(o, rows, Inserted(rows, t), unconfirmed);
  }

  /** A change of the rows and of the unconfirmed ones among them. */
  lemma RowsMove(o: Outside, d: Data, rows: Rows, unconfirmed: map<string, WatchRule>, d': Data)
    requires DataOk(o, d) && RowsOk(o, rows, d.rules, unconfirmed) && UnconfirmedOk(o, rows, unconfirmed)
    requires RowsKept(d.rows, rows)
    requires forall id :: id in d.unconfirmed ==> id in unconfirmed && unconfirmed[id] == d.unconfirmed[id]
    requires d' == d.(rows := rows, unconfirmed := unconfirmed)
    ensures Keeps(d, d') && DataOk(o, d')
  {
    CountsStay(d.claims);
  }

  lemma InsertFundingMoveOk(o: Outside, d: Data, c: Admitted, rule: WatchRule, persisted: bool, snap: Snapshot, i: Input,
                            d': Data)
    requires DataOk(o, d) && DraftsRule(o, c, rule) && (persisted ==> Stored(d, rule))
    requires d' == InsertFundingMove(o, d, c, rule, persisted, snap, i).0
    ensures Keeps(d, d') && DataOk(o, d')
  {
    var terms := NewTerms(o, c, rule, snap, i.nowMs);
    NewTermsFit(o, c, rule, snap, i.nowMs);
    if i.fault.LostBefore? || terms.intentId in d.rows {
      RowsMove(o, d, d.rows, d.unconfirmed, d');
    } else {
      FundingInsertOk(o, d, rule, persisted, terms, d');
    }
  }

  lemma FundingInsertOk(o: Outside, d: Data, rule: WatchRule, persisted: bool, terms: FundingTerms, d': Data)
    requires DataOk(o, d) && (persisted ==> Stored(d, rule)) && terms.intentId !in d.rows
    requires WrittenFor(o, terms.intentId, terms, rule) && terms.ruleIdHex == terms.intentId
    requires
      d' == d.(rows := Inserted(d.rows, terms),
               unconfirmed := if persisted then d.unconfirmed else d.unconfirmed[terms.intentId := rule])
    ensures Keeps(d, d') && DataOk(o, d')
  {
    var more := d'.unconfirmed;
    RowInsertKeeps(o, d.rows, d.rules, d.unconfirmed, more, terms);
    if persisted {
      UnconfirmedStays(o, d.rows, d'.rows, d.unconfirmed);
    } else {
      UnconfirmedInsertKeeps(o, d.rows, d.unconfirmed, terms, rule);
    }
    RowsMove(o, d, d'.rows, more, d');
  }

  lemma MarketPcOk(o: Outside, d: Data, c: Admitted, snap: Option<Snapshot>)
    requires IsCanonicalDraft(c.draft) && InRange(c.draft)
    ensures PcOk(o, d, AfterMarket(o.pins, c, snap))
    ensures AfterMarket(o.pins, c, snap) != Finished(CanonicalActionUnsupported)
  {
  }

  lemma InsertFundingPcOk(o: Outside, d: Data, c: Admitted, rule: WatchRule, persisted: bool, snap: Snapshot, i: Input)
    requires DraftsRule(o, c, rule) && (persisted ==> Stored(d, rule))
    ensures
      var move := InsertFundingMove(o, d, c, rule, persisted, snap, i);
      PcOk(o, move.0, move.1)
  {
  }

  lemma RespondOk(o: Outside, d: Data, c: Admitted, rule: WatchRule, persisted: bool, row: FundingRow, inserted: bool,
                  nowMs: i64)
    requires persisted ==> Stored(d, rule)
    requires row.terms.intentId in d.rows && d.rows[row.terms.intentId] == row
    ensures AnswerOk(o, d, Respond(o, c, rule, persisted, row, inserted, nowMs))
  {
  }

  /** The answer quotes the row that was read, against the confirmed stored rule. */
  lemma ReadFundingPcOk(o: Outside, d: Data, pc: FinalizePc, i: Input, pc': FinalizePc)
    requires DataOk(o, d) && PcOk(o, d, pc) && pc.AtReadFunding?
    requires pc' == Move(o, d, pc, i).1
    ensures PcOk(o, d, pc')
  {
    var id := pc.terms.intentId;
    if id in d.rows && i.fault.NoFault? {
      RespondOk(o, d, pc.c, pc.rule, pc.persisted, d.rows[id], pc.inserted, i.nowMs);
    }
  }

  lemma MoveKeepsData(o: Outside, d: Data, pc: FinalizePc, i: Input)
    requires DataOk(o, d) && PcOk(o, d, pc)
    ensures Keeps(d, Move(o, d, pc, i).0) && DataOk(o, Move(o, d, pc, i).0)
  {
    CountsStay(d.claims);
    match pc
    case AtClaim(c) => ClaimMoveOk(o, d, c, i);
    case AtInsertRule(c, built, snap) => InsertRuleMoveOk(o, d, c, built, snap, i);
    case AtIndex(c, rule, snap) => IndexMoveOk(o, d, c, rule, snap, i);
    case AtInsertFunding(c, rule, persisted, snap) =>
      InsertFundingMoveOk(o, d, c, rule, persisted, snap, i, InsertFundingMove(o, d, c, rule, persisted, snap, i).0);
    case _ =>
  }

  lemma MoveKeepsPc(o: Outside, d: Data, pc: FinalizePc, i: Input)
    requires DataOk(o, d) && PcOk(o, d, pc)
    ensures PcOk(o, Move(o, d, pc, i).0, Move(o, d, pc, i).1)
  {
    match pc
    case AtMarket(c) => MarketPcOk(o, d, c, i.snapshot);
    case AtInsertRule(c, built, snap) => InsertRulePcOk(o, d, c, built, snap, i);
    case AtReadRule(c, built, snap) => ReadRulePcOk(o, d, c, built, snap, i.fault, Move(o, d, pc, i).1);
    case AtInsertFunding(c, rule, persisted, snap) => InsertFundingPcOk(o, d, c, rule, persisted, snap, i);
    case AtReadFunding(_, _, _, _, _) => ReadFundingPcOk(o, d, pc, i, Move(o, d, pc, i).1);
    case _ =>
  }

  lemma ReadFundingActsFor(o: Outside, d: Data, pc: FinalizePc, i: Input, wallet: string)
    requires PcOk(o, d, pc) && ActsFor(o, pc, wallet) && pc.AtReadFunding?
    ensures ActsFor(o, Move(o, d, pc, i).1, wallet)
  {
  }

  lemma MoveActsFor(o: Outside, d: Data, pc: FinalizePc, i: Input, wallet: string)
    requires PcOk(o, d, pc) && ActsFor(o, pc, wallet)
    ensures ActsFor(o, Move(o, d, pc, i).1, wallet)
  {
    if pc.AtReadFunding? {
      ReadFundingActsFor(o, d, pc, i, wallet);
    }
  }

  lemma MoveReached(o: Outside, d: Data, call: Call, i: Input)
    requires PcOk(o, d, call.pc) && ReachedOk(call)
    ensures ReachedOk(Moved(o, d, call, i))
  {
  }

  // ---- Steps and runs ---------------------------------------------------------------------------------------

  lemma CallStill(o: Outside, d: Data, d': Data, call: Call)
    requires Keeps(d, d') && CallOk(o, d, call)
    ensures CallOk(o, d', call)
  {
    PcStill(o, d, d', call.pc);
  }

  lemma CallsStill(o: Outside, w: World, d': Data)
    requires Inv(o, w) && Keeps(w.d, d') && DataOk(o, d')
    ensures Inv(o, w.(d := d'))
  {
    forall k | k in w.calls ensures CallOk(o, d', w.calls[k]) {
      CallStill(o, w.d, d', w.calls[k]);
    }
  }

  lemma CallStepOk(o: Outside, w: World, k: nat, i: Input)
    requires Inv(o, w) && k in w.calls
    ensures Inv(o, CallStep(o, w, k, i)) && Keeps(w.d, CallStep(o, w, k, i).d)
  {
    var call := w.calls[k];
    MoveKeepsData(o, w.d, call.pc, i);
    MoveKeepsPc(o, w.d, call.pc, i);
    MoveActsFor(o, w.d, call.pc, i, RequestedWallet(o, call.request));
    MoveReached(o, w.d, call, i);
    CallsStill(o, w, Move(o, w.d, call.pc, i).0);
  }

  lemma FundingWriteKeeps(o: Outside, d: Data, id: string, write: FundingWrite, d': Data)
    requires DataOk(o, d) && d' == d.(rows := Written(d.rows, id, write))
    ensures Keeps(d, d') && DataOk(o, d')
  {
    var rows := Written(d.rows, id, write);
    WriteKeepsTerms(d.rows, id, write);
    UnconfirmedStays(o, d.rows, rows, d.unconfirmed);
    RowsMove(o, d, rows, d.unconfirmed, d');
  }

  lemma WriteKeepsTerms(rows: Rows, id: string, write: FundingWrite)
    ensures RowsKept(rows, Written(rows, id, write)) && Written(rows, id, write).Keys == rows.Keys
  {
    if id in rows && Allowed(rows[id], write) {
      WritesFollowEdges(rows[id], write);
    }
  }

  /** Only the state of the sidecar instance changes. */
  lemma InstanceMoves(o: Outside, d: Data, side: Side)
    requires DataOk(o, d) && side.tables == d.side.tables
    ensures Keeps(d, d.(side := side)) && DataOk(o, d.(side := side))
  {
    CountsStay(d.claims);
  }

  lemma LookupLeavesTables(s: Side, hash: string, open: OpenAnswer, fault: Fault)
    ensures LookupOn(s, hash, open, fault).0.tables == s.tables
  {
  }

  /** The data after an action that is not a call's own step. */
  function OtherData(d: Data, a: Action): Data {
    match a
    case OtherFundingWrite(id, write) => d.(rows := Written(d.rows, id, write))
    case RuleCompletes(id, used, slot) => d.(rules := RuleWritten(d.rules, id, used, slot))
    case HashLookedUp(hash, open, fault) => d.(side := LookupOn(d.side, hash, open, fault).0)
    case ServerRestarts => d.(side := d.side.(state := Unopened))
    case _ => d
  }

  /** Only the tables change, or only the instance. */
  lemma SideDataOk(o: Outside, d: Data, a: Action, d': Data)
    requires DataOk(o, d) && d' == OtherData(d, a) && !a.OtherFundingWrite? && !a.RuleCompletes?
    ensures Keeps(d, d') && DataOk(o, d')
  {
    if a.HashLookedUp? {
      LookupLeavesTables(d.side, a.hash, a.open, a.fault);
    }
    assert d' == d.(side := d'.side) && d'.side.tables == d.side.tables;
    InstanceMoves(o, d, d'.side);
  }

  lemma CompletionOk(o: Outside, d: Data, id: string, used: u64, slot: u64, d': Data)
    requires DataOk(o, d) && d' == d.(rules := RuleWritten(d.rules, id, used, slot))
    ensures Keeps(d, d') && DataOk(o, d')
  {
    RuleCompletionKeeps(o, d.rules, id, used, slot);
    RulesMove(o, d, RuleWritten(d.rules, id, used, slot));
  }

  lemma OtherDataOk(o: Outside, d: Data, a: Action, d': Data)
    requires DataOk(o, d) && d' == OtherData(d, a)
    ensures Keeps(d, d') && DataOk(o, d')
  {
    if a.OtherFundingWrite? {
      FundingWriteKeeps(o, d, a.id, a.write, d');
    } else if a.RuleCompletes? {
      CompletionOk(o, d, a.ruleId, a.used, a.slot, d');
    } else {
      SideDataOk(o, d, a, d');
    }
  }

  lemma CallReplaced(o: Outside, w: World, k: nat, call: Call)
    requires Inv(o, w) && CallOk(o, w.d, call)
    ensures Inv(o, w.(calls := w.calls[k := call]))
  {
  }

  lemma AdmittedIsOk(o: Outside, d: Data, r: Request)
    ensures CallOk(o, d, Call(r, Admit(o, r), false, None))
  {
    AdmittedIsCanonical(o, r);
  }

  lemma CallActionOk(o: Outside, w: World, a: Action)
    requires Inv(o, w) && (a.Starts? || a.Steps? || a.Crashes?)
    ensures Inv(o, Step(o, w, a))
  {
    match a
    case Starts(k, r) =>
      AdmittedIsOk(o, w.d, r);
      CallReplaced(o, w, k, Call(r, Admit(o, r), false, None));
    case Steps(k, i) =>
      if k in w.calls {
        CallStepOk(o, w, k, i);
      }
    case Crashes(k) =>
      if k in w.calls {
        CallReplaced(o, w, k, w.calls[k].(pc := FinalizeCrashed));
      }
  }

  lemma CrashedCallsOk(o: Outside, d: Data, calls: map<nat, Call>)
    requires DataOk(o, d)
    ensures Inv(o, World(d, map k | k in calls :: calls[k].(pc := FinalizeCrashed)))
  {
  }

  lemma RestartOk(o: Outside, w: World)
    requires Inv(o, w)
    ensures Inv(o, Step(o, w, ServerRestarts))
  {
    var d := w.d.(side := w.d.side.(state := Unopened));
    InstanceMoves(o, w.d, d.side);
    CrashedCallsOk(o, d, w.calls);
  }

  lemma OtherActionOk(o: Outside, w: World, a: Action)
    requires Inv(o, w) && !a.Starts? && !a.Steps? && !a.Crashes? && !a.ServerRestarts?
    ensures Inv(o, Step(o, w, a))
  {
    OtherDataOk(o, w.d, a, OtherData(w.d, a));
    CallsStill(o, w, OtherData(w.d, a));
    assert Step(o, w, a) == w.(d := OtherData(w.d, a));
  }

  lemma StepOk(o: Outside, w: World, a: Action)
    requires Inv(o, w)
    ensures Inv(o, Step(o, w, a))
  {
    if a.Starts? || a.Steps? || a.Crashes? {
      CallActionOk(o, w, a);
    } else if a.ServerRestarts? {
      RestartOk(o, w);
    } else {
      OtherActionOk(o, w, a);
    }
  }

  /** Unless a call steps, the data changes as the action says. */
  lemma OtherStepData(o: Outside, w: World, a: Action)
    requires !(a.Steps? && a.k in w.calls)
    ensures Step(o, w, a).d == OtherData(w.d, a)
  {
  }

  lemma StepKeeps(o: Outside, w: World, a: Action)
    requires Inv(o, w)
    ensures Keeps(w.d, Step(o, w, a).d)
  {
    if a.Steps? && a.k in w.calls {
      CallStepOk(o, w, a.k, a.input);
    } else {
      OtherStepData(o, w, a);
      OtherDataOk(o, w.d, a, OtherData(w.d, a));
    }
  }

  lemma {:induction false} InvariantHolds(o: Outside, actions: seq<Action>)
    ensures Inv(o, Run(o, actions))
  {
    if actions != [] {
      var n := |actions| - 1;
      InvariantHolds(o, actions[..n]);
      StepOk(o, Run(o, actions[..n]), actions[n]);
    }
  }

  // ---- What every run guarantees ------------------------------------------------------------------------------

  function DataAfter(o: Outside, actions: seq<Action>): Data {
    Run(o, actions).d
  }

  /** Each draft id, in either spelling, passes the claim at most once. */
  lemma ClaimedAtMostOnce(o: Outside, actions: seq<Action>, draftId: string)
    ensures CountOf(DataAfter(o, actions).claims, draftId) <= 1
  {
    InvariantHolds(o, actions);
  }

  lemma KeepsTrans(a: Data, b: Data, c: Data)
    requires Keeps(a, b) && Keeps(b, c)
    ensures Keeps(a, c)
  {
    assert forall id :: CountOf(a.claims, id) <= CountOf(b.claims, id) <= CountOf(c.claims, id);
  }

  /** No row's terms or deadline, no rule, no tombstone and no index entry is ever
      altered or dropped, whatever comes later. */
  lemma {:induction false} NothingIsAltered(o: Outside, before: seq<Action>, after: seq<Action>)
    ensures Keeps(DataAfter(o, before), DataAfter(o, before + after))
  {
    InvariantHolds(o, before);
    if after == [] {
      assert before + after == before;
      InstanceMoves(o, DataAfter(o, before), DataAfter(o, before).side);
    } else {
      var n := |after| - 1;
      NothingIsAltered(o, before, after[..n]);
      assert (before + after)[..|before + after| - 1] == before + after[..n];
      InvariantHolds(o, before + after[..n]);
      StepKeeps(o, Run(o, before + after[..n]), after[n]);
      KeepsTrans(DataAfter(o, before), DataAfter(o, before + after[..n]), DataAfter(o, before + after));
    }
  }

  /** A finalize call itself only inserts: every row and rule already there stays
      exactly as it is, status included. */
  lemma CallsOnlyInsert(o: Outside, d: Data, pc: FinalizePc, i: Input)
    ensures forall id :: id in d.rows ==> id in Move(o, d, pc, i).0.rows && Move(o, d, pc, i).0.rows[id] == d.rows[id]
    ensures forall id :: id in d.rules ==>
              id in Move(o, d, pc, i).0.rules && Move(o, d, pc, i).0.rules[id] == d.rules[id]
  {
  }

  /** An actionable answer quotes a persisted row, for the requester's wallet, whose
      hash is that of a stored rule, and whose deadline lies after the check. */
  lemma ActionableIsTrue(o: Outside, actions: seq<Action>, k: nat)
    requires k in Run(o, actions).calls
    requires
      var pc := Run(o, actions).calls[k].pc;
      pc.Finished? && pc.answer.Actionable?
    ensures
      var w := Run(o, actions);
      var terms, nowMs := w.calls[k].pc.answer.terms, w.calls[k].pc.answer.nowMs;
      && terms.intentId in w.d.rows && w.d.rows[terms.intentId].terms == terms
      && terms.intentId in w.d.rules
      && Lower(terms.canonicalRuleHashHex) == Lower(RuleHashHex(o.lib, w.d.rules[terms.intentId].rule))
      && terms.userWallet == RequestedWallet(o, w.calls[k].request)
      && nowMs < terms.expiresAtMs
  {
    InvariantHolds(o, actions);
    assert CallOk(o, Run(o, actions).d, Run(o, actions).calls[k]);
  }

  /** Rules written only by this tool never conflict with the approved draft. */
  lemma NoRuleConflict(o: Outside, actions: seq<Action>, k: nat)
    requires k in Run(o, actions).calls
    ensures Run(o, actions).calls[k].pc != Finished(ExistingRuleConflict)
  {
    InvariantHolds(o, actions);
    assert CallOk(o, Run(o, actions).d, Run(o, actions).calls[k]);
  }

  /** The derived index always agrees with the rule table. */
  lemma IndexAlwaysAgrees(o: Outside, actions: seq<Action>, hash: string)
    requires hash in DataAfter(o, actions).side.tables.index
    ensures
      var d := DataAfter(o, actions);
      var id := d.side.tables.index[hash].intentId;
      id in d.rules && hash == RuleHashHex(o.lib, d.rules[id].rule) && d.rules[id].canonicalHash == o.lib.ruleHash(d.rules[id].rule)
  {
    InvariantHolds(o, actions);
    var d := DataAfter(o, actions);
    assert RuleOk(o, d.side.tables.index[hash].intentId, d.rules[d.side.tables.index[hash].intentId]);
  }

  ghost predicate CollisionFree(lib: Library) {
    forall a, b :: lib.ruleHash(a) == lib.ruleHash(b) ==> a == b
  }

  /** An index that agrees with the rules holds a stored rule's hash for its own intent
      only, and its intent under its own hash only. */
  lemma AgreedIndexHasNoConflict(o: Outside, t: Tables, rules: Rules, rule: WatchRule)
    requires CollisionFree(o.lib) && RulesOk(o, rules) && IndexAgrees(o, t.index, rules)
    requires HexLower(rule.ruleId) in rules && rules[HexLower(rule.ruleId)].rule == rule
    ensures RuleHashHex(o.lib, rule) in t.index ==> t.index[RuleHashHex(o.lib, rule)].intentId == HexLower(rule.ruleId)
    ensures IntentTaken(t, HexLower(rule.ruleId)) ==> RuleHashHex(o.lib, rule) in t.index
  {
    var hash := RuleHashHex(o.lib, rule);
    if hash in t.index {
      var id := t.index[hash].intentId;
      HexLowerInjective(o.lib.ruleHash(rules[id].rule), o.lib.ruleHash(rule));
      assert RuleOk(o, id, rules[id]);
    }
  }

  lemma AgreedCallHasNoConflict(s: Side, c: IndexCall, fault: Fault)
    requires c.hash in s.tables.index ==> s.tables.index[c.hash].intentId == c.intentId
    requires IntentTaken(s.tables, c.intentId) ==> c.hash in s.tables.index
    ensures IndexOn(s, c, fault).1 != IndexConflict
  {
  }

  /** With a collision-free hash, indexing a stored rule never conflicts. */
  lemma IndexNeverConflicts(o: Outside, actions: seq<Action>, c: Admitted, rule: WatchRule, nowMs: i64, fault: Fault)
    requires CollisionFree(o.lib) && Stored(DataAfter(o, actions), rule)
    ensures
      var call := IndexCall(RuleHashHex(o.lib, rule), HexLower(rule.ruleId), c.draftId, c.draftHash, nowMs);
      IndexOn(DataAfter(o, actions).side, call, fault).1 != IndexConflict
  {
    InvariantHolds(o, actions);
    AgreedIndexHasNoConflict(o, DataAfter(o, actions).side.tables, DataAfter(o, actions).rules, rule);
    var call := IndexCall(RuleHashHex(o.lib, rule), HexLower(rule.ruleId), c.draftId, c.draftHash, nowMs);
    AgreedCallHasNoConflict(DataAfter(o, actions).side, call, fault);
  }
}
