// Status lookup, by intent id or by canonical hash. A hash goes through the
// sidecar, whose answer is never trusted: it is checked against both tables.
module StatusQuery {
  import opened Prelude
  import opened Codecs
  import opened WatchRules
  import opened StateStore
  import opened Sidecar
  import opened Finalize
  import FinalizeSafety

  datatype Unsupported = HashUnavailable | HashInconsistent | InvalidFormat

  datatype Label = OfFunding(status: Status) | OfRule(ruleStatus: RuleStatus) | NotFoundLabel | UnsupportedRef(reason: Unsupported)

  datatype Source = FundingIntentSource | WatchRuleSource

  datatype Response = Response(
    intentRef: string,
    status: Label,
    isTerminal: bool,
    source: Option<Source>,
    resolvedIntentId: Option<string>,
    canonicalRuleHash: Option<string>,
    watchRuleStatus: Option<RuleStatus>,
    amountRaw: Option<u64>,
    createdAtMs: Option<i64>,
    expiresAtMs: Option<i64>,
    createdAtSlot: Option<u64>,
    expiresAtSlot: Option<u64>)

  function UnsupportedResponse(intentRef: string, reason: Unsupported): Response {
    Response(intentRef, UnsupportedRef(reason), false, None, None, None, None, None, None, None, None, None)
  }

  predicate RuleStatusIsTerminal(s: RuleStatus) {
    s.RuleCompleted? || s.RuleExpired? || s.RuleRevoked? || s.RuleFailed?
  }

  /** The funding row decides; without one the rule does; without both, nothing. */
  function ProjectStatus(intentRef: string, resolved: ResolvedRef, funding: Option<FundingRow>, rule: Option<RuleRow>)
    : Response
  {
    match (funding, rule)
    case (Some(row), _) =>
      Response(intentRef, OfFunding(row.status), row.status.IsTerminal(), Some(FundingIntentSource),
               Some(resolved.intentId), Some(row.terms.canonicalRuleHashHex),
               if rule.Some? then Some(rule.value.status) else None, Some(row.terms.amountRaw),
               Some(row.terms.createdAtMs), Some(row.terms.expiresAtMs),
               if rule.Some? then Some(rule.value.rule.createdAtSlot) else None,
               if rule.Some? then Some(rule.value.rule.expiresAtSlot) else None)
    case (None, Some(r)) =>
      Response(intentRef, OfRule(r.status), RuleStatusIsTerminal(r.status), Some(WatchRuleSource),
               Some(resolved.intentId), Some(HexLower(r.canonicalHash)), Some(r.status), Some(r.rule.maxInputAmountRaw),
               None, None, Some(r.rule.createdAtSlot), Some(r.rule.expiresAtSlot))
    case (None, None) =>
      Response(intentRef, NotFoundLabel, false, None, Some(resolved.intentId), None, None, None, None, None, None, None)
  }

  predicate MappingMatchesMainStore(lib: Library, hash: string, resolved: ResolvedRef, funding: Option<FundingRow>,
                                    rule: Option<RuleRow>) {
    && rule.Some?
    && rule.value.rule.ruleId == resolved.ruleId
    && HexLower(rule.value.rule.ruleId) == resolved.intentId
    && HexLower(rule.value.canonicalHash) == hash
    && HexLower(lib.ruleHash(rule.value.rule)) == hash
    && (funding.Some? ==>
          && funding.value.terms.intentId == resolved.intentId
          && funding.value.terms.ruleIdHex == resolved.intentId
          && Lower(funding.value.terms.canonicalRuleHashHex) == Lower(hash))
  }

  predicate IsHashRef(candidate: string) {
    |candidate| == 64 && All(candidate, IsHex)
  }

  /** The reference after the lookup, or why it is unsupported. */
  function Resolve(intentRef: string, lookup: HashLookup): Result<ResolvedRef, Unsupported> {
    if IsHashRef(Trim(intentRef)) then
      match lookup
      case Found(intentId) =>
        (match ResolveUuidRef(intentId)
         case Some(resolved) => Ok(resolved)
         case None => Err(HashInconsistent))
      case Missing => Err(HashUnavailable)
      case LookupUnavailable => Err(HashUnavailable)
    else
      match ResolveUuidRef(intentRef)
      case Some(resolved) => Ok(resolved)
      case None => Err(InvalidFormat)
  }

  datatype Faults = Faults(funding: Fault, rule: Fault)

  /** The whole query, for whatever the sidecar answers. */
  function Query(lib: Library, rows: Rows, rules: Rules, lookup: HashLookup, intentRef: string, faults: Faults)
    : Result<Response, StoreError>
  {
    match Resolve(intentRef, lookup)
    case Err(reason) => Ok(UnsupportedResponse(intentRef, reason))
    case Ok(resolved) =>
      var funding :- Lookup(rows, resolved.intentId, faults.funding);
      var rule :- RuleLookup(lib, rules, HexLower(resolved.ruleId), faults.rule);
      if IsHashRef(Trim(intentRef))
         && !MappingMatchesMainStore(lib, Lower(Trim(intentRef)), resolved, funding, rule) then
        Ok(UnsupportedResponse(intentRef, HashInconsistent))
      else Ok(ProjectStatus(intentRef, resolved, funding, rule))
  }

  /** The tool over the real stores. */
  method QueryIntentStatus(store: Store, sidecar: IntentSidecar, intentRef: string, open: OpenAnswer,
                           lookupFault: Fault, faults: Faults) returns (r: Result<Response, StoreError>)
    modifies sidecar`state
    ensures
      var hash := Lower(Trim(intentRef));
      var (side, lookup) := LookupOn(old(sidecar.Now()), hash, open, lookupFault);
      && r == Query(store.lib, store.funding, store.rules, lookup, intentRef, faults)
      && sidecar.Now() == if IsHashRef(Trim(intentRef)) then side else old(sidecar.Now())
  {
    var candidate := Trim(intentRef);
    var isHash := IsHashRef(candidate);
    var resolved: ResolvedRef;
    if isHash {
      var lookup := sidecar.LookupHash(Lower(candidate), open, lookupFault);
      match lookup {
        case Found(intentId) =>
          var inner := ResolveUuidRef(intentId);
          if inner.None? {
            return Ok(UnsupportedResponse(intentRef, HashInconsistent));
          }
          resolved := inner.value;
        case Missing =>
          return Ok(UnsupportedResponse(intentRef, HashUnavailable));
        case LookupUnavailable =>
          return Ok(UnsupportedResponse(intentRef, HashUnavailable));
      }
    } else {
      var direct := ResolveUuidRef(intentRef);
      if direct.None? {
        return Ok(UnsupportedResponse(intentRef, InvalidFormat));
      }
      resolved := direct.value;
    }
    var funding :- store.GetFunding(resolved.intentId, faults.funding);
    var rule :- store.GetRule(HexLower(resolved.ruleId), faults.rule);
    if isHash && !MappingMatchesMainStore(store.lib, Lower(candidate), resolved, funding, rule) {
      return Ok(UnsupportedResponse(intentRef, HashInconsistent));
    }
    r := Ok(ProjectStatus(intentRef, resolved, funding, rule));
  }

  // ---- What an answer tells -----------------------------------------------------------------------

  /** A row under this id: the answer is the row's own status, hash, amount and times, with
      the status and the slots of its rule if that is stored. */
  predicate TellsRow(r: Response, row: FundingRow, rule: Option<RuleRow>) {
    && r.status == OfFunding(row.status) && r.source == Some(FundingIntentSource)
    && (r.isTerminal <==> row.status in {FundingInvalid, Completed, Refunded, Failed})
    && r.canonicalRuleHash == Some(row.terms.canonicalRuleHashHex) && r.amountRaw == Some(row.terms.amountRaw)
    && r.createdAtMs == Some(row.terms.createdAtMs) && r.expiresAtMs == Some(row.terms.expiresAtMs)
    && r.watchRuleStatus.Some? == r.createdAtSlot.Some? == r.expiresAtSlot.Some? == rule.Some?
    && (rule.Some? ==> (r.watchRuleStatus.value, r.createdAtSlot.value, r.expiresAtSlot.value)
                       == (rule.value.status, rule.value.rule.createdAtSlot, rule.value.rule.expiresAtSlot))
  }

  /** Only a rule under this id: the answer is the rule's own. */
  predicate TellsRule(r: Response, rule: RuleRow) {
    && r.status == OfRule(rule.status) && r.source == Some(WatchRuleSource)
    && (r.isTerminal <==> rule.status in {RuleCompleted, RuleExpired, RuleRevoked, RuleFailed})
    && r.canonicalRuleHash == Some(HexLower(rule.canonicalHash)) && r.watchRuleStatus == Some(rule.status)
    && r.amountRaw == Some(rule.rule.maxInputAmountRaw) && r.createdAtMs.None? && r.expiresAtMs.None?
    && r.createdAtSlot == Some(rule.rule.createdAtSlot) && r.expiresAtSlot == Some(rule.rule.expiresAtSlot)
  }

  predicate TellsNothing(r: Response) {
    && !r.isTerminal && r.source.None? && r.canonicalRuleHash.None? && r.watchRuleStatus.None? && r.amountRaw.None?
    && r.createdAtMs.None? && r.expiresAtMs.None? && r.createdAtSlot.None? && r.expiresAtSlot.None?
  }

  /** A query by id, in whatever spelling, tells what the tables hold under that id: the row
      first, the rule if there is no row, and otherwise that there is nothing. */
  lemma IdQueryTells(lib: Library, rows: Rows, rules: Rules, lookup: HashLookup, intentRef: string, id: bytes)
    requires ResolveUuidRef(intentRef) == Some(ResolvedRef(HexLower(id), id))
    ensures
      var name := HexLower(id);
      var rule := if name in rules then Some(rules[name]) else None;
      match Query(lib, rows, rules, lookup, intentRef, Faults(NoFault, NoFault))
      case Err(_) => rule.Some? && !Intact(lib, rule.value)
      case Ok(r) =>
        && (rule.Some? ==> Intact(lib, rule.value))
        && r.intentRef == intentRef && r.resolvedIntentId == Some(name)
        && if name in rows then TellsRow(r, rows[name], rule)
           else if rule.Some? then TellsRule(r, rule.value)
           else r.status == NotFoundLabel && TellsNothing(r)
  {
    IdRefIsNotHash(intentRef);
  }

  /** An unsupported reference is told why: it is no id, its hash could not be looked up, or
      the tables do not confirm what the lookup found; and nothing else is told. */
  lemma UnsupportedTellsWhy(lib: Library, rows: Rows, rules: Rules, lookup: HashLookup, intentRef: string, r: Response)
    requires Query(lib, rows, rules, lookup, intentRef, Faults(NoFault, NoFault)) == Ok(r) && r.status.UnsupportedRef?
    ensures r.intentRef == intentRef && r.resolvedIntentId.None? && TellsNothing(r)
    ensures r.status.reason == InvalidFormat <==> !IsHashRef(Trim(intentRef))
    ensures r.status.reason == InvalidFormat ==> ResolveUuidRef(intentRef).None?
    ensures r.status.reason == HashUnavailable <==> IsHashRef(Trim(intentRef)) && !lookup.Found?
  {
  }

  /** A hash reference is 64 hex digits, in either case. */
  lemma HashRefIff(hash: bytes, text: string)
    requires |hash| == 32 && Lower(text) == HexLower(hash)
    ensures IsHashRef(Trim(text)) && Lower(Trim(text)) == HexLower(hash)
  {
    forall i | 0 <= i < |text| ensures IsHex(text[i]) {
      assert IsLowerHex(Lower(text)[i]);
    }
    HexIsTight(text);
    TrimPadded("", text, "");
    assert "" + text + "" == text;
  }

  // ---- Hash queries refine id queries -----------------------------------------------------------

  lemma IdRefIsNotHash(intentId: string)
    requires ResolveUuidRef(intentId).Some?
    ensures !IsHashRef(Trim(intentId))
  {
  }

  /** Whatever the sidecar answers, a query by hash is either unsupported, or the
      same answer as the query by the intent's id, apart from the echoed reference;
      and then the stored rule hashes to what was asked for. */
  lemma HashQueryRefinesIdQuery(lib: Library, rows: Rows, rules: Rules, lookup: HashLookup, other: HashLookup,
                                intentRef: string, faults: Faults)
    requires IsHashRef(Trim(intentRef))
    requires Query(lib, rows, rules, lookup, intentRef, faults).Ok?
    requires !Query(lib, rows, rules, lookup, intentRef, faults).value.status.UnsupportedRef?
    ensures
      var response := Query(lib, rows, rules, lookup, intentRef, faults).value;
      && response.resolvedIntentId.Some?
      && var id := response.resolvedIntentId.value;
         && Query(lib, rows, rules, other, id, faults) == Ok(response.(intentRef := id))
         && id in rules && HexLower(lib.ruleHash(rules[id].rule)) == Lower(Trim(intentRef))
         && HexLower(rules[id].rule.ruleId) == id
  {
    HashQueryAnswers(lib, rows, rules, lookup, intentRef, faults);
    var resolved := ResolveUuidRef(lookup.intentId).value;
    ResolvedIsCanonical(lookup.intentId);
    IdQueryAnswers(lib, rows, rules, other, resolved, faults);
  }

  /** What a supported hash query rests on. */
  lemma HashQueryAnswers(lib: Library, rows: Rows, rules: Rules, lookup: HashLookup, intentRef: string, faults: Faults)
    requires IsHashRef(Trim(intentRef))
    requires Query(lib, rows, rules, lookup, intentRef, faults).Ok?
    requires !Query(lib, rows, rules, lookup, intentRef, faults).value.status.UnsupportedRef?
    ensures lookup.Found? && ResolveUuidRef(lookup.intentId).Some?
    ensures
      var resolved := ResolveUuidRef(lookup.intentId).value;
      var funding, rule := Lookup(rows, resolved.intentId, faults.funding),
                           RuleLookup(lib, rules, HexLower(resolved.ruleId), faults.rule);
      && funding.Ok? && rule.Ok?
      && MappingMatchesMainStore(lib, Lower(Trim(intentRef)), resolved, funding.value, rule.value)
      && Query(lib, rows, rules, lookup, intentRef, faults)
         == Ok(ProjectStatus(intentRef, resolved, funding.value, rule.value))
  {
  }

  lemma IdQueryAnswers(lib: Library, rows: Rows, rules: Rules, other: HashLookup, resolved: ResolvedRef, faults: Faults)
    requires ResolveUuidRef(resolved.intentId) == Some(resolved)
    requires
      Lookup(rows, resolved.intentId, faults.funding).Ok?
      && RuleLookup(lib, rules, HexLower(resolved.ruleId), faults.rule).Ok?
    ensures
      Query(lib, rows, rules, other, resolved.intentId, faults)
      == Ok(ProjectStatus(resolved.intentId, resolved, Lookup(rows, resolved.intentId, faults.funding).value,
                          RuleLookup(lib, rules, HexLower(resolved.ruleId), faults.rule).value))
  {
    IdRefIsNotHash(resolved.intentId);
  }

  /** The tables confirm that this hash belongs to this intent. */
  predicate StoreConfirms(lib: Library, rows: Rows, rules: Rules, id: string, hash: string) {
    && id in rules && Intact(lib, rules[id]) && HexLower(rules[id].rule.ruleId) == id
    && HexLower(lib.ruleHash(rules[id].rule)) == hash
    && (id in rows ==>
          rows[id].terms.intentId == rows[id].terms.ruleIdHex == id
          && Lower(rows[id].terms.canonicalRuleHashHex) == Lower(hash))
  }

  lemma ConfirmedIffMatches(lib: Library, rows: Rows, rules: Rules, resolved: ResolvedRef, hash: string)
    requires |resolved.ruleId| == 16 && resolved.intentId == HexLower(resolved.ruleId)
    ensures
      var rule := RuleLookup(lib, rules, resolved.intentId, NoFault);
      StoreConfirms(lib, rows, rules, resolved.intentId, hash) <==>
        rule.Ok?
        && MappingMatchesMainStore(lib, hash, resolved, Lookup(rows, resolved.intentId, NoFault).value, rule.value)
  {
    var id := resolved.intentId;
    if id in rules && HexLower(rules[id].rule.ruleId) == id {
      HexLowerInjective(rules[id].rule.ruleId, resolved.ruleId);
    }
  }

  /** A query by hash is supported exactly when the sidecar names an intent that the
      tables confirm. */
  lemma HashQuerySupportedIff(lib: Library, rows: Rows, rules: Rules, lookup: HashLookup, intentRef: string)
    requires IsHashRef(Trim(intentRef))
    ensures
      var r := Query(lib, rows, rules, lookup, intentRef, Faults(NoFault, NoFault));
      (r.Ok? && !r.value.status.UnsupportedRef?) <==>
        && lookup.Found? && ResolveUuidRef(lookup.intentId).Some?
        && StoreConfirms(lib, rows, rules, ResolveUuidRef(lookup.intentId).value.intentId, Lower(Trim(intentRef)))
  {
    if lookup.Found? && ResolveUuidRef(lookup.intentId).Some? {
      ResolvedIsCanonical(lookup.intentId);
      ConfirmedIffMatches(lib, rows, rules, ResolveUuidRef(lookup.intentId).value, Lower(Trim(intentRef)));
    }
  }

  /** After any run of finalize calls an indexed hash can be queried: the answer is
      supported unless the funding row was written for an unconfirmed rule. */
  lemma IndexedHashesResolve(o: Outside, actions: seq<FinalizeSafety.Action>, hash: string)
    requires hash in FinalizeSafety.DataAfter(o, actions).side.tables.index
    requires
      var d := FinalizeSafety.DataAfter(o, actions);
      d.side.tables.index[hash].intentId in d.rows ==> d.side.tables.index[hash].intentId !in d.unconfirmed
    ensures
      var d := FinalizeSafety.DataAfter(o, actions);
      var id := d.side.tables.index[hash].intentId;
      var r := Query(o.lib, d.rows, d.rules, Found(id), hash, Faults(NoFault, NoFault));
      r.Ok? && !r.value.status.UnsupportedRef?
  {
    FinalizeSafety.InvariantHolds(o, actions);
    var d := FinalizeSafety.DataAfter(o, actions);
    var id := d.side.tables.index[hash].intentId;
    assert FinalizeSafety.RuleOk(o, id, d.rules[id]);
    assert IsLowerHexOf(hash, 64) && IsLowerHexOf(id, 32);
    LowerHexIsLower(hash);
    assert StoreConfirms(o.lib, d.rows, d.rules, id, hash);
    ConfirmedHashResolves(o.lib, d.rows, d.rules, id, hash);
  }

  lemma ConfirmedHashResolves(lib: Library, rows: Rows, rules: Rules, id: string, hash: string)
    requires IsLowerHexOf(hash, 64) && IsLowerHexOf(id, 32) && StoreConfirms(lib, rows, rules, id, hash)
    ensures
      var r := Query(lib, rows, rules, Found(id), hash, Faults(NoFault, NoFault));
      r.Ok? && !r.value.status.UnsupportedRef?
  {
    LowerHexTrims(hash);
    LowerHexTrims(id);
    LowerHexIsLower(hash);
    LowerHexIsLower(id);
    HashQuerySupportedIff(lib, rows, rules, Found(id), hash);
  }

  lemma LowerHexIsLower(s: string)
    requires All(s, IsLowerHex)
    ensures Lower(s) == s
  {
  }

  lemma LowerHexTrims(s: string)
    requires |s| > 0 && All(s, IsLowerHex)
    ensures Trim(s) == s && All(s, IsHex)
  {
    HexIsTight(s);
    TrimPadded("", s, "");
    assert "" + s + "" == s;
  }
}
