// The derived sidecar: permanent consume-once tombstones for drafts and a
// one-to-one index from canonical hashes to intents. The file outlives the
// server instance; the instance's own state only says whether it may use it.
module Sidecar {
  import opened Prelude
  import opened Codecs
  import opened StateStore

  // ---- The two tables ------------------------------------------------------------------

  datatype IndexEntry = IndexEntry(intentId: string, draftId: string, draftHash: string)

  datatype Tables = Tables(drafts: map<string, string>, index: map<string, IndexEntry>)

  const EMPTY_TABLES := Tables(map[], map[])

  datatype ClaimOutcome = Claimed | AlreadyConsumed | ClaimConflict | ClaimUnavailable

  datatype IndexOutcome = Indexed | AlreadyPresent | IndexUnavailable | IndexConflict

  datatype HashLookup = Found(intentId: string) | Missing | LookupUnavailable

  /** Insert unless the id is taken, then say whose it is. */
  function ClaimIn(t: Tables, draftId: string, draftHash: string): (Tables, ClaimOutcome) {
    if draftId !in t.drafts then (t.(drafts := t.drafts[draftId := draftHash]), Claimed)
    else (t, if t.drafts[draftId] == draftHash then AlreadyConsumed else ClaimConflict)
  }

  predicate IntentTaken(t: Tables, intentId: string) {
    exists h :: h in t.index && t.index[h].intentId == intentId
  }

  datatype IndexAnswer = IndexAnswer(outcome: IndexOutcome) | MappingConflict | ForeignKeyMissing

  /** A unique violation is ignored and read back; a missing draft is an error. */
  function IndexIn(t: Tables, hash: string, e: IndexEntry): (Tables, IndexAnswer) {
    if hash in t.index || IntentTaken(t, e.intentId) then
      (t, if hash in t.index && t.index[hash].intentId == e.intentId then IndexAnswer(AlreadyPresent)
          else MappingConflict)
    else if e.draftId in t.drafts && t.drafts[e.draftId] == e.draftHash then
      (t.(index := t.index[hash := e]), IndexAnswer(Indexed))
    else (t, ForeignKeyMissing)
  }

  // ---- Normalising draft ids ---------------------------------------------------------------

  predicate IsLowerHexOf(s: string, length: nat) {
    |s| == length && All(s, IsLowerHex)
  }

  /** Compact or hyphenated, lowercase only. */
  function NormalizeDraftId(value: string): Option<string> {
    if |value| == 32 then (if All(value, IsLowerHex) then Some(value) else None)
    else if |value| == 36 && value[8] == '-' && value[13] == '-' && value[18] == '-' && value[23] == '-'
      && All(Compact(value), IsLowerHex) then Some(Compact(value))
    else None
  }

  /** The two spellings of an id share one tombstone, and nothing else shares it. */
  lemma SpellingsShareTombstone(value: string, id: string)
    requires |id| == 32
    ensures
      NormalizeDraftId(value) == Some(id) <==>
        All(id, IsLowerHex) && (value == id || value == Hyphenate(id))
  {
    if value == Hyphenate(id) {
      CompactHyphenated(id);
    }
    if |value| == 36 && NormalizeDraftId(value) == Some(id) {
      HyphenateCompact(value);
    }
  }

  lemma CompactHyphenated(s: string)
    requires |s| == 32
    ensures Compact(Hyphenate(s)) == s
    ensures Hyphenate(s)[8] == Hyphenate(s)[13] == Hyphenate(s)[18] == Hyphenate(s)[23] == '-'
  {
    var t := Hyphenate(s);
    assert t[..8] == s[..8] && t[9..13] == s[8..12] && t[14..18] == s[12..16];
    assert t[19..23] == s[16..20] && t[24..] == s[20..];
  }

  // ---- Opening the file -----------------------------------------------------------------------

  datatype InstanceState = Unopened | Ready | Unavailable

  /** What the file system and the schema check say when the file is first used. */
  datatype OpenAnswer = ExistsCheckFails | OpenFails | OpenWorks

  /** The file: absent, or holding the two tables. */
  class SidecarFile {
    var exists_: bool
    var tables: Tables

    constructor ()
      ensures !exists_ && tables == EMPTY_TABLES
    {
      exists_, tables := false, EMPTY_TABLES;
    }
  }

  /** Where a claim leaves the instance; only a claim may create the file. */
  function AfterClaimOpen(s: InstanceState, o: OpenAnswer): InstanceState {
    if s != Unopened then s
    else
      match o
      case ExistsCheckFails => Unopened
      case OpenFails => Unavailable
      case OpenWorks => Ready
  }

  /** Where a lookup leaves the instance; it never creates the file. */
  function AfterLookupOpen(s: InstanceState, fileExists: bool, o: OpenAnswer): InstanceState {
    if s != Unopened then s
    else if o == ExistsCheckFails then Unavailable
    else if !fileExists then Unopened
    else if o == OpenFails then Unavailable
    else Ready
  }

  // ---- What one call does, as a function ---------------------------------------------------------

  datatype Side = Side(state: InstanceState, fileExists: bool, tables: Tables)

  datatype ClaimCall = ClaimCall(draftId: string, draftHash: string, consumedAtMs: i64)

  datatype IndexCall = IndexCall(hash: string, intentId: string, draftId: string, draftHash: string, indexedAtMs: i64)

  predicate ClaimWellFormed(c: ClaimCall) {
    NormalizeDraftId(c.draftId).Some? && IsLowerHexOf(c.draftHash, 64) && c.consumedAtMs >= 0
  }

  predicate IndexWellFormed(c: IndexCall) {
    && NormalizeDraftId(c.draftId).Some? && IsLowerHexOf(c.hash, 64) && IsLowerHexOf(c.intentId, 32)
    && IsLowerHexOf(c.draftHash, 64) && c.indexedAtMs >= 0
  }

  function ClaimOn(s: Side, c: ClaimCall, o: OpenAnswer, fault: Fault): (Side, ClaimOutcome) {
    if !ClaimWellFormed(c) then (s, ClaimUnavailable)
    else
      var state := AfterClaimOpen(s.state, o);
      if state != Ready then (s.(state := state), ClaimUnavailable)
      else
        var (tables, outcome) := ClaimIn(s.tables, NormalizeDraftId(c.draftId).value, c.draftHash);
        match fault
        case NoFault => (Side(Ready, true, tables), outcome)
        case LostBefore => (Side(Unavailable, true, s.tables), ClaimUnavailable)
        case LostAfter => (Side(Unavailable, true, tables), ClaimUnavailable)
  }

  function IndexOn(s: Side, c: IndexCall, fault: Fault): (Side, IndexOutcome) {
    if !IndexWellFormed(c) || s.state != Ready then (s, IndexUnavailable)
    else
      var (tables, answer) :=
        IndexIn(s.tables, c.hash, IndexEntry(c.intentId, NormalizeDraftId(c.draftId).value, c.draftHash));
      match fault
      case LostBefore => (s.(state := Unavailable), IndexUnavailable)
      case LostAfter => (s.(state := Unavailable, tables := tables), IndexUnavailable)
      case NoFault =>
        match answer
        case IndexAnswer(outcome) => (s.(tables := tables), outcome)
        case MappingConflict => (s.(state := Unavailable), IndexConflict)
        case ForeignKeyMissing => (s.(state := Unavailable), IndexUnavailable)
  }

  function LookupOn(s: Side, hash: string, o: OpenAnswer, fault: Fault): (Side, HashLookup) {
    if !IsLowerHexOf(hash, 64) then (s, Missing)
    else
      var state := AfterLookupOpen(s.state, s.fileExists, o);
      if state != Ready then (s.(state := state), LookupUnavailable)
      else if !fault.NoFault? then (s.(state := Unavailable), LookupUnavailable)
      else
        (s.(state := Ready), if hash in s.tables.index then Found(s.tables.index[hash].intentId) else Missing)
  }

  // ---- What each outcome means ---------------------------------------------------------------------

  /** The instance can be used, or comes to be by opening the file. */
  predicate Opens(s: Side, o: OpenAnswer) {
    s.state == Ready || (s.state == Unopened && o == OpenWorks)
  }

  /** A claim is told the truth about its id: claimed if nobody had it, already consumed if
      this very draft had, in conflict if another one had; and if it is told nothing, it was
      malformed, the file could not be used, or the call was lost. */
  lemma ClaimOutcomes(s: Side, c: ClaimCall, o: OpenAnswer, fault: Fault)
    ensures
      var (s', outcome) := ClaimOn(s, c, o, fault);
      var served := ClaimWellFormed(c) && Opens(s, o) && fault.NoFault?;
      var owner := if ClaimWellFormed(c) && NormalizeDraftId(c.draftId).value in s.tables.drafts
                   then Some(s.tables.drafts[NormalizeDraftId(c.draftId).value]) else None;
      && (outcome == ClaimUnavailable <==> !served)
      && (outcome == Claimed <==> served && owner.None?)
      && (outcome == AlreadyConsumed <==> served && owner == Some(c.draftHash))
      && (outcome == ClaimConflict <==> served && owner.Some? && owner.value != c.draftHash)
  {
  }

  /** And a claim leaves the tables as they are, unless nobody had the id: then it records
      it, also when the answer gets lost on the way back. */
  lemma ClaimRecords(s: Side, c: ClaimCall, o: OpenAnswer, fault: Fault)
    ensures
      var tables := ClaimOn(s, c, o, fault).0.tables;
      if ClaimWellFormed(c) && Opens(s, o) && !fault.LostBefore?
         && NormalizeDraftId(c.draftId).value !in s.tables.drafts
      then tables == Tables(s.tables.drafts[NormalizeDraftId(c.draftId).value := c.draftHash], s.tables.index)
      else tables == s.tables
  {
  }

  /** An index call is told the truth about its pair: present if the hash already names the
      intent, in conflict if either is otherwise taken, indexed if both were free and the
      draft was claimed with its hash. */
  lemma IndexOutcomes(s: Side, c: IndexCall, fault: Fault)
    requires IndexWellFormed(c) && s.state == Ready && fault.NoFault?
    ensures
      var (s', outcome) := IndexOn(s, c, fault);
      var id := NormalizeDraftId(c.draftId).value;
      var present := c.hash in s.tables.index && s.tables.index[c.hash].intentId == c.intentId;
      var free := c.hash !in s.tables.index && forall h :: h in s.tables.index ==> s.tables.index[h].intentId != c.intentId;
      var claimed := id in s.tables.drafts && s.tables.drafts[id] == c.draftHash;
      && (outcome == AlreadyPresent <==> present)
      && (outcome == IndexConflict <==> !present && !free)
      && (outcome == Indexed <==> free && claimed)
      && (outcome == IndexUnavailable <==> free && !claimed)
      && s'.tables == (if free && claimed then
                         s.tables.(index := s.tables.index[c.hash := IndexEntry(c.intentId, id, c.draftHash)])
                       else s.tables)
  {
  }

  /** A first claim that could not even look for the file may be repeated: the next one that
      opens it is served. One that failed to open it, and a first lookup that failed in
      either way, end the service of this instance. */
  lemma FirstUse(s: Side, c: ClaimCall, hash: string, o: OpenAnswer, fault: Fault, again: ClaimCall)
    requires s.state == Unopened && ClaimWellFormed(c) && ClaimWellFormed(again) && IsLowerHexOf(hash, 64)
    ensures
      ClaimOn(ClaimOn(s, c, ExistsCheckFails, fault).0, again, OpenWorks, NoFault).1 != ClaimUnavailable
    ensures ClaimOn(ClaimOn(s, c, OpenFails, fault).0, again, o, NoFault).1 == ClaimUnavailable
    ensures
      s.fileExists ==>
        ClaimOn(LookupOn(s, hash, ExistsCheckFails, fault).0, again, o, NoFault).1 == ClaimUnavailable
        && ClaimOn(LookupOn(s, hash, OpenFails, fault).0, again, o, NoFault).1 == ClaimUnavailable
    ensures !s.fileExists && o != ExistsCheckFails ==> LookupOn(s, hash, o, fault) == (s, LookupUnavailable)
  {
  }

  /** A lookup is told the truth about its hash, and changes no table and no file. */
  lemma LookupOutcomes(s: Side, hash: string, o: OpenAnswer, fault: Fault)
    ensures
      var (s', r) := LookupOn(s, hash, o, fault);
      var usable := s.state == Ready || (s.state == Unopened && s.fileExists && o == OpenWorks);
      && s'.tables == s.tables && s'.fileExists == s.fileExists
      && if !(|hash| == 64 && All(hash, IsLowerHex)) then r == Missing
         else if !usable || !fault.NoFault? then r == LookupUnavailable
         else r == if hash in s.tables.index then Found(s.tables.index[hash].intentId) else Missing
  {
  }

  // ---- The instance ---------------------------------------------------------------------------------

  class IntentSidecar {
    const file: SidecarFile
    var state: InstanceState

    constructor (file: SidecarFile)
      ensures this.file == file && state == Unopened
    {
      this.file, state := file, Unopened;
    }

    function Now(): Side
      reads this, file
    {
      Side(state, file.exists_, file.tables)
    }

    method ClaimDraft(c: ClaimCall, open: OpenAnswer, fault: Fault) returns (outcome: ClaimOutcome)
      modifies this`state, file
      ensures (Now(), outcome) == ClaimOn(old(Now()), c, open, fault)
    {
      var id := NormalizeDraftId(c.draftId);
      if id.None? || !IsLowerHexOf(c.draftHash, 64) || c.consumedAtMs < 0 {
        return ClaimUnavailable;
      }
      PoolForClaim(open);
      if state != Ready {
        return ClaimUnavailable;
      }
      if fault.LostBefore? {
        state := Unavailable;
        return ClaimUnavailable;
      }
      if id.value !in file.tables.drafts {
        file.tables := file.tables.(drafts := file.tables.drafts[id.value := c.draftHash]);
        outcome := Claimed;
      } else if file.tables.drafts[id.value] == c.draftHash {
        outcome := AlreadyConsumed;
      } else {
        outcome := ClaimConflict;
      }
      if fault.LostAfter? {
        state := Unavailable;
        outcome := ClaimUnavailable;
      }
    }

    method PoolForClaim(open: OpenAnswer)
      modifies this`state, file
      ensures state == AfterClaimOpen(old(state), open)
      ensures file.exists_ == (old(file.exists_) || state == Ready) && file.tables == old(file.tables)
    {
      if state == Ready {
        file.exists_ := true;
        return;
      }
      if state == Unavailable || open.ExistsCheckFails? {
        return;
      }
      if open.OpenFails? {
        state := Unavailable;
        return;
      }
      file.exists_ := true;
      state := Ready;
    }

    method IndexHash(c: IndexCall, fault: Fault) returns (outcome: IndexOutcome)
      modifies this`state, file
      ensures (Now(), outcome) == IndexOn(old(Now()), c, fault)
    {
      var id := NormalizeDraftId(c.draftId);
      if id.None? || !IsLowerHexOf(c.hash, 64) || !IsLowerHexOf(c.intentId, 32) || !IsLowerHexOf(c.draftHash, 64)
         || c.indexedAtMs < 0
      {
        return IndexUnavailable;
      }
      if state != Ready {
        return IndexUnavailable;
      }
      if fault.LostBefore? {
        state := Unavailable;
        return IndexUnavailable;
      }
      var (tables, answer) := IndexIn(file.tables, c.hash, IndexEntry(c.intentId, id.value, c.draftHash));
      file.tables := tables;
      if fault.LostAfter? || answer.ForeignKeyMissing? {
        state := Unavailable;
        return IndexUnavailable;
      }
      if answer.MappingConflict? {
        state := Unavailable;
        return IndexConflict;
      }
      outcome := answer.outcome;
    }

    method LookupHash(hash: string, open: OpenAnswer, fault: Fault) returns (r: HashLookup)
      modifies this`state
      ensures (Now(), r) == LookupOn(old(Now()), hash, open, fault)
    {
      if !IsLowerHexOf(hash, 64) {
        return Missing;
      }
      if state == Unopened {
        if open.ExistsCheckFails? {
          state := Unavailable;
        } else if file.exists_ {
          state := if open.OpenWorks? then Ready else Unavailable;
        }
      }
      if state != Ready {
        return LookupUnavailable;
      }
      if !fault.NoFault? {
        state := Unavailable;
        return LookupUnavailable;
      }
      r := if hash in file.tables.index then Found(file.tables.index[hash].intentId) else Missing;
    }
  }

  // ---- What every sequence of calls keeps -------------------------------------------------------------

  datatype Call =
    | CallClaim(claim: ClaimCall, open: OpenAnswer, fault: Fault)
    | CallIndex(index: IndexCall, fault: Fault)
    | CallLookup(hash: string, open: OpenAnswer, fault: Fault)
    | Restart

  /** One call, or a restart of the server: the file stays, the instance is new. */
  function CallOn(s: Side, call: Call): Side {
    match call
    case CallClaim(claim, open, fault) => ClaimOn(s, claim, open, fault).0
    case CallIndex(index, fault) => IndexOn(s, index, fault).0
    case CallLookup(hash, open, fault) => LookupOn(s, hash, open, fault).0
    case Restart => s.(state := Unopened)
  }

  function CallsOn(s: Side, calls: seq<Call>): Side
    decreases |calls|
  {
    if calls == [] then s else CallsOn(CallOn(s, calls[0]), calls[1..])
  }

  /** One-to-one, and every entry references a claimed draft. */
  ghost predicate TablesOk(t: Tables) {
    && (forall h :: h in t.index ==>
          t.index[h].draftId in t.drafts && t.drafts[t.index[h].draftId] == t.index[h].draftHash)
    && (forall g, h :: g in t.index && h in t.index && t.index[g].intentId == t.index[h].intentId ==> g == h)
    && (forall h :: h in t.index ==> IsLowerHexOf(h, 64) && IsLowerHexOf(t.index[h].intentId, 32))
    && (forall d :: d in t.drafts ==> IsLowerHexOf(d, 32) && IsLowerHexOf(t.drafts[d], 64))
  }

  /** Append-only: nothing recorded is ever changed or dropped. */
  ghost predicate OnlyAppended(t: Tables, t': Tables) {
    && (forall d :: d in t.drafts ==> d in t'.drafts && t'.drafts[d] == t.drafts[d])
    && (forall h :: h in t.index ==> h in t'.index && t'.index[h] == t.index[h])
  }

  lemma NormalizedIsLowerHex(value: string)
    requires NormalizeDraftId(value).Some?
    ensures IsLowerHexOf(NormalizeDraftId(value).value, 32)
  {
  }

  lemma ClaimKeepsTables(t: Tables, draftId: string, draftHash: string)
    requires TablesOk(t) && IsLowerHexOf(draftId, 32) && IsLowerHexOf(draftHash, 64)
    ensures TablesOk(ClaimIn(t, draftId, draftHash).0) && OnlyAppended(t, ClaimIn(t, draftId, draftHash).0)
  {
  }

  lemma IndexKeepsTables(t: Tables, hash: string, e: IndexEntry)
    requires TablesOk(t) && IsLowerHexOf(hash, 64) && IsLowerHexOf(e.intentId, 32)
    ensures TablesOk(IndexIn(t, hash, e).0) && OnlyAppended(t, IndexIn(t, hash, e).0)
  {
  }

  lemma ClaimCallKeepsTables(s: Side, c: ClaimCall, open: OpenAnswer, fault: Fault)
    requires TablesOk(s.tables)
    ensures TablesOk(ClaimOn(s, c, open, fault).0.tables)
    ensures OnlyAppended(s.tables, ClaimOn(s, c, open, fault).0.tables)
  {
    if ClaimWellFormed(c) {
      NormalizedIsLowerHex(c.draftId);
      ClaimKeepsTables(s.tables, NormalizeDraftId(c.draftId).value, c.draftHash);
    }
  }

  lemma IndexCallKeepsTables(s: Side, c: IndexCall, fault: Fault)
    requires TablesOk(s.tables)
    ensures TablesOk(IndexOn(s, c, fault).0.tables)
    ensures OnlyAppended(s.tables, IndexOn(s, c, fault).0.tables)
  {
    if IndexWellFormed(c) {
      IndexKeepsTables(s.tables, c.hash, IndexEntry(c.intentId, NormalizeDraftId(c.draftId).value, c.draftHash));
    }
  }

  lemma CallKeepsTables(s: Side, call: Call)
    requires TablesOk(s.tables)
    ensures TablesOk(CallOn(s, call).tables) && OnlyAppended(s.tables, CallOn(s, call).tables)
  {
    match call
    case CallClaim(claim, open, fault) => ClaimCallKeepsTables(s, claim, open, fault);
    case CallIndex(c, fault) => IndexCallKeepsTables(s, c, fault);
    case _ =>
  }

  /** Over any calls, faults and restarts: the index stays one-to-one and bound to
      claimed drafts, tombstones are permanent, and entries never change. */
  lemma {:induction false} CallsKeepTables(s: Side, calls: seq<Call>)
    requires TablesOk(s.tables)
    ensures TablesOk(CallsOn(s, calls).tables) && OnlyAppended(s.tables, CallsOn(s, calls).tables)
    decreases |calls|
  {
    if calls != [] {
      CallKeepsTables(s, calls[0]);
      CallsKeepTables(CallOn(s, calls[0]), calls[1..]);
    }
  }

  /** A draft claimed once is never claimed again, whatever happens in between. */
  lemma ClaimedOnlyOnce(s: Side, first: ClaimCall, open: OpenAnswer, fault: Fault, between: seq<Call>,
                        second: ClaimCall, open': OpenAnswer, fault': Fault)
    requires TablesOk(s.tables)
    requires ClaimOn(s, first, open, fault).1 == Claimed
    requires NormalizeDraftId(first.draftId) == NormalizeDraftId(second.draftId)
    ensures
      var s' := CallsOn(ClaimOn(s, first, open, fault).0, between);
      ClaimOn(s', second, open', fault').1 != Claimed
  {
    CallKeepsTables(s, CallClaim(first, open, fault));
    CallsKeepTables(ClaimOn(s, first, open, fault).0, between);
  }

  predicate NoRestart(calls: seq<Call>) {
    forall i :: 0 <= i < |calls| ==> !calls[i].Restart?
  }

  /** Unavailable is absorbing within an instance: every later well-formed call is
      refused, and the tables are left alone until a restart. */
  lemma {:induction false} UnavailableAbsorbs(s: Side, calls: seq<Call>)
    requires s.state == Unavailable && NoRestart(calls)
    ensures CallsOn(s, calls) == s
    ensures forall c, open, fault :: ClaimOn(s, c, open, fault).1 == ClaimUnavailable
    ensures forall c, fault :: IndexOn(s, c, fault).1 == IndexUnavailable
    ensures forall h, open, fault :: IsLowerHexOf(h, 64) ==> LookupOn(s, h, open, fault).1 == LookupUnavailable
    decreases |calls|
  {
    if calls != [] {
      assert CallOn(s, calls[0]) == s;
      UnavailableAbsorbs(s, calls[1..]);
    }
  }

  /** Call j indexed this hash for this intent, as an open instance, without losing the
      call on the way; and it was the call that inserted the entry. */
  ghost predicate IndexedAt(s: Side, calls: seq<Call>, j: nat, hash: string, intentId: string) {
    && j < |calls| && calls[j].CallIndex? && !calls[j].fault.LostBefore?
    && calls[j].index.hash == hash && calls[j].index.intentId == intentId && IndexWellFormed(calls[j].index)
    && var before := CallsOn(s, calls[..j]);
       && before.state == Ready
       && IndexIn(before.tables, hash, EntryOf(calls[j].index)).1 == IndexAnswer(Indexed)
  }

  function EntryOf(c: IndexCall): IndexEntry
    requires IndexWellFormed(c)
  {
    IndexEntry(c.intentId, NormalizeDraftId(c.draftId).value, c.draftHash)
  }

  /** An entry that one call adds was added by a successful index call. */
  lemma CallIndexes(s: Side, call: Call, hash: string)
    requires hash in CallOn(s, call).tables.index
    requires hash !in s.tables.index
    ensures call.CallIndex? && !call.fault.LostBefore? && IndexWellFormed(call.index) && call.index.hash == hash
    ensures s.state == Ready && IndexIn(s.tables, hash, EntryOf(call.index)).1 == IndexAnswer(Indexed)
    ensures CallOn(s, call).tables.index[hash] == EntryOf(call.index)
  {
  }

  lemma CallKeepsEntry(s: Side, call: Call, hash: string)
    requires hash in s.tables.index
    ensures hash in CallOn(s, call).tables.index && CallOn(s, call).tables.index[hash] == s.tables.index[hash]
  {
  }

  lemma {:induction false} EntriesWereIndexed(s: Side, calls: seq<Call>, hash: string)
    requires hash in CallsOn(s, calls).tables.index
    ensures
      var intentId := CallsOn(s, calls).tables.index[hash].intentId;
      || (hash in s.tables.index && s.tables.index[hash].intentId == intentId)
      || exists j: nat :: IndexedAt(s, calls, j, hash, intentId)
    decreases |calls|
  {
    if calls != [] {
      var next, intentId := CallOn(s, calls[0]), CallsOn(s, calls).tables.index[hash].intentId;
      EntriesWereIndexed(next, calls[1..], hash);
      if hash in s.tables.index {
        CallKeepsEntry(s, calls[0], hash);
      }
      if exists j: nat :: IndexedAt(next, calls[1..], j, hash, intentId) {
        var j: nat :| IndexedAt(next, calls[1..], j, hash, intentId);
        assert calls[..j + 1][1..] == calls[1..][..j];
        assert IndexedAt(s, calls, j + 1, hash, intentId);
      } else if hash !in s.tables.index {
        CallIndexes(s, calls[0], hash);
        assert IndexedAt(s, calls, 0, hash, intentId);
      }
    }
  }

  /** A lookup finds only what was indexed: over any calls, faults and restarts on a
      file that began empty, a found intent was inserted for that hash by a call that
      named both. */
  lemma FoundWasIndexed(s: Side, calls: seq<Call>, hash: string, open: OpenAnswer, fault: Fault, intentId: string)
    requires s.tables == EMPTY_TABLES
    requires LookupOn(CallsOn(s, calls), hash, open, fault).1 == Found(intentId)
    ensures exists j: nat :: IndexedAt(s, calls, j, hash, intentId)
  {
    EntriesWereIndexed(s, calls, hash);
  }

  /** An index conflict or any storage error closes the instance. */
  lemma ErrorsCloseTheInstance(s: Side, c: IndexCall, fault: Fault)
    requires s.state == Ready && IndexWellFormed(c)
    ensures
      var (s', outcome) := IndexOn(s, c, fault);
      (outcome == IndexConflict || outcome == IndexUnavailable) <==> s'.state == Unavailable
  {
  }
}
