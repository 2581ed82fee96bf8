// From a scan report to execution attempts: which rows a cycle may execute, what
// a fresh inspection must show before the lease, and where a cycle stops.
module ExecuteCycle {
  import opened Prelude
  import opened Codecs
  import opened WatchRules
  import opened CandidateReports
  import opened Candidates
  import Execution

  datatype ArtifactError = ScanUnsafe | DuplicateReadyIntent | ReadyRowMissing | ReadyRowMalformed

  datatype Row = Row(ready: bool, hasError: bool, intentId: Option<string>, ruleIdHex: Option<string>,
                     candidate: Option<CandidateReport>)

  datatype Inspection = Inspection(row: Row, plan: Option<PlanInputs>)

  // ---- The ready ids of a scan -----------------------------------------------------------

  /** The ids of the ready rows, in report order. */
  function ReadyIds(rows: seq<Row>): seq<Option<string>> {
    if rows == [] then [] else (if rows[0].ready then [rows[0].intentId] else []) + ReadyIds(rows[1..])
  }

  lemma {:induction false} ReadyIdsSnoc(rows: seq<Row>, row: Row)
    ensures ReadyIds(rows + [row]) == ReadyIds(rows) + if row.ready then [row.intentId] else []
  {
    if rows == [] {
      assert rows + [row] == [row];
      assert [row][1..] == [];
    } else {
      ReadyIdsSnoc(rows[1..], row);
      assert (rows + [row])[1..] == rows[1..] + [row];
    }
  }

  predicate AllNamed(ids: seq<Option<string>>) {
    forall i :: 0 <= i < |ids| ==> ids[i].Some?
  }

  predicate Distinct<T(==)>(s: seq<T>) {
    forall i, j :: 0 <= i < j < |s| ==> s[i] != s[j]
  }

  /** The ids before n are fine; the one at n is missing, or a repetition. */
  predicate FirstBadId(ids: seq<Option<string>>, n: nat, error: ArtifactError) {
    && n < |ids| && AllNamed(ids[..n]) && Distinct(ids[..n])
    && if ids[n].None? then error.ReadyRowMalformed? else ids[n] in ids[..n] && error.DuplicateReadyIntent?
  }

  /** Nothing is executed from an incomplete or inconsistent scan: ids come out
      exactly when there was no scan error and the ready rows carry distinct ids,
      and then they are those ids in report order. */
  method ExecuteReadyIntentIds(scanErrors: nat, rows: seq<Row>) returns (r: Result<seq<string>, ArtifactError>)
    ensures r.Ok? <==> scanErrors == 0 && AllNamed(ReadyIds(rows)) && Distinct(ReadyIds(rows))
    ensures r.Ok? ==> |r.value| == |ReadyIds(rows)|
                      && forall i :: 0 <= i < |r.value| ==> ReadyIds(rows)[i] == Some(r.value[i])
    ensures scanErrors != 0 ==> r == Err(ScanUnsafe)
    ensures scanErrors == 0 && r.Err? ==> exists n: nat :: FirstBadId(ReadyIds(rows), n, r.error)
  {
    if scanErrors != 0 {
      return Err(ScanUnsafe);
    }
    var seen: set<string> := {};
    var ids: seq<string> := [];
    for k := 0 to |rows|
      invariant |ids| == |ReadyIds(rows[..k])|
      invariant forall i :: 0 <= i < |ids| ==> ReadyIds(rows[..k])[i] == Some(ids[i])
      invariant forall id :: id in seen <==> id in ids
      invariant Distinct(ids)
    {
      ReadyIdsSnoc(rows[..k], rows[k]);
      assert rows[..k + 1] == rows[..k] + [rows[k]];
      if rows[k].ready {
        ReadyIdsPrefix(rows, k + 1);
        var n := |ids|;
        assert ReadyIds(rows)[n] == rows[k].intentId;
        assert forall i :: 0 <= i < n ==> ReadyIds(rows)[i] == Some(ids[i]);
        if rows[k].intentId.None? {
          assert FirstBadId(ReadyIds(rows), n, ReadyRowMalformed);
          return Err(ReadyRowMalformed);
        }
        var id := rows[k].intentId.value;
        if id in seen {
          var i :| 0 <= i < |ids| && ids[i] == id;
          assert ReadyIds(rows)[..n][i] == ReadyIds(rows)[i] == ReadyIds(rows)[n];
          assert FirstBadId(ReadyIds(rows), n, DuplicateReadyIntent);
          return Err(DuplicateReadyIntent);
        }
        seen := seen + {id};
        ids := ids + [id];
      }
    }
    assert rows[..|rows|] == rows;
    r := Ok(ids);
  }

  lemma {:induction false} ReadyIdsPrefix(rows: seq<Row>, k: nat)
    requires k <= |rows|
    ensures ReadyIds(rows[..k]) <= ReadyIds(rows)
  {
    if k > 0 {
      ReadyIdsPrefix(rows[1..], k - 1);
      assert rows[..k][1..] == rows[1..][..k - 1];
    }
  }

  // ---- The fresh inspection of one row ------------------------------------------------------

  function RevalidatedCandidate(inspection: Inspection, expected: string)
    : Result<Execution.Candidate, ArtifactError>
  {
    var row := inspection.row;
    if !row.ready || row.hasError then Err(ReadyRowMissing)
    else if row.intentId.None? || row.ruleIdHex.None? || row.intentId != row.ruleIdHex then Err(ReadyRowMalformed)
    else if row.intentId.value != expected then Err(ReadyRowMissing)
    else
      var ruleId := DecodeRuleId(row.ruleIdHex.value);
      if ruleId.None? || row.candidate.None? then Err(ReadyRowMalformed)
      else
        var candidate := row.candidate.value;
        if candidate.classification != Ready || candidate.intentId != row.intentId || candidate.ruleIdHex != row.ruleIdHex
           || candidate.clocks.wallClockEligible != Some(true) || candidate.clocks.slotClockEligible != Some(true) then
          Err(ReadyRowMalformed)
        else if inspection.plan.None? || inspection.plan.value.report != candidate then Err(ReadyRowMalformed)
        else if candidate.amounts.None? || !candidate.amounts.value.allEqualAndNonzero then Err(ReadyRowMalformed)
        else
          var amount, amounts := inspection.plan.value.inputAmountRaw, candidate.amounts.value;
          if amount == 0 || amounts.action != Some(amount) || amounts.ruleMax != Some(amount)
             || amounts.funding != Some(amount) then Err(ReadyRowMalformed)
          else Ok(Execution.Candidate(expected, ruleId.value, amount))
  }

  /** What an extracted candidate stands for: the expected intent, whose id is the
      canonical text of its rule id, with one amount on all sides. */
  lemma RevalidatedMeans(inspection: Inspection, expected: string)
    requires RevalidatedCandidate(inspection, expected).Ok?
    ensures
      var c := RevalidatedCandidate(inspection, expected).value;
      && c.intentId == expected && Execution.RuleKey(c) == expected
      && inspection.plan.Some? && c.amountRaw == inspection.plan.value.inputAmountRaw > 0
      && inspection.plan.value.report.classification == Ready
  {
    var c := RevalidatedCandidate(inspection, expected).value;
    DecodeRuleIdIff(expected, c.ruleId);
  }

  /** The inspection shows a ready row without error, named twice by the text of one rule id;
      a plan and a report that belong together, ready under that name and by both clocks;
      and one positive amount on every side. */
  predicate Shows(inspection: Inspection, c: Execution.Candidate) {
    var row, name := inspection.row, Some(HexLower(c.ruleId));
    && row.ready && !row.hasError && row.intentId == row.ruleIdHex == name
    && inspection.plan.Some? && row.candidate == Some(inspection.plan.value.report)
    && var report, amount := inspection.plan.value.report, Some(inspection.plan.value.inputAmountRaw);
       && report.classification == Ready && report.intentId == report.ruleIdHex == name
       && report.clocks.wallClockEligible == report.clocks.slotClockEligible == Some(true)
       && report.amounts == Some(AmountReport(amount, amount, amount, true))
       && amount == Some(c.amountRaw) && c.amountRaw > 0
  }

  /** A candidate is extracted exactly from such an inspection, under the expected name. */
  lemma RevalidatedIff(inspection: Inspection, expected: string, c: Execution.Candidate)
    ensures
      RevalidatedCandidate(inspection, expected) == Ok(c) <==>
        c.intentId == expected == HexLower(c.ruleId) && Shows(inspection, c)
  {
    DecodeRuleIdIff(expected, c.ruleId);
    var row := inspection.row;
    if row.ruleIdHex == Some(expected) && DecodeRuleId(expected).Some? {
      DecodeRuleIdIff(expected, DecodeRuleId(expected).value);
    }
  }

  /** Otherwise the row is missing, when it is not ready or well named but another's; and
      malformed in every other case. */
  lemma NotRevalidatedTellsWhy(inspection: Inspection, expected: string)
    requires RevalidatedCandidate(inspection, expected).Err?
    ensures
      var row, error := inspection.row, RevalidatedCandidate(inspection, expected).error;
      && (error.ReadyRowMissing? || error.ReadyRowMalformed?)
      && (error.ReadyRowMissing? <==>
            || !row.ready || row.hasError
            || (row.intentId.Some? && row.intentId == row.ruleIdHex && row.intentId != Some(expected)))
  {
  }

  /** A plan the validator produced is always accepted: its inspection revalidates
      to the candidate of that very row, rule and amount. */
  lemma ValidatedPlanRevalidates(lib: Library, pins: Pins, f: FundingSnapshot, r: WatchRule, before: PreflightClocks,
                                 facts: ChainFacts, after: Clocks)
    requires StaticallyReady(lib, pins, f, r, before)
    requires
      var p := PreflightAnswer(lib, pins, f, r, before).prepared;
      p.action.SolendDeposit? && ChainReady(pins, p, facts, f.expiresAtMs, r.expiresAtSlot, after)
    ensures PreflightAnswer(lib, pins, f, r, before).NeedsChain?
    ensures
      var p := PreflightAnswer(lib, pins, f, r, before).prepared;
      && WellPrepared(p)
      && var report := ChainReport(p, facts, after, [], Some(true));
         var row := Row(true, false, Some(f.intentId), Some(f.intentId), Some(report));
         RevalidatedCandidate(Inspection(row, Some(PlanOf(p, facts, report))), f.intentId)
         == Ok(Execution.Candidate(f.intentId, r.ruleId, f.amountRaw))
  {
    NeedsChainIffReady(lib, pins, f, r, before);
    PreparedIsWellPrepared(lib, pins, f, r, before);
    DecodeRuleIdIff(f.intentId, r.ruleId);
    ReadyIffNoFindings([]);
  }

  // ---- One cycle ----------------------------------------------------------------------------------

  /** What happens to one id of the cycle: its inspection, and the report of its
      attempt together with whether that report could be written out. */
  datatype Turn = Turn(inspection: Inspection, report: Execution.Report, reportWritten: bool)

  predicate StopsCycle(turn: Turn) {
    !turn.reportWritten || turn.report.abortRemainingCycle
  }

  predicate Attempts(turn: Turn, id: string) {
    RevalidatedCandidate(turn.inspection, id).Ok?
  }

  /** The ids among the first n that are attempted, in order. */
  function Attempted(ids: seq<string>, turns: seq<Turn>, n: nat): (s: seq<nat>)
    requires n <= |ids| == |turns|
    ensures forall k: nat :: k in s <==> k < n && Attempts(turns[k], ids[k])
    ensures forall a :: 0 <= a < |s| ==> s[a] < n
    ensures forall a, b :: 0 <= a < b < |s| ==> s[a] < s[b]
  {
    if n == 0 then [] else Attempted(ids, turns, n - 1) + if Attempts(turns[n - 1], ids[n - 1]) then [n - 1] else []
  }

  /** The first turn that is attempted and stops the cycle, or the end. */
  ghost predicate StopsAt(ids: seq<string>, turns: seq<Turn>, n: nat, aborted: bool)
    requires |ids| == |turns|
  {
    && n <= |ids|
    && (forall k :: 0 <= k < (if aborted then n - 1 else n) ==> !(Attempts(turns[k], ids[k]) && StopsCycle(turns[k])))
    && (if aborted then n > 0 && Attempts(turns[n - 1], ids[n - 1]) && StopsCycle(turns[n - 1]) else n == |ids|)
  }

  /** An attempt is made for an id only after a fresh inspection that passed, in the
      order of the ids; an unwritten report or a lost audit record ends the cycle,
      and nothing after it is attempted. */
  method RunCycle(ids: seq<string>, turns: seq<Turn>) returns (attempted: seq<nat>, n: nat, aborted: bool)
    requires |turns| == |ids|
    ensures StopsAt(ids, turns, n, aborted)
    ensures attempted == Attempted(ids, turns, n)
  {
    attempted, n, aborted := [], 0, false;
    while n < |ids|
      invariant n <= |ids| && !aborted
      invariant attempted == Attempted(ids, turns, n)
      invariant forall k :: 0 <= k < n ==> !(Attempts(turns[k], ids[k]) && StopsCycle(turns[k]))
    {
      var turn := turns[n];
      var candidate := RevalidatedCandidate(turn.inspection, ids[n]);
      n := n + 1;
      if candidate.Ok? {
        attempted := attempted + [n - 1];
        if !turn.reportWritten {
          aborted := true;
          return;
        }
        if turn.report.abortRemainingCycle {
          aborted := true;
          return;
        }
      }
    }
  }
}
