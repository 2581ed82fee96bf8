// Where the payments on record come from, and when two intents can have been paid
// for by one transaction.
module Payments {
  import opened Prelude
  import opened Codecs
  import opened WatchRules
  import opened StateStore
  import opened FundingProof
  import opened ConfirmFunding
  import opened Lifecycle
  import opened LifecycleInvariant
  import opened LifecycleSafety
  import opened FundedRules

  // ---- Where payments on record come from ------------------------------------------------------------

  /** At step j a confirmation call for this intent and signature was handed this
      transaction, and found that it pays for the row as read. */
  ghost predicate ReadAt(lib: Library, actions: seq<Action>, j: nat, key: (string, string), tx: Observation) {
    && j < |actions| && actions[j].ConfirmSteps?
    && actions[j].confirmInput.reader == Some(ReadConfirmed(tx))
    && var confirmers := Run(lib, actions[..j]).confirmers;
       && actions[j].k in confirmers
       && confirmers[actions[j].k].params == Params(key.0, key.1) && confirmers[actions[j].k].pc.Reading?
       && VerifyFundingTransaction(lib, tx, confirmers[actions[j].k].pc.row.terms).Ok?
  }

  lemma ReadMoveRecords(lib: Library, d: Data, f: Confirmer, i: ConfirmInput, key: (string, string))
    requires key in ConfirmMove(lib, d, f, i).0.proofs
    requires key !in d.proofs || d.proofs[key] != ConfirmMove(lib, d, f, i).0.proofs[key]
    ensures f.pc.Reading? && f.params == Params(key.0, key.1)
    ensures i.reader == Some(ReadConfirmed(ConfirmMove(lib, d, f, i).0.proofs[key]))
    ensures VerifyFundingTransaction(lib, ConfirmMove(lib, d, f, i).0.proofs[key], f.pc.row.terms).Ok?
  {
  }

  lemma OtherStepsRecordNothing(lib: Library, w: World, a: Action, w': World)
    requires w' == Step(lib, w, a) && !(a.ConfirmSteps? && a.k in w.confirmers)
    ensures w'.d.proofs == w.d.proofs
  {
    if a.WatcherSteps? && a.k in w.watchers {
      WatcherRecordsNothing(w.d, w.watchers[a.k], a.input);
    }
  }

  lemma WatcherRecordsNothing(d: Data, v: Watcher, i: WatcherInput)
    ensures WatcherMove(d, v, i).0.proofs == d.proofs
  {
  }

  lemma LastStepRecords(lib: Library, w: World, a: Action, key: (string, string), tx: Observation)
    requires key in Step(lib, w, a).d.proofs && Step(lib, w, a).d.proofs[key] == tx
    requires key !in w.d.proofs || w.d.proofs[key] != tx
    ensures a.ConfirmSteps? && a.k in w.confirmers && a.confirmInput.reader == Some(ReadConfirmed(tx))
    ensures w.confirmers[a.k].params == Params(key.0, key.1) && w.confirmers[a.k].pc.Reading?
    ensures VerifyFundingTransaction(lib, tx, w.confirmers[a.k].pc.row.terms).Ok?
  {
    if !(a.ConfirmSteps? && a.k in w.confirmers) {
      OtherStepsRecordNothing(lib, w, a, Step(lib, w, a));
    }
    ReadMoveRecords(lib, w.d, w.confirmers[a.k], a.confirmInput, key);
  }

  lemma ReadAtStays(lib: Library, actions: seq<Action>, n: nat, j: nat, key: (string, string), tx: Observation)
    requires n <= |actions| && ReadAt(lib, actions[..n], j, key, tx)
    ensures ReadAt(lib, actions, j, key, tx)
  {
    assert actions[..n][..j] == actions[..j];
  }

  /** A payment gets on record in one way only: the transaction was read for that
      signature and verified against the row of that intent. */
  lemma {:induction false} PaymentsWereRead(lib: Library, actions: seq<Action>, key: (string, string))
    requires key in DataAfter(lib, actions).proofs
    ensures exists j: nat :: ReadAt(lib, actions, j, key, DataAfter(lib, actions).proofs[key])
  {
    var n := |actions| - 1;
    var w, tx := Run(lib, actions[..n]), DataAfter(lib, actions).proofs[key];
    if key in w.d.proofs && w.d.proofs[key] == tx {
      PaymentsWereRead(lib, actions[..n], key);
      var j: nat :| ReadAt(lib, actions[..n], j, key, tx);
      ReadAtStays(lib, actions, n, j, key, tx);
    } else {
      LastStepRecords(lib, w, actions[n], key, tx);
      assert ReadAt(lib, actions, n, key, tx);
    }
  }

  // ---- One payment, two intents ------------------------------------------------------------------------

  /** Every read of one signature shows the one transaction of that signature. */
  ghost predicate ReadsAgree(lib: Library, actions: seq<Action>, chain: string -> Observation) {
    forall j: nat, key, tx :: ReadAt(lib, actions, j, key, tx) ==> tx == chain(key.1)
  }

  /** A row's funding signature names a transaction that pays for the row. */
  lemma FundedByItsSignature(lib: Library, actions: seq<Action>, chain: string -> Observation, id: string)
    requires ReadsAgree(lib, actions, chain)
    requires id in DataAfter(lib, actions).rows && DataAfter(lib, actions).rows[id].fundingSignature.Some?
    ensures
      var row := DataAfter(lib, actions).rows[id];
      Paid(lib, chain(row.fundingSignature.value), row.terms)
  {
    FundedIsPaidOnRecord(lib, actions, id);
    var d := DataAfter(lib, actions);
    var key := (id, d.rows[id].fundingSignature.value);
    PaymentsWereRead(lib, actions, key);
    var j: nat :| ReadAt(lib, actions, j, key, d.proofs[key]);
  }

  /** Rows are kept under the id in their terms. */
  ghost predicate KeyedById(rows: Rows) {
    forall id :: id in rows ==> rows[id].terms.intentId == id
  }

  lemma StepKeepsKeys(lib: Library, w: World, a: Action, rows: Rows)
    requires Inv(lib, w) && KeyedById(w.d.rows) && rows == Step(lib, w, a).d.rows
    ensures KeyedById(rows)
  {
    StepKeepsRecords(lib, w, a);
    forall id | id in rows ensures rows[id].terms.intentId == id {
      if id in w.d.rows {
        assert RowKept(w.d.rows[id], rows[id]);
      } else {
        OnlyInsertsAdd(lib, w, a, id);
      }
    }
  }

  lemma WatcherAddsNoRow(d: Data, v: Watcher, i: WatcherInput)
    ensures WatcherMove(d, v, i).0.rows.Keys == d.rows.Keys
  {
  }

  lemma ConfirmerAddsNoRow(lib: Library, d: Data, f: Confirmer, i: ConfirmInput)
    ensures ConfirmMove(lib, d, f, i).0.rows.Keys == d.rows.Keys
  {
  }

  lemma OnlyInsertsAdd(lib: Library, w: World, a: Action, id: string)
    requires id in Step(lib, w, a).d.rows && id !in w.d.rows
    ensures a.InsertFundingRow? && id == a.terms.intentId && Step(lib, w, a).d.rows[id].terms == a.terms
  {
    assert id in Step(lib, w, a).d.rows.Keys && id !in w.d.rows.Keys;
    if a.WatcherSteps? && a.k in w.watchers {
      WatcherAddsNoRow(w.d, w.watchers[a.k], a.input);
    }
    if a.ConfirmSteps? && a.k in w.confirmers {
      ConfirmerAddsNoRow(lib, w.d, w.confirmers[a.k], a.confirmInput);
    }
  }

  lemma {:induction false} RowsAreKeyedById(lib: Library, actions: seq<Action>)
    ensures KeyedById(DataAfter(lib, actions).rows)
  {
    if actions != [] {
      var n := |actions| - 1;
      RowsAreKeyedById(lib, actions[..n]);
      InvariantHolds(lib, actions[..n]);
      StepKeepsKeys(lib, Run(lib, actions[..n]), actions[n], DataAfter(lib, actions).rows);
    }
  }

  /** The id of a funded row is the text of a rule id. */
  lemma FundedIdsAreRuleIds(lib: Library, actions: seq<Action>, id: string)
    requires id in DataAfter(lib, actions).rows && DataAfter(lib, actions).rows[id].fundingSignature.Some?
    ensures DataAfter(lib, actions).rows[id].terms.intentId == id && |id| == 32
  {
    RowsAreKeyedById(lib, actions);
    FundedRowsMatch(lib, actions, id);
  }

  /** In every run two funded intents were paid for by different transactions, unless
      one transaction carries both memos: then it has two of them at least, rows with one
      payer account agree on payer and amount, and rows with one receiving account on the
      amount, which reached that account once. */
  lemma DistinctPaymentsUnlessBothMemos(lib: Library, actions: seq<Action>, chain: string -> Observation, a: string,
                                        b: string)
    requires ReadsAgree(lib, actions, chain)
    requires a in DataAfter(lib, actions).rows && b in DataAfter(lib, actions).rows
    requires DataAfter(lib, actions).rows[a].fundingSignature.Some?
    requires DataAfter(lib, actions).rows[a].fundingSignature == DataAfter(lib, actions).rows[b].fundingSignature
    ensures
      var x, y := DataAfter(lib, actions).rows[a].terms, DataAfter(lib, actions).rows[b].terms;
      var tx := chain(DataAfter(lib, actions).rows[a].fundingSignature.value);
      && Memo(x) in tx.memos && Memo(y) in tx.memos && (|tx.memos| == 1 ==> a == b)
      && (x.userUsdcAta == y.userUsdcAta ==> x.userWallet == y.userWallet && x.amountRaw == y.amountRaw)
      && (x.controlledUsdcAta == y.controlledUsdcAta ==>
            && x.amountRaw == y.amountRaw
            && MovedBy(tx, x.controlledUsdcAta, x.controlledWallet, x.amountRaw, true))
  {
    FundedByItsSignature(lib, actions, chain, a);
    FundedByItsSignature(lib, actions, chain, b);
    FundedIdsAreRuleIds(lib, actions, a);
    FundedIdsAreRuleIds(lib, actions, b);
    var d := DataAfter(lib, actions);
    OnePaymentTwoRows(lib, chain(d.rows[a].fundingSignature.value), d.rows[a].terms, d.rows[b].terms);
  }

  lemma OnePaymentTwoRows(lib: Library, tx: Observation, x: FundingTerms, y: FundingTerms)
    requires Paid(lib, tx, x) && Paid(lib, tx, y) && |x.intentId| == |y.intentId|
    ensures Memo(x) in tx.memos && Memo(y) in tx.memos && (|tx.memos| == 1 ==> x.intentId == y.intentId)
    ensures x.userUsdcAta == y.userUsdcAta ==> x.userWallet == y.userWallet && x.amountRaw == y.amountRaw
    ensures
      x.controlledUsdcAta == y.controlledUsdcAta ==>
        x.amountRaw == y.amountRaw && MovedBy(tx, x.controlledUsdcAta, x.controlledWallet, x.amountRaw, true)
  {
    if |tx.memos| == 1 {
      OneMemoPaysForOne(lib, tx, x, y);
    }
    if x.userUsdcAta == y.userUsdcAta {
      VerifiedIffPaid(lib, tx, x);
      VerifiedIffPaid(lib, tx, y);
      SamePaymentSameParties(lib, tx, x, y);
    }
    if x.controlledUsdcAta == y.controlledUsdcAta {
      SharedPaymentMovesOnce(lib, tx, x, y);
    }
  }
}
