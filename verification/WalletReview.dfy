// Review and signing of one transaction, and the last check before submission.
// Everything that library code or the network decides is a parameter; the order
// of audit and signature is recorded in a trace.
module WalletReview {
  import opened Prelude
  import opened WatchRules
  import opened Policy
  import opened ExecutionPolicy

  // ---- The trace ------------------------------------------------------------------------

  /** What leaves the process: an audit record, or a message put before the key. */
  datatype Event = Audited(message: Message) | KeyUsed(message: Message)

  class Trace {
    var events: seq<Event>

    constructor ()
      ensures events == []
    {
      events := [];
    }

    method Record(event: Event)
      modifies this
      ensures events == old(events) + [event]
    {
      events := events + [event];
    }
  }

  // ---- The capturing signer --------------------------------------------------------------

  datatype Capture = Capture(signature: Signature, messageBytes: bytes, transactionBytes: bytes)

  /** What the wrapped signer does with a transaction it is handed; it gets the
      transaction by reference and may leave anything in it. */
  datatype InnerAnswer = InnerAnswer(signature: Signature, after: Transaction)

  /** A one-shot slot around a signer. */
  class CapturingSigner {
    const wire: Wire
    const trace: Trace
    var capture: Option<Capture>

    constructor (wire: Wire, trace: Trace)
      ensures this.wire == wire && this.trace == trace && capture == None
    {
      this.wire, this.trace, capture := wire, trace, None;
    }

    /** Captures a signed transaction only if the message came back unchanged, and
        never overwrites a capture. */
    method SignTransaction(tx: Transaction, inner: Option<InnerAnswer>) returns (r: Option<Signature>)
      modifies this`capture, trace
      ensures trace.events == old(trace.events) + [KeyUsed(tx.message)]
      ensures
        r.Some? <==>
          && inner.Some? && old(capture) == None
          && wire.messageBytes(inner.value.after.message) == wire.messageBytes(tx.message)
          && wire.encode(inner.value.after).Some?
      ensures
        r.Some? ==>
          && r.value == inner.value.signature
          && capture == Some(Capture(r.value, wire.messageBytes(tx.message), wire.encode(inner.value.after).value))
      ensures r.None? ==> capture == old(capture)
    {
      var before := wire.messageBytes(tx.message);
      trace.Record(KeyUsed(tx.message));
      if inner.None? {
        return None;
      }
      var after := wire.messageBytes(inner.value.after.message);
      if before != after {
        return None;
      }
      var encoded := wire.encode(inner.value.after);
      if encoded.None? {
        return None;
      }
      if capture.Some? {
        return None;
      }
      capture := Some(Capture(inner.value.signature, after, encoded.value));
      r := Some(inner.value.signature);
    }

    method TakeCapture() returns (r: Option<Capture>)
      modifies this`capture
      ensures r == old(capture) && capture == None
    {
      r := capture;
      capture := None;
    }
  }

  // ---- The reviewed transaction ---------------------------------------------------------------

  datatype Reviewed = Reviewed(
    signature: Signature,
    signer: PubkeyBytes,
    lastValidBlockHeight: u64,
    approvedMessageBytes: bytes,
    signedMessageBytes: bytes,
    signedTransactionBytes: bytes)

  function IndexOf(keys: seq<PubkeyBytes>, key: PubkeyBytes, from: nat): (r: Option<nat>)
    requires from <= |keys|
    ensures r.Some? ==> from <= r.value < |keys| && keys[r.value] == key
    ensures r.Some? ==> forall j :: from <= j < r.value ==> keys[j] != key
    ensures r.None? ==> forall j :: from <= j < |keys| ==> keys[j] != key
    decreases |keys| - from
  {
    if from == |keys| then None else if keys[from] == key then Some(from) else IndexOf(keys, key, from + 1)
  }

  /** The last check before submission. */
  function SubmissionBytes(wire: Wire, r: Reviewed): Result<bytes, WalletError> {
    if r.approvedMessageBytes != r.signedMessageBytes then Err(MessageBytesChanged)
    else
      match wire.decode(r.signedTransactionBytes)
      case None => Err(SerializationFailed)
      case Some(tx) =>
        if wire.messageBytes(tx.message) != r.approvedMessageBytes then Err(MessageBytesChanged)
        else
          match IndexOf(tx.message.accountKeys, r.signer, 0)
          case None => Err(SignatureInvalid)
          case Some(index) =>
            if index >= |tx.signatures| then Err(SignatureInvalid)
            else if r.signature == DEFAULT_SIGNATURE || tx.signatures[index] != r.signature then Err(SignatureInvalid)
            else if !wire.signaturesVerify(tx) then Err(SignatureInvalid)
            else Ok(r.signedTransactionBytes)
  }

  /** The wallet's first place among the keys of a transaction. */
  predicate SignsAt(tx: Transaction, signer: PubkeyBytes, i: nat) {
    && i < |tx.message.accountKeys| && tx.message.accountKeys[i] == signer
    && forall j :: 0 <= j < i ==> tx.message.accountKeys[j] != signer
  }

  /** Exactly the bytes of a verified transaction pass that says the approved message, under
      the reported signature in the signer's own slot. */
  lemma SubmissionIff(wire: Wire, r: Reviewed)
    ensures
      SubmissionBytes(wire, r) == Ok(r.signedTransactionBytes) <==>
        && r.approvedMessageBytes == r.signedMessageBytes && wire.decode(r.signedTransactionBytes).Some?
        && var tx := wire.decode(r.signedTransactionBytes).value;
           && wire.messageBytes(tx.message) == r.approvedMessageBytes && wire.signaturesVerify(tx)
           && r.signature != DEFAULT_SIGNATURE
           && exists i: nat :: SignsAt(tx, r.signer, i) && i < |tx.signatures| && tx.signatures[i] == r.signature
    ensures SubmissionBytes(wire, r).Ok? ==> SubmissionBytes(wire, r).value == r.signedTransactionBytes
  {
    var decoded := wire.decode(r.signedTransactionBytes);
    if decoded.Some? {
      var tx := decoded.value;
      var index := IndexOf(tx.message.accountKeys, r.signer, 0);
      if index.Some? {
        assert SignsAt(tx, r.signer, index.value);
      }
    }
  }

  /** What is refused is refused for its message first, then for what it cannot be read as,
      then for its signature. */
  lemma RefusedTellsWhy(wire: Wire, r: Reviewed)
    requires SubmissionBytes(wire, r).Err?
    ensures
      var decoded := wire.decode(r.signedTransactionBytes);
      match SubmissionBytes(wire, r).error
      case MessageBytesChanged =>
        || r.approvedMessageBytes != r.signedMessageBytes
        || (decoded.Some? && wire.messageBytes(decoded.value.message) != r.approvedMessageBytes)
      case SerializationFailed => decoded.None?
      case SignatureInvalid =>
        decoded.Some? && wire.messageBytes(decoded.value.message) == r.approvedMessageBytes == r.signedMessageBytes
      case _ => false
  {
  }

  // ---- Review and sign ----------------------------------------------------------------------------

  datatype SimulatedTransaction = SimulatedTransaction(inner: Transaction, simulation: Simulation, lastValid: u64)

  /** What the outside decides during one review. The simulation stage hands back
      some transaction; that it is the builder's is checked, not assumed. */
  datatype ReviewOutside = ReviewOutside(
    simulated: Option<SimulatedTransaction>,
    auditWrites: bool,
    nowSeconds: int,
    inner: Option<InnerAnswer>)

  datatype Review = Review(lib: Library, wire: Wire, pins: ExecutionPins, wallet: PubkeyBytes)

  /** The audit record is written only for the builder's message with a fresh
      blockhash and empty signature slots. */
  predicate FreshFromBuilder(wire: Wire, tx: Transaction, expected: bytes) {
    MatchesTemplate(wire, tx.message, expected) && tx.signatures == [DEFAULT_SIGNATURE] && wire.encode(tx).Some?
  }

  /** A transaction that is not the builder's is an integrity failure; one that cannot be
      written out is lost output. */
  function AuditError(wire: Wire, tx: Transaction, expected: bytes, writes: bool): Option<WalletError> {
    if FreshFromBuilder(wire, tx, expected) && writes then None
    else if MatchesTemplate(wire, tx.message, expected) && tx.signatures == [DEFAULT_SIGNATURE] then
      Some(AuditOutputFailed)
    else Some(AuditIntegrityFailed)
  }

  method EmitAudit(v: Review, tx: Transaction, expected: bytes, writes: bool, trace: Trace)
    returns (r: Result<(), WalletError>)
    modifies trace
    ensures r.Ok? <==> FreshFromBuilder(v.wire, tx, expected) && writes
    ensures trace.events == old(trace.events) + if r.Ok? then [Audited(tx.message)] else []
    ensures r.Err? ==> Some(r.error) == AuditError(v.wire, tx, expected, writes)
  {
    if !MatchesTemplate(v.wire, tx.message, expected) || tx.signatures != [DEFAULT_SIGNATURE] {
      return Err(AuditIntegrityFailed);
    }
    if v.wire.encode(tx).None? || !writes {
      return Err(AuditOutputFailed);
    }
    trace.Record(Audited(tx.message));
    r := Ok(());
  }

  function ContextOf(v: Review, summaries: seq<InstructionSummary>, s: Simulation, nowSeconds: int): Context {
    Context(v.lib.keyText(v.wallet), summaries, Some(s), MainnetBeta, nowSeconds)
  }

  /** Every use of the key comes after the audit record of that same message. */
  ghost predicate AuditedBeforeKey(events: seq<Event>, from: nat) {
    forall i :: from <= i < |events| && events[i].KeyUsed? ==>
      exists j :: from <= j < i && events[j] == Audited(events[i].message)
  }

  /** The whole condition for the key to be used: both shapes accepted, simulation
      passed, the audit record written, and an amount that has a policy. */
  predicate Approvable(v: Review, unsigned: Transaction, c: Canonical, o: ReviewOutside) {
    && v.wire.encode(unsigned).Some? && o.simulated.Some? && o.auditWrites
    && FreshFromBuilder(v.wire, o.simulated.value.inner, c.expectedMessageBytes)
    && MayBeSigned(v, unsigned, c, o.simulated.value)
  }

  /** What signing makes of an approved transaction; none if the signer fails, changes
      the message, or leaves a signature that does not pass the last check. */
  function SignedBy(v: Review, s: SimulatedTransaction, inner: Option<InnerAnswer>): Option<Reviewed> {
    if inner.None? || v.wire.messageBytes(inner.value.after.message) != v.wire.messageBytes(s.inner.message)
       || v.wire.encode(inner.value.after).None? then None
    else
      var approved := v.wire.messageBytes(s.inner.message);
      var reviewed := Reviewed(inner.value.signature, v.wallet, s.lastValid, approved, approved,
                               v.wire.encode(inner.value.after).value);
      if SubmissionBytes(v.wire, reviewed).Ok? then Some(reviewed) else None
  }

  /** The outcome of one review, as a function of what the outside decides. */
  function ReviewOutcome(v: Review, unsigned: Transaction, c: Canonical, o: ReviewOutside): Option<Reviewed> {
    if Approvable(v, unsigned, c, o) then SignedBy(v, o.simulated.value, o.inner) else None
  }

  /** The first stage before the key at which a review fails, if one does. */
  function ApprovalError(v: Review, unsigned: Transaction, c: Canonical, o: ReviewOutside): Option<WalletError> {
    if !Accepted(v.wire, v.pins, unsigned, v.wallet, c) then Some(TransactionShapeRejected)
    else if v.wire.encode(unsigned).None? then Some(SerializationFailed)
    else if o.simulated.None? then Some(SimulationStepFailed)
    else
      var s := o.simulated.value;
      var audit := AuditError(v.wire, s.inner, c.expectedMessageBytes, o.auditWrites);
      if audit.Some? then audit
      else if !Accepted(v.wire, v.pins, s.inner, v.wallet, c) || c.inputAmountRaw == TWO_64 - 1 then
        Some(TransactionShapeRejected)
      else if !s.simulation.success then Some(PolicyRejected)
      else None
  }

  /** And the first failure of all: after the approval only the signer and the last check
      can fail. */
  function ReviewError(v: Review, unsigned: Transaction, c: Canonical, o: ReviewOutside): Option<WalletError> {
    var before := ApprovalError(v, unsigned, c, o);
    if before.Some? then before else SigningError(v, o.simulated, o.inner)
  }

  function SigningError(v: Review, simulated: Option<SimulatedTransaction>, inner: Option<InnerAnswer>)
    : Option<WalletError>
  {
    if simulated.None? || inner.None? then Some(SigningFailed)
    else
      var after := inner.value.after;
      var approved := v.wire.messageBytes(simulated.value.inner.message);
      if v.wire.messageBytes(after.message) != approved || v.wire.encode(after).None? then Some(SigningFailed)
      else
        var reviewed := Reviewed(inner.value.signature, v.wallet, simulated.value.lastValid, approved, approved,
                                 v.wire.encode(after).value);
        match SubmissionBytes(v.wire, reviewed)
        case Ok(_) => None
        case Err(error) => Some(error)
  }

  /** A review fails exactly when it has a first failure. */
  lemma OutcomeIffNoError(v: Review, unsigned: Transaction, c: Canonical, o: ReviewOutside)
    ensures ReviewOutcome(v, unsigned, c, o).None? <==> ReviewError(v, unsigned, c, o).Some?
    ensures ApprovalError(v, unsigned, c, o).None? <==> Approvable(v, unsigned, c, o)
  {
    ApprovableIff(v, unsigned, c, o);
    if o.simulated.Some? {
      SignedIff(v, o.simulated.value, o.inner);
    }
  }

  lemma ApprovableIff(v: Review, unsigned: Transaction, c: Canonical, o: ReviewOutside)
    ensures ApprovalError(v, unsigned, c, o).None? <==> Approvable(v, unsigned, c, o)
  {
  }

  lemma SignedIff(v: Review, s: SimulatedTransaction, inner: Option<InnerAnswer>)
    ensures SigningError(v, Some(s), inner).None? <==> SignedBy(v, s, inner).Some?
  {
  }

  /** Everything up to the approval: both shape checks, the audit record, and a
      positive verdict. The key is not touched. */
  method ReviewUntilApproval(v: Review, unsigned: Transaction, c: Canonical, o: ReviewOutside, trace: Trace)
    returns (r: Result<SimulatedTransaction, WalletError>)
    modifies trace
    ensures
      trace.events == old(trace.events)
      || (o.simulated.Some? && trace.events == old(trace.events) + [Audited(o.simulated.value.inner.message)])
    ensures r.Ok? ==> o.simulated.Some? && trace.events == old(trace.events) + [Audited(o.simulated.value.inner.message)]
    ensures r.Ok? ==> r.value == o.simulated.value && MayBeSigned(v, unsigned, c, r.value)
    ensures r.Ok? <==> Approvable(v, unsigned, c, o)
    ensures r.Err? ==> Some(r.error) == ApprovalError(v, unsigned, c, o)
  {
    var summaries := ValidateAndSummarize(v.lib, v.wire, v.pins, unsigned, v.wallet, c);
    if summaries.Err? {
      return Err(summaries.error);
    }
    if v.wire.encode(unsigned).None? {
      return Err(SerializationFailed);
    }
    if o.simulated.None? {
      return Err(SimulationStepFailed);
    }
    var simulated := o.simulated.value;
    var audit := EmitAudit(v, simulated.inner, c.expectedMessageBytes, o.auditWrites, trace);
    if audit.Err? {
      return Err(audit.error);
    }
    var finalSummaries := ValidateAndSummarize(v.lib, v.wire, v.pins, simulated.inner, v.wallet, c);
    if finalSummaries.Err? {
      return Err(finalSummaries.error);
    }
    AcceptedVerdict(v, simulated.inner, c, finalSummaries.value, simulated.simulation, o.nowSeconds);
    var verdict := ExecutionVerdict(v, c, finalSummaries.value, simulated.simulation, o.nowSeconds);
    if verdict.Err? {
      return Err(verdict.error);
    }
    r := Ok(simulated);
  }

  /** For an accepted transaction the verdict hangs on the simulation and on the one
      amount without a policy. */
  lemma AcceptedVerdict(v: Review, tx: Transaction, c: Canonical, summaries: seq<InstructionSummary>, s: Simulation,
                        nowSeconds: int)
    requires Accepted(v.wire, v.pins, tx, v.wallet, c) && AreSummaries(v.lib, tx.message, c, summaries)
    ensures
      (ExecutionPolicyFor(v.lib, v.pins, c).Some?
       && VerdictOf(ExecutionPolicyFor(v.lib, v.pins, c).value, ContextOf(v, summaries, s, nowSeconds)).Approved?)
      <==> s.success && c.inputAmountRaw < TWO_64 - 1
  {
    var ctx := ContextOf(v, summaries, s, nowSeconds);
    if s.success {
      AcceptedIsApproved(v.lib, v.wire, v.pins, tx, v.wallet, c, summaries, ctx);
    } else if ExecutionPolicyFor(v.lib, v.pins, c).Some? {
      ApprovedIff(v.lib, v.pins, c, ctx);
    }
  }

  /** Signing goes ahead only on an explicit approval; blocked and undecided
      verdicts both stop here. */
  method ExecutionVerdict(v: Review, c: Canonical, summaries: seq<InstructionSummary>, s: Simulation, nowSeconds: int)
    returns (r: Result<(), WalletError>)
    ensures r.Ok? ==> s.success && c.inputAmountRaw < TWO_64 - 1
    ensures r.Err? && c.inputAmountRaw == TWO_64 - 1 ==> r.error == TransactionShapeRejected
    ensures r.Err? && c.inputAmountRaw < TWO_64 - 1 && !s.success ==> r.error == PolicyRejected
    ensures r.Ok? <==>
              ExecutionPolicyFor(v.lib, v.pins, c).Some?
              && VerdictOf(ExecutionPolicyFor(v.lib, v.pins, c).value, ContextOf(v, summaries, s, nowSeconds)).Approved?
  {
    var policy := ExecutionPolicyFor(v.lib, v.pins, c);
    if policy.None? {
      return Err(TransactionShapeRejected);
    }
    var evaluation := EvaluateAt(policy.value, ContextOf(v, summaries, s, nowSeconds));
    if evaluation.verdict.Rejected? || evaluation.verdict.SimulationFailed? {
      return Err(PolicyRejected);
    }
    if !evaluation.verdict.Approved? {
      return Err(PolicyNotAutoApproved);
    }
    r := Ok(());
  }

  /** What is established about a transaction before the key may see it. */
  predicate MayBeSigned(v: Review, unsigned: Transaction, c: Canonical, s: SimulatedTransaction) {
    && Accepted(v.wire, v.pins, unsigned, v.wallet, c) && Accepted(v.wire, v.pins, s.inner, v.wallet, c)
    && s.simulation.success && c.inputAmountRaw < TWO_64 - 1
  }

  method SignApproved(v: Review, simulated: SimulatedTransaction, inner: Option<InnerAnswer>, trace: Trace)
    returns (r: Result<Reviewed, WalletError>)
    modifies trace
    ensures trace.events == old(trace.events) + [KeyUsed(simulated.inner.message)]
    ensures r.Ok? <==> SignedBy(v, simulated, inner).Some?
    ensures r.Err? ==> Some(r.error) == SigningError(v, Some(simulated), inner)
    ensures r.Ok? ==> r.value == SignedBy(v, simulated, inner).value
    ensures
      r.Ok? ==>
        && r.value.approvedMessageBytes == v.wire.messageBytes(simulated.inner.message)
        && r.value.signer == v.wallet && r.value.lastValidBlockHeight == simulated.lastValid
        && inner.Some? && r.value.signature == inner.value.signature
        && SubmissionBytes(v.wire, r.value) == Ok(r.value.signedTransactionBytes)
  {
    var capturing := new CapturingSigner(v.wire, trace);
    var approvedMessageBytes := v.wire.messageBytes(simulated.inner.message);
    var signature := capturing.SignTransaction(simulated.inner, inner);
    if signature.None? {
      return Err(SigningFailed);
    }
    var captured := capturing.TakeCapture();
    if captured.None? {
      return Err(SignedCaptureMissing);
    }
    if signature.value != captured.value.signature {
      return Err(SignatureInvalid);
    }
    var reviewed := Reviewed(captured.value.signature, v.wallet, simulated.lastValid, approvedMessageBytes,
                             captured.value.messageBytes, captured.value.transactionBytes);
    var checked := SubmissionBytes(v.wire, reviewed);
    if checked.Err? {
      return Err(checked.error);
    }
    r := Ok(reviewed);
  }

  /** The signer is reached only after the audit record of that very message. */
  method ReviewAndSign(v: Review, unsigned: Transaction, c: Canonical, o: ReviewOutside, trace: Trace)
    returns (r: Result<Reviewed, WalletError>)
    modifies trace
    ensures old(trace.events) <= trace.events && AuditedBeforeKey(trace.events, |old(trace.events)|)
    ensures r.Ok? <==> ReviewOutcome(v, unsigned, c, o).Some?
    ensures r.Ok? ==> r.value == ReviewOutcome(v, unsigned, c, o).value
    ensures r.Err? ==> Some(r.error) == ReviewError(v, unsigned, c, o)
    ensures
      (exists i :: |old(trace.events)| <= i < |trace.events| && trace.events[i].KeyUsed?) ==>
        o.simulated.Some? && MayBeSigned(v, unsigned, c, o.simulated.value)
    ensures
      r.Ok? ==>
        && o.simulated.Some? && MayBeSigned(v, unsigned, c, o.simulated.value)
        && r.value.approvedMessageBytes == v.wire.messageBytes(o.simulated.value.inner.message)
        && Audited(o.simulated.value.inner.message) in trace.events
        && r.value.signer == v.wallet
        && SubmissionBytes(v.wire, r.value) == Ok(r.value.signedTransactionBytes)
  {
    var before := trace.events;
    var reviewed := ReviewUntilApproval(v, unsigned, c, o, trace);
    if reviewed.Err? {
      return Err(reviewed.error);
    }
    var message := reviewed.value.inner.message;
    r := SignApproved(v, reviewed.value, o.inner, trace);
    TwoEvents(before, message);
    assert trace.events == before + [Audited(message)] + [KeyUsed(message)];
  }

  lemma TwoEvents(before: seq<Event>, message: Message)
    ensures
      var events := before + [Audited(message)] + [KeyUsed(message)];
      AuditedBeforeKey(events, |before|) && Audited(message) in events && before <= events
  {
    var events := before + [Audited(message)] + [KeyUsed(message)];
    assert events[|before|] == Audited(message);
  }

  // ---- What reaches the network ------------------------------------------------------------------------

  ghost predicate Injective(wire: Wire) {
    forall a, b :: wire.messageBytes(a) == wire.messageBytes(b) ==> a == b
  }

  /** Bytes that pass the last check decode to a transaction whose message is the
      approved one, signed by the controlled wallet with the reported signature. */
  lemma SubmittedIsApproved(wire: Wire, r: Reviewed, approved: Message)
    requires SubmissionBytes(wire, r).Ok? && r.approvedMessageBytes == wire.messageBytes(approved)
    requires Injective(wire)
    ensures SubmissionBytes(wire, r).value == r.signedTransactionBytes
    ensures
      var tx := wire.decode(r.signedTransactionBytes);
      && tx.Some? && tx.value.message == approved && wire.signaturesVerify(tx.value)
      && r.signature != DEFAULT_SIGNATURE
      && exists i :: 0 <= i < |approved.accountKeys| && i < |tx.value.signatures|
           && approved.accountKeys[i] == r.signer && tx.value.signatures[i] == r.signature
  {
    var tx := wire.decode(r.signedTransactionBytes).value;
    assert tx.message == approved;
    var i := IndexOf(tx.message.accountKeys, r.signer, 0).value;
    assert approved.accountKeys[i] == r.signer && tx.signatures[i] == r.signature;
  }

  /** An accepted message is the builder's message with only the blockhash changed. */
  lemma AcceptedIsBuilders(wire: Wire, m: Message, builder: Message)
    requires Injective(wire) && MatchesTemplate(wire, m, wire.messageBytes(builder))
    ensures m.(recentBlockhash := ZERO_BLOCKHASH) == builder
    ensures m.instructions == builder.instructions && m.accountKeys == builder.accountKeys
  {
    assert wire.messageBytes(m.(recentBlockhash := ZERO_BLOCKHASH)) == wire.messageBytes(builder);
  }

  /** From the builder to the network: what is submitted after a successful review
      decodes to the builder's message, blockhash aside, and that exact message was
      audited before the key was used. */
  method ReviewSignAndTake(v: Review, unsigned: Transaction, c: Canonical, builder: Message, o: ReviewOutside,
                           trace: Trace) returns (submitted: Option<bytes>)
    requires Injective(v.wire) && c.expectedMessageBytes == v.wire.messageBytes(builder)
    modifies trace
    ensures AuditedBeforeKey(trace.events, |old(trace.events)|)
    ensures submitted.Some? <==> ReviewOutcome(v, unsigned, c, o).Some?
    ensures submitted.Some? ==> submitted.value == ReviewOutcome(v, unsigned, c, o).value.signedTransactionBytes
    ensures
      submitted.Some? ==>
        var tx := v.wire.decode(submitted.value);
        && tx.Some?
        && tx.value.message.(recentBlockhash := ZERO_BLOCKHASH) == builder
        && v.wire.signaturesVerify(tx.value)
        && Audited(tx.value.message) in trace.events
  {
    var reviewed := ReviewAndSign(v, unsigned, c, o, trace);
    if reviewed.Err? {
      return None;
    }
    var checked := SubmissionBytes(v.wire, reviewed.value);
    var approved := o.simulated.value.inner.message;
    SubmittedIsApproved(v.wire, reviewed.value, approved);
    AcceptedIsBuilders(v.wire, approved, builder);
    submitted := Some(checked.value);
  }
}
