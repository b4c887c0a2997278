/**
 * What the agent does for one farmer: read the profile, preview the
 * eligibility rules, record (or simulate) the decision, and pay (or simulate
 * paying) an eligible farmer at most once per decision proof; and the AI
 * summary written after a weather event has been handled.
 *
 * Each operation is a method on the shared `Services` and a specification
 * function on `World` values; the method's postcondition ties the two. The
 * specification functions carry the facts every caller needs (what they
 * append, which calls they may make); their case-by-case behaviour is stated
 * by the lemmas after each of them.
 */
module Pipeline {
  import opened Wrappers
  import opened Text
  import opened Config
  import opened Ledger
  import opened AgentLog
  import opened AgentRuntime
  import opened VirtualTx

  /** What the agent knows about one farmer once it has evaluated them. */
  datatype FarmerResult = FarmerResult(address: Address, profile: Profile, decision: Option<Decision>)

  predicate IsEligible(r: FarmerResult) {
    r.decision.Some? && r.decision.value.isEligible
  }

  /** `reason || "rule mismatch"`. */
  function ReasonOrDefault(reason: string): (r: string)
    ensures r != ""
    ensures reason != "" ==> r == reason
  {
    if reason == "" then "rule mismatch" else reason
  }

  /** `call` pays this eligible result: its farmer, its decision's proof hash and amount. */
  predicate PaidTo(call: Call, res: FarmerResult) {
    IsEligible(res) && call == SendPayment(res.address, res.decision.value.proofHash, res.decision.value.subsidyAmount)
  }

  /** Every payment call in `calls` pays `res`. */
  predicate PaysOnly(calls: History, res: FarmerResult) {
    forall k :: 0 <= k < |calls| && calls[k].SendPayment? ==> PaidTo(calls[k], res)
  }

  /** No payment call in `calls`. */
  predicate NoPayments(calls: History) {
    forall k :: 0 <= k < |calls| ==> !calls[k].SendPayment?
  }

  lemma PaysOnlyAfterNone(a: History, b: History, res: FarmerResult)
    requires NoPayments(a) && PaysOnly(b, res)
    ensures PaysOnly(a + b, res)
  {
    forall k | 0 <= k < |a + b| && (a + b)[k].SendPayment? ensures PaidTo((a + b)[k], res) {
      if k >= |a| { assert (a + b)[k] == b[k - |a|]; }
    }
  }

  lemma NoPaymentsAppend(a: History, b: History)
    requires NoPayments(a) && NoPayments(b)
    ensures NoPayments(a + b)
  {
    forall k | 0 <= k < |a + b| ensures !(a + b)[k].SendPayment? {
      if k >= |a| { assert (a + b)[k] == b[k - |a|]; }
    }
  }

  // ---- simulated transactions ----

  /** What a simulated transaction stands for: an eligibility approval or a payout. */
  datatype SimulatedKind = Approval(farmer: Address) | Payout

  /** The line that announces a simulated transaction, given the first ten characters of its hash. */
  function Announcement(kind: SimulatedKind, txPrefix: string): Message {
    match kind
      case Approval(farmer) => SimulatedApproval(farmer, txPrefix)
      case Payout => VirtualPayout(txPrefix)
  }

  /** A made-up transaction: a fresh random hash, its announcement, then its mined and confirmation lines. */
  function SimulateTxSpec(c: Ctx, w: World, kind: SimulatedKind, txLabel: string): (r: World)
    ensures Extends(w, r) && r.calls == w.calls && r.bytesUsed == w.bytesUsed + 1
    ensures 3 <= |NewLogs(w, r)| <= 5 && Quiet(NewLogs(w, r))
    ensures NewLogs(w, r)[0] == LogEntry(c.now, Info, Announcement(kind, Prefix(FakeTx(c.bytes(w.bytesUsed)), 10)))
  {
    var tx := FakeTx(c.bytes(w.bytesUsed));
    var w1 := Emit(c, w.(bytesUsed := w.bytesUsed + 1), Info, Announcement(kind, Prefix(tx, 10)));
    var w2 := ConfirmVirtualTxSpec(c, w1, tx, txLabel);
    ExtendsTrans(w, w1, w2);
    QuietAppend(NewLogs(w, w1), NewLogs(w1, w2));
    w2
  }

  /** A made-up transaction's last line is its mined line or one of its confirmations. */
  lemma SimulateTxLastLine(c: Ctx, w: World, kind: SimulatedKind, txLabel: string)
    ensures var logs := NewLogs(w, SimulateTxSpec(c, w, kind, txLabel));
      logs[|logs| - 1].text.VirtualTxMined? || logs[|logs| - 1].text.VirtualTxConfirmation?
  {
    var r := SimulateTxSpec(c, w, kind, txLabel);
    var tx := FakeTx(c.bytes(w.bytesUsed));
    var w1 := Emit(c, w.(bytesUsed := w.bytesUsed + 1), Info, Announcement(kind, Prefix(tx, 10)));
    ConfirmVirtualTxLines(c, w1, tx, txLabel);
    assert NewLogs(w, r)[|NewLogs(w, r)| - 1] == NewLogs(w1, r)[|NewLogs(w1, r)| - 1];
  }

  // ---- evaluation ----

  /** The registry's answer to the profile read that starts an evaluation. */
  function ProfileAnswer(c: Ctx, w: World, farmer: Address): Result<Profile> {
    c.answers.farmerProfile(w.calls, farmer)
  }

  /** The rules engine's answer to the preview that follows the profile read. */
  function PreviewAnswer(c: Ctx, w: World, farmer: Address, event: WeatherEvent, schemeId: SchemeId): Result<Decision> {
    c.answers.preview(w.calls + [GetFarmerProfile(farmer)], farmer, event.eventId, schemeId)
  }

  /** The farmer's profile is active and the preview found them eligible. */
  predicate EligiblePreview(c: Ctx, w: World, farmer: Address, event: WeatherEvent, schemeId: SchemeId) {
    && ProfileAnswer(c, w, farmer).Ok? && ProfileAnswer(c, w, farmer).value.isActive
    && PreviewAnswer(c, w, farmer, event, schemeId).Ok?
    && PreviewAnswer(c, w, farmer, event, schemeId).value.isEligible
  }

  /**
   * The on-chain record of an eligible preview: send, wait for one block,
   * read the stored decision.
   */
  function WriteEligibilitySpec(c: Ctx, w: World, farmer: Address, eventId: EventId, schemeId: SchemeId,
                                preview: Decision): (r: (Decision, World))
    ensures Extends(w, r.1) && r.1.bytesUsed == w.bytesUsed && r.1.floatsUsed == w.floatsUsed
    ensures 1 <= |NewCalls(w, r.1)| && NewCalls(w, r.1)[0] == SendEligibility(farmer, eventId, schemeId)
    ensures NoPayments(NewCalls(w, r.1))
    ensures NewLogs(w, r.1) != [] && Quiet(NewLogs(w, r.1))
  {
    var send := c.answers.sendEligibility(w.calls, farmer, eventId, schemeId);
    var w1 := Record(w, SendEligibility(farmer, eventId, schemeId));
    if send.Err? then (preview, Emit(c, w1, Error, EligibilityTxFailed(farmer, send.message)))
    else
      var w2 := Emit(c, w1, Info, EligibilityTxSent(farmer, send.value));
      var wait := c.answers.waitEligibility(w2.calls, send.value);
      var w3 := Record(w2, WaitEligibility(send.value));
      if wait.Err? then (preview, Emit(c, w3, Error, EligibilityTxFailed(farmer, wait.message)))
      else
        var latest := c.answers.latestDecision(w3.calls, farmer);
        var w4 := Record(w3, GetLatestDecision(farmer));
        if latest.Err? then (preview, Emit(c, w4, Error, EligibilityTxFailed(farmer, latest.message)))
        else (latest.value, Emit(c, w4, Info, DecisionStored(latest.value.proofHash)))
  }

  /**
   * A write ends either in an error line, and the preview decision is kept,
   * or in a `decision stored` line for the decision read back from the engine
   * right after the send was mined.
   */
  lemma WriteEligibilityOutcome(c: Ctx, w: World, farmer: Address, eventId: EventId, schemeId: SchemeId, preview: Decision)
    ensures var r := WriteEligibilitySpec(c, w, farmer, eventId, schemeId, preview);
      var last := NewLogs(w, r.1)[|NewLogs(w, r.1)| - 1];
      if last.level == Error then
        r.0 == preview && last.text.EligibilityTxFailed? && last.text.farmer == farmer
      else
        && |NewCalls(w, r.1)| == 3 && NewCalls(w, r.1)[2] == GetLatestDecision(farmer)
        && Ok(r.0) == c.answers.latestDecision(r.1.calls[..|r.1.calls| - 1], farmer)
        && last == LogEntry(c.now, Info, DecisionStored(r.0.proofHash))
  {
    var r := WriteEligibilitySpec(c, w, farmer, eventId, schemeId, preview);
    var send := c.answers.sendEligibility(w.calls, farmer, eventId, schemeId);
    if send.Ok? {
      var w3 := w.(calls := w.calls + [SendEligibility(farmer, eventId, schemeId), WaitEligibility(send.value)]);
      if c.answers.waitEligibility(w3.calls[..|w.calls| + 1], send.value).Ok? {
        assert w.calls + [SendEligibility(farmer, eventId, schemeId)] == w3.calls[..|w.calls| + 1];
        assert r.1.calls[..|r.1.calls| - 1] == w3.calls;
      }
    }
  }

  /** An eligible preview for an active profile: written on-chain, or approved with a simulated transaction. */
  function ApproveSpec(c: Ctx, w: World, farmer: Address, p: Profile, event: WeatherEvent, schemeId: SchemeId,
                       preview: Decision): (r: Step<FarmerResult>)
    ensures Extends(w, r.world) && Quiet(NewLogs(w, r.world)) && NoPayments(NewCalls(w, r.world))
    ensures r.out.Done? && r.out.value.address == farmer && r.out.value.profile == p
  {
    if c.config.WritesEligibility() then
      var written := WriteEligibilitySpec(c, w, farmer, event.eventId, schemeId, preview);
      Step(Done(FarmerResult(farmer, p, Some(written.0))), written.1)
    else
      Step(Done(FarmerResult(farmer, p, Some(preview))), SimulateTxSpec(c, w, Approval(farmer), "eligibility"))
  }

  /** An active profile: the preview, then its logging or its approval. */
  function ActiveSpec(c: Ctx, w: World, farmer: Address, p: Profile, event: WeatherEvent, schemeId: SchemeId)
    : (r: Step<FarmerResult>)
    ensures Extends(w, r.world) && Quiet(NewLogs(w, r.world)) && NoPayments(NewCalls(w, r.world))
    ensures 1 <= |NewCalls(w, r.world)| && NewCalls(w, r.world)[0] == PreviewEligibility(farmer, event.eventId, schemeId)
    ensures r.out.Done? && r.out.value.address == farmer && r.out.value.profile == p
  {
    var pv := c.answers.preview(w.calls, farmer, event.eventId, schemeId);
    var w1 := Record(w, PreviewEligibility(farmer, event.eventId, schemeId));
    if pv.Err? then
      Step(Done(FarmerResult(farmer, p, None)), Emit(c, w1, Warn, PreviewFailed(farmer, pv.message)))
    else if !pv.value.isEligible then
      Step(Done(FarmerResult(farmer, p, Some(pv.value))), Emit(c, w1, Info, NotEligible(farmer, ReasonOrDefault(pv.value.reason))))
    else
      var r := ApproveSpec(c, w1, farmer, p, event, schemeId, pv.value);
      ExtendsTrans(w, w1, r.world);
      NoPaymentsAppend(NewCalls(w, w1), NewCalls(w1, r.world));
      r
  }

  /**
   * `evaluateFarmerEligibility`: the profile read, then (for an active
   * profile) the preview, then (for an eligible preview) the on-chain write or
   * a simulated approval.
   */
  function EvaluateSpec(c: Ctx, w: World, farmer: Address, event: WeatherEvent, schemeId: SchemeId): (r: Step<FarmerResult>)
    ensures Extends(w, r.world) && Quiet(NewLogs(w, r.world))
    ensures 1 <= |NewCalls(w, r.world)| && NewCalls(w, r.world)[0] == GetFarmerProfile(farmer)
    ensures NoPayments(NewCalls(w, r.world))
    ensures r.out.Done? ==> r.out.value.address == farmer && ProfileAnswer(c, w, farmer).Ok? && r.out.value.profile == ProfileAnswer(c, w, farmer).value
  {
    var pr := c.answers.farmerProfile(w.calls, farmer);
    var w1 := Record(w, GetFarmerProfile(farmer));
    if pr.Err? then Step(Threw(pr.message), w1)
    else if !pr.value.isActive then
      Step(Done(FarmerResult(farmer, pr.value, None)), Emit(c, w1, Warn, SkippingInactive(farmer, event.region)))
    else
      var r := ActiveSpec(c, w1, farmer, pr.value, event, schemeId);
      ExtendsTrans(w, w1, r.world);
      NoPaymentsAppend(NewCalls(w, w1), NewCalls(w1, r.world));
      r
  }

  /** Only a failed profile read throws, and then nothing but that read has happened. */
  lemma EvaluateThrowsOnlyOnProfileRead(c: Ctx, w: World, farmer: Address, event: WeatherEvent, schemeId: SchemeId)
    ensures var r := EvaluateSpec(c, w, farmer, event, schemeId);
      (r.out.Threw? <==> ProfileAnswer(c, w, farmer).Err?)
      && (r.out.Threw? ==> r.world == Record(w, GetFarmerProfile(farmer)))
  {
  }

  /** An inactive profile is skipped with a warning and no decision; the rules engine is not asked. */
  lemma EvaluateSkipsInactive(c: Ctx, w: World, farmer: Address, event: WeatherEvent, schemeId: SchemeId)
    requires ProfileAnswer(c, w, farmer).Ok? && !ProfileAnswer(c, w, farmer).value.isActive
    ensures EvaluateSpec(c, w, farmer, event, schemeId)
      == Step(Done(FarmerResult(farmer, ProfileAnswer(c, w, farmer).value, None)),
              Emit(c, Record(w, GetFarmerProfile(farmer)), Warn, SkippingInactive(farmer, event.region)))
  {
  }

  /** A result has no decision exactly when the profile is inactive or the preview failed. */
  lemma EvaluateNoDecisionIff(c: Ctx, w: World, farmer: Address, event: WeatherEvent, schemeId: SchemeId)
    requires ProfileAnswer(c, w, farmer).Ok?
    ensures var r := EvaluateSpec(c, w, farmer, event, schemeId);
      r.out.Done? &&
      (r.out.value.decision.None? <==>
        !ProfileAnswer(c, w, farmer).value.isActive || PreviewAnswer(c, w, farmer, event, schemeId).Err?)
  {
    var r := EvaluateSpec(c, w, farmer, event, schemeId);
    if EligiblePreview(c, w, farmer, event, schemeId) && c.config.WritesEligibility() {
      var w2 := Record(Record(w, GetFarmerProfile(farmer)), PreviewEligibility(farmer, event.eventId, schemeId));
      assert r.out.value.decision.Some?;
    }
  }

  /** A failed preview of an active profile gives no decision, with one warning naming the farmer; nothing is written. */
  lemma EvaluatePreviewFailed(c: Ctx, w: World, farmer: Address, event: WeatherEvent, schemeId: SchemeId)
    requires ProfileAnswer(c, w, farmer).Ok? && ProfileAnswer(c, w, farmer).value.isActive
    requires PreviewAnswer(c, w, farmer, event, schemeId).Err?
    ensures var r := EvaluateSpec(c, w, farmer, event, schemeId);
      var message := PreviewAnswer(c, w, farmer, event, schemeId).message;
      && r.out == Done(FarmerResult(farmer, ProfileAnswer(c, w, farmer).value, None))
      && NewCalls(w, r.world) == [GetFarmerProfile(farmer), PreviewEligibility(farmer, event.eventId, schemeId)]
      && NewLogs(w, r.world) == [LogEntry(c.now, Warn, PreviewFailed(farmer, message))]
  {
  }

  /** An ineligible preview is the decision; it is logged with its reason and nothing is written. */
  lemma EvaluateIneligiblePreview(c: Ctx, w: World, farmer: Address, event: WeatherEvent, schemeId: SchemeId)
    requires ProfileAnswer(c, w, farmer).Ok? && ProfileAnswer(c, w, farmer).value.isActive
    requires PreviewAnswer(c, w, farmer, event, schemeId).Ok? && !PreviewAnswer(c, w, farmer, event, schemeId).value.isEligible
    ensures var r := EvaluateSpec(c, w, farmer, event, schemeId);
      var pv := PreviewAnswer(c, w, farmer, event, schemeId).value;
      && r.out == Done(FarmerResult(farmer, ProfileAnswer(c, w, farmer).value, Some(pv)))
      && NewCalls(w, r.world) == [GetFarmerProfile(farmer), PreviewEligibility(farmer, event.eventId, schemeId)]
      && NewLogs(w, r.world) == [LogEntry(c.now, Info, NotEligible(farmer, ReasonOrDefault(pv.reason)))]
  {
  }

  /**
   * An eligible result needs an active profile and an eligible preview; short
   * of that, no write is attempted (at most the profile read and the preview
   * are made) and no random hash is drawn.
   */
  lemma EvaluateEligibleNeedsEligiblePreview(c: Ctx, w: World, farmer: Address, event: WeatherEvent, schemeId: SchemeId)
    ensures var r := EvaluateSpec(c, w, farmer, event, schemeId);
      && (r.out.Done? && IsEligible(r.out.value) ==> EligiblePreview(c, w, farmer, event, schemeId))
      && (!EligiblePreview(c, w, farmer, event, schemeId) ==> |NewCalls(w, r.world)| <= 2 && r.world.bytesUsed == w.bytesUsed)
  {
    var r := EvaluateSpec(c, w, farmer, event, schemeId);
    if !EligiblePreview(c, w, farmer, event, schemeId) && ProfileAnswer(c, w, farmer).Ok?
      && ProfileAnswer(c, w, farmer).value.isActive {
      var w2 := Record(Record(w, GetFarmerProfile(farmer)), PreviewEligibility(farmer, event.eventId, schemeId));
      assert NewCalls(w, r.world) == NewCalls(w, w2);
    }
  }

  /**
   * With the signer present and auto-execution on, an eligible preview is
   * written: the third call sends it; the decision returned is the preview
   * (after an error line) or the one read back from the engine.
   */
  lemma EvaluateWritesInWriteMode(c: Ctx, w: World, farmer: Address, event: WeatherEvent, schemeId: SchemeId)
    requires EligiblePreview(c, w, farmer, event, schemeId) && c.config.WritesEligibility()
    ensures var r := EvaluateSpec(c, w, farmer, event, schemeId);
      && r.out.Done?
      && |NewCalls(w, r.world)| >= 3
      && NewCalls(w, r.world)[2] == SendEligibility(farmer, event.eventId, schemeId)
      && r.world.bytesUsed == w.bytesUsed && r.world.floatsUsed == w.floatsUsed
      && var last := NewLogs(w, r.world)[|NewLogs(w, r.world)| - 1];
         (last.level == Error ==> r.out.value.decision == Some(PreviewAnswer(c, w, farmer, event, schemeId).value))
         && (last.level != Error ==> last == LogEntry(c.now, Info, DecisionStored(r.out.value.decision.value.proofHash)))
  {
    var pv := PreviewAnswer(c, w, farmer, event, schemeId).value;
    var w2 := Record(Record(w, GetFarmerProfile(farmer)), PreviewEligibility(farmer, event.eventId, schemeId));
    var written := WriteEligibilitySpec(c, w2, farmer, event.eventId, schemeId, pv);
    WriteEligibilityOutcome(c, w2, farmer, event.eventId, schemeId, pv);
    ExtendsTrans(w, w2, written.1);
    assert NewCalls(w, written.1)[2] == NewCalls(w2, written.1)[0];
    assert NewLogs(w, written.1) == NewLogs(w2, written.1);
  }

  /** Otherwise an eligible preview is approved with one simulated transaction and kept as the decision. */
  lemma EvaluateSimulatesOtherwise(c: Ctx, w: World, farmer: Address, event: WeatherEvent, schemeId: SchemeId)
    requires EligiblePreview(c, w, farmer, event, schemeId) && !c.config.WritesEligibility()
    ensures var r := EvaluateSpec(c, w, farmer, event, schemeId);
      && r.out.Done?
      && r.out.value.decision == Some(PreviewAnswer(c, w, farmer, event, schemeId).value)
      && |NewCalls(w, r.world)| == 2
      && r.world.bytesUsed == w.bytesUsed + 1
      && |NewLogs(w, r.world)| >= 3
      && NewLogs(w, r.world)[0] == LogEntry(c.now, Info, SimulatedApproval(farmer, Prefix(FakeTx(c.bytes(w.bytesUsed)), 10)))
  {
    var w2 := Record(Record(w, GetFarmerProfile(farmer)), PreviewEligibility(farmer, event.eventId, schemeId));
    var w3 := SimulateTxSpec(c, w2, Approval(farmer), "eligibility");
    ExtendsTrans(w, w2, w3);
  }

  // ---- payment ----

  /** The payment with this proof hash was sent and its transaction then mined, according to the ledger. */
  ghost predicate SettledIn(a: Answers, h: History, proofHash: ProofHash) {
    exists i :: 0 <= i < |h| - 1 && h[i].SendPayment? && h[i].proofHash == proofHash && h[i + 1].WaitPayment?
      && a.waitPayment(h[..i + 1], h[i + 1].tx).Ok?
  }

  /** A ledger whose distributor reports every settled payment as executed (its idempotency record). */
  ghost predicate RemembersPayments(a: Answers) {
    forall h: History, proofHash: ProofHash {:trigger a.isPaymentExecuted(h, proofHash)} ::
      SettledIn(a, h, proofHash) ==> a.isPaymentExecuted(h, proofHash) == Ok(true)
  }

  lemma SettledPersists(a: Answers, h: History, h': History, proofHash: ProofHash)
    requires SettledIn(a, h, proofHash) && h <= h'
    ensures SettledIn(a, h', proofHash)
  {
    var i :| 0 <= i < |h| - 1 && h[i].SendPayment? && h[i].proofHash == proofHash && h[i + 1].WaitPayment?
      && a.waitPayment(h[..i + 1], h[i + 1].tx).Ok?;
    assert h'[..i + 1] == h[..i + 1];
    assert h'[i] == h[i] && h'[i + 1] == h[i + 1];
  }

  /** A payment call followed by a mined wait for its transaction settles the payment. */
  lemma SettledAfterPayment(a: Answers, h: History, pay: Call, tx: TxHash)
    requires pay.SendPayment? && a.waitPayment(h + [pay], tx).Ok?
    ensures SettledIn(a, h + [pay, WaitPayment(tx)], pay.proofHash)
  {
    var h' := h + [pay, WaitPayment(tx)];
    assert h'[..|h| + 1] == h + [pay];
    assert h'[|h|] == pay && h'[|h| + 1] == WaitPayment(tx);
  }

  /** The signed `executePayment` and its wait for one block. */
  function ExecutePaymentSpec(c: Ctx, w: World, farmer: Address, d: Decision): (r: World)
    ensures Extends(w, r) && r.bytesUsed == w.bytesUsed && r.floatsUsed == w.floatsUsed
    ensures 1 <= |NewCalls(w, r)| <= 2 && NewCalls(w, r)[0] == SendPayment(farmer, d.proofHash, d.subsidyAmount)
    ensures |NewCalls(w, r)| == 2 ==> NewCalls(w, r)[1].WaitPayment?
    ensures 1 <= |NewLogs(w, r)| <= 2 && Quiet(NewLogs(w, r))
  {
    var pay := SendPayment(farmer, d.proofHash, d.subsidyAmount);
    var send := c.answers.sendPayment(w.calls, farmer, d.proofHash, d.subsidyAmount);
    var w1 := Record(w, pay);
    if send.Err? then
      Emit(c, w1, Error, PaymentFailed(farmer, send.message))
    else
      var w2 := Emit(c, w1, Info, PaymentSubmitted(farmer, send.value));
      var wait := c.answers.waitPayment(w2.calls, send.value);
      var w3 := Record(w2, WaitPayment(send.value));
      assert NewCalls(w, w3) == [pay, WaitPayment(send.value)];
      if wait.Err? then Emit(c, w3, Error, PaymentFailed(farmer, wait.message))
      else Emit(c, w3, Info, SubsidySent(d.subsidyAmount))
  }

  /**
   * A failed send or wait ends the payment with an error line naming the
   * farmer; otherwise it ends with the amount sent, and the payment is settled.
   */
  lemma ExecutePaymentOutcome(c: Ctx, w: World, farmer: Address, d: Decision)
    ensures var r := ExecutePaymentSpec(c, w, farmer, d);
      var last := NewLogs(w, r)[|NewLogs(w, r)| - 1];
      && (last.level == Error ==> last.text.PaymentFailed? && last.text.farmer == farmer)
      && (last.level != Error ==> last.text == SubsidySent(d.subsidyAmount) && SettledIn(c.answers, r.calls, d.proofHash))
  {
    var pay := SendPayment(farmer, d.proofHash, d.subsidyAmount);
    var send := c.answers.sendPayment(w.calls, farmer, d.proofHash, d.subsidyAmount);
    if send.Ok? {
      var h := w.calls + [pay];
      if c.answers.waitPayment(h, send.value).Ok? {
        SettledAfterPayment(c.answers, w.calls, pay, send.value);
        assert h + [WaitPayment(send.value)] == w.calls + [pay, WaitPayment(send.value)];
      }
    }
  }

  /** An eligible result whose proof is not yet paid: executed on-chain, or a simulated payout. */
  function PayUnpaidSpec(c: Ctx, w: World, res: FarmerResult): (r: World)
    requires IsEligible(res)
    ensures Extends(w, r) && Quiet(NewLogs(w, r)) && NewLogs(w, r) != []
    ensures PaysOnly(NewCalls(w, r), res)
  {
    if c.config.ExecutesPayments() then ExecutePaymentSpec(c, w, res.address, res.decision.value)
    else SimulateTxSpec(c, w, Payout, "payout")
  }

  /** The distributor's answer to the idempotency check for an eligible result. */
  function CheckAnswer(c: Ctx, w: World, res: FarmerResult): Result<bool>
    requires IsEligible(res)
  {
    c.answers.isPaymentExecuted(w.calls, res.decision.value.proofHash)
  }

  /**
   * The eligible case of `attemptPayment`: the proof hash is checked first,
   * then an unpaid proof is paid.
   */
  function CheckedPaymentSpec(c: Ctx, w: World, res: FarmerResult): (r: Step<()>)
    requires IsEligible(res)
    ensures Extends(w, r.world) && Quiet(NewLogs(w, r.world))
    ensures 1 <= |NewCalls(w, r.world)| && PaysOnly(NewCalls(w, r.world), res)
    ensures NewCalls(w, r.world)[0] == IsPaymentExecuted(res.decision.value.proofHash)
  {
    var d := res.decision.value;
    var chk := c.answers.isPaymentExecuted(w.calls, d.proofHash);
    var w1 := Record(w, IsPaymentExecuted(d.proofHash));
    if chk.Err? then Step(Threw(chk.message), w1)
    else if chk.value then
      Step(Done(()), Emit(c, w1, Info, PaymentAlreadyExecuted(Prefix(d.proofHash, 10))))
    else
      var w2 := PayUnpaidSpec(c, w1, res);
      ExtendsTrans(w, w1, w2);
      Step(Done(()), w2)
  }

  /**
   * `attemptPayment`. Nothing happens for a result that is not eligible;
   * an eligible one is checked and paid. Every payment call made pays this
   * result: its farmer, proof hash and amount.
   */
  function AttemptPaymentSpec(c: Ctx, w: World, res: FarmerResult): (r: Step<()>)
    ensures Extends(w, r.world) && Quiet(NewLogs(w, r.world))
    ensures PaysOnly(NewCalls(w, r.world), res)
    ensures !IsEligible(res) ==> r == Step(Done(()), w)
    ensures IsEligible(res) ==> 1 <= |NewCalls(w, r.world)| && NewCalls(w, r.world)[0] == IsPaymentExecuted(res.decision.value.proofHash)
  {
    if !IsEligible(res) then Step(Done(()), w) else CheckedPaymentSpec(c, w, res)
  }

  /** Only a failed idempotency check throws, and then nothing but the check has happened. */
  lemma AttemptThrowsOnlyOnCheck(c: Ctx, w: World, res: FarmerResult)
    ensures var r := AttemptPaymentSpec(c, w, res);
      && (r.out.Threw? <==> IsEligible(res) && CheckAnswer(c, w, res).Err?)
      && (r.out.Threw? ==> r.world == Record(w, IsPaymentExecuted(res.decision.value.proofHash)))
  {
  }

  /** A proof the distributor reports as paid is only logged: no payment, real or simulated. */
  lemma AttemptSkipsPaidProof(c: Ctx, w: World, res: FarmerResult)
    requires IsEligible(res) && CheckAnswer(c, w, res) == Ok(true)
    ensures var ph := res.decision.value.proofHash;
      AttemptPaymentSpec(c, w, res)
        == Step(Done(()), Emit(c, Record(w, IsPaymentExecuted(ph)), Info, PaymentAlreadyExecuted(Prefix(ph, 10))))
  {
  }

  /**
   * A payment goes out (a second call, paying this decision) exactly when the
   * result is eligible, its proof is not yet paid, and the agent signs with
   * auto-payments on; a failure of that payment is logged as an error line
   * naming the farmer, and not thrown.
   */
  lemma PaymentSentIff(c: Ctx, w: World, res: FarmerResult)
    ensures var r := AttemptPaymentSpec(c, w, res);
      (|NewCalls(w, r.world)| > 1 <==> IsEligible(res) && CheckAnswer(c, w, res) == Ok(false) && c.config.ExecutesPayments())
    ensures var r := AttemptPaymentSpec(c, w, res);
      |NewCalls(w, r.world)| > 1 ==>
        && r.out.Done?
        && NewCalls(w, r.world)[1] == SendPayment(res.address, res.decision.value.proofHash, res.decision.value.subsidyAmount)
        && var last := NewLogs(w, r.world)[|NewLogs(w, r.world)| - 1];
           last.level == Error ==> last.text == PaymentFailed(res.address, last.text.error)
  {
    var r := AttemptPaymentSpec(c, w, res);
    if IsEligible(res) && CheckAnswer(c, w, res) == Ok(false) {
      var w1 := Record(w, IsPaymentExecuted(res.decision.value.proofHash));
      ExtendsTrans(w, w1, r.world);
      if c.config.ExecutesPayments() {
        ExecutePaymentOutcome(c, w1, res.address, res.decision.value);
        assert NewLogs(w, r.world) == NewLogs(w1, r.world);
      }
    }
  }

  /** Without on-chain payments, an unpaid eligible proof gets a simulated payout: one fresh hash, announced. */
  lemma VirtualPayoutWhenNotSigning(c: Ctx, w: World, res: FarmerResult)
    requires IsEligible(res) && CheckAnswer(c, w, res) == Ok(false) && !c.config.ExecutesPayments()
    ensures var r := AttemptPaymentSpec(c, w, res);
      && r.out.Done?
      && NewCalls(w, r.world) == [IsPaymentExecuted(res.decision.value.proofHash)]
      && r.world.bytesUsed == w.bytesUsed + 1
      && NewLogs(w, r.world) != []
      && NewLogs(w, r.world)[0] == LogEntry(c.now, Info, VirtualPayout(Prefix(FakeTx(c.bytes(w.bytesUsed)), 10)))
  {
    var r := AttemptPaymentSpec(c, w, res);
    var w1 := Record(w, IsPaymentExecuted(res.decision.value.proofHash));
    ExtendsTrans(w, w1, r.world);
  }

  /** An unpaid result's payment ends in `subsidy sent` only when it was executed and settled. */
  lemma UnpaidSubsidySent(c: Ctx, w: World, res: FarmerResult)
    requires IsEligible(res)
    requires var logs := NewLogs(w, PayUnpaidSpec(c, w, res));
      logs[|logs| - 1].text.SubsidySent?
    ensures SettledIn(c.answers, PayUnpaidSpec(c, w, res).calls, res.decision.value.proofHash)
  {
    if c.config.ExecutesPayments() {
      var r := ExecutePaymentSpec(c, w, res.address, res.decision.value);
      assert PayUnpaidSpec(c, w, res) == r;
      ExecutePaymentOutcome(c, w, res.address, res.decision.value);
      assert NewLogs(w, r)[|NewLogs(w, r)| - 1].level != Error;
    } else {
      assert PayUnpaidSpec(c, w, res) == SimulateTxSpec(c, w, Payout, "payout");
      SimulateTxLastLine(c, w, Payout, "payout");
    }
  }

  /** A `subsidy sent` line ends an attempt only when the payment was settled. */
  lemma SubsidySentMeansSettled(c: Ctx, w: World, res: FarmerResult)
    requires var r := AttemptPaymentSpec(c, w, res);
      NewLogs(w, r.world) != [] && NewLogs(w, r.world)[|NewLogs(w, r.world)| - 1].text.SubsidySent?
    ensures IsEligible(res)
    ensures SettledIn(c.answers, AttemptPaymentSpec(c, w, res).world.calls, res.decision.value.proofHash)
  {
    var r := AttemptPaymentSpec(c, w, res).world;
    var w1 := Record(w, IsPaymentExecuted(res.decision.value.proofHash));
    if CheckAnswer(c, w, res) == Ok(false) {
      assert r == PayUnpaidSpec(c, w1, res);
      assert NewLogs(w, r)[|NewLogs(w, r)| - 1] == NewLogs(w1, r)[|NewLogs(w1, r)| - 1];
      UnpaidSubsidySent(c, w1, res);
    }
  }

  /**
   * Idempotency: once an attempt has settled a payment, any later attempt for
   * the same decision, on a ledger that records settled payments, only logs
   * that the proof was paid.
   */
  lemma PaymentIsIdempotent(c: Ctx, w: World, res: FarmerResult, w': World)
    requires RemembersPayments(c.answers)
    requires var first := AttemptPaymentSpec(c, w, res);
      && NewLogs(w, first.world) != []
      && NewLogs(w, first.world)[|NewLogs(w, first.world)| - 1].text.SubsidySent?
      && Extends(first.world, w')
    ensures IsEligible(res)
    ensures var ph := res.decision.value.proofHash;
      AttemptPaymentSpec(c, w', res)
        == Step(Done(()), Emit(c, Record(w', IsPaymentExecuted(ph)), Info, PaymentAlreadyExecuted(Prefix(ph, 10))))
  {
    var first := AttemptPaymentSpec(c, w, res);
    var ph := res.decision.value.proofHash;
    SubsidySentMeansSettled(c, w, res);
    SettledPersists(c.answers, first.world.calls, w'.calls, ph);
    assert c.answers.isPaymentExecuted(w'.calls, ph) == Ok(true);
  }

  // ---- summary ----

  /** The summarizer's view of one result. */
  function SummaryRowOf(r: FarmerResult): (row: SummaryRow)
    ensures row.farmer == r.address && row.eligible == IsEligible(r)
    ensures row.crop == CropName(r.profile.cropType)
    ensures row.reason == if r.decision.Some? then r.decision.value.reason else ""
  {
    SummaryRow(r.address, CropName(r.profile.cropType), IsEligible(r), if r.decision.Some? then r.decision.value.reason else "")
  }

  const SummaryModel := "llama3-8b-8192"

  /** The request sent to the hosted model: the event and one row per evaluated farmer, in order. */
  function SummaryRequestOf(event: WeatherEvent, results: seq<FarmerResult>): (q: SummaryRequest)
    ensures q.model == SummaryModel && q.samplingTemperature == 0.2 && q.maxTokens == 200
    ensures q.region == event.region && q.rainfall == event.rainfall && q.temperature == event.temperature
    ensures q.droughtAlert == event.droughtAlert && q.floodAlert == event.floodAlert
    ensures |q.farmers| == |results| && forall i :: 0 <= i < |results| ==> q.farmers[i] == SummaryRowOf(results[i])
  {
    SummaryRequest(SummaryModel, 0.2, 200, event.region, event.droughtAlert, event.floodAlert,
                   event.rainfall, event.temperature, seq(|results|, i requires 0 <= i < |results| => SummaryRowOf(results[i])))
  }

  /**
   * `aiSummarize`: the template without an API key; with one, the model's
   * text trimmed, or on a failed request a warning and the fallback text. No
   * ledger call is made and no randomness drawn.
   */
  function SummarizeSpec(c: Ctx, w: World, event: WeatherEvent, results: seq<FarmerResult>): (r: (Summary, World))
    ensures r.1.calls == w.calls && r.1.bytesUsed == w.bytesUsed && r.1.floatsUsed == w.floatsUsed
    ensures Extends(w, r.1) && Quiet(NewLogs(w, r.1))
  {
    if !c.config.HasGroq() then (Templated(|results|, event.region, event.droughtAlert, event.floodAlert), w)
    else match c.summarizer(SummaryRequestOf(event, results))
      case Ok(text) => (Generated(Trim(text)), w)
      case Err(m) => (Unavailable(|results|), Emit(c, w, Warn, SummaryFailed(m)))
  }

  /**
   * Without an API key, the template for the event and the number of results;
   * with one, the model's reply trimmed, and only a failed request writes a
   * line: a warning, with the fallback naming the number of results.
   */
  lemma SummarizeOutcome(c: Ctx, w: World, event: WeatherEvent, results: seq<FarmerResult>)
    ensures var r := SummarizeSpec(c, w, event, results);
      var answer := c.summarizer(SummaryRequestOf(event, results));
      && (!c.config.HasGroq() ==> r == (Templated(|results|, event.region, event.droughtAlert, event.floodAlert), w))
      && (c.config.HasGroq() && answer.Ok? ==> r == (Generated(Trim(answer.value)), w))
      && (c.config.HasGroq() && answer.Err? ==>
            r == (Unavailable(|results|), Emit(c, w, Warn, SummaryFailed(answer.message))))
  {
  }

  // ---- the operations on the shared services ----

  method SimulateTx(s: Services, now: nat, kind: SimulatedKind, txLabel: string)
    requires s.Valid()
    modifies s.log, s.entropy
    ensures s.Valid()
    ensures s.State() == SimulateTxSpec(s.Context(now), old(s.State()), kind, txLabel)
  {
    ghost var c := s.Context(now);
    ghost var w0 := s.State();
    var tx := NewFakeTx(s);
    s.AddLog(now, Info, Announcement(kind, Prefix(tx, 10)));
    ghost var w1 := s.State();
    assert w1 == Emit(c, w0.(bytesUsed := w0.bytesUsed + 1), Info, Announcement(kind, Prefix(FakeTx(c.bytes(w0.bytesUsed)), 10)));
    ConfirmVirtualTx(s, now, tx, txLabel);
  }

  method WriteEligibility(s: Services, now: nat, farmer: Address, eventId: EventId, schemeId: SchemeId,
                          preview: Decision) returns (d: Decision)
    requires s.Valid()
    modifies s.log, s.ledger
    ensures s.Valid()
    ensures (d, s.State()) == WriteEligibilitySpec(s.Context(now), old(s.State()), farmer, eventId, schemeId, preview)
  {
    d := preview;
    var send := s.ledger.SubmitEligibility(farmer, eventId, schemeId);
    if send.Err? {
      s.AddLog(now, Error, EligibilityTxFailed(farmer, send.message));
      return;
    }
    s.AddLog(now, Info, EligibilityTxSent(farmer, send.value));
    var wait := s.ledger.WaitForEligibility(send.value);
    if wait.Err? {
      s.AddLog(now, Error, EligibilityTxFailed(farmer, wait.message));
      return;
    }
    var latest := s.ledger.LatestDecision(farmer);
    if latest.Err? {
      s.AddLog(now, Error, EligibilityTxFailed(farmer, latest.message));
      return;
    }
    d := latest.value;
    s.AddLog(now, Info, DecisionStored(d.proofHash));
  }

  method EvaluateFarmerEligibility(s: Services, now: nat, farmer: Address, event: WeatherEvent, schemeId: SchemeId)
    returns (r: Outcome<FarmerResult>)
    requires s.Valid()
    modifies s.log, s.ledger, s.entropy
    ensures s.Valid()
    ensures Step(r, s.State()) == EvaluateSpec(s.Context(now), old(s.State()), farmer, event, schemeId)
  {
    var pr := s.ledger.FarmerProfile(farmer);
    if pr.Err? {
      return Threw(pr.message);
    }
    var p := pr.value;
    if !p.isActive {
      s.AddLog(now, Warn, SkippingInactive(farmer, event.region));
      return Done(FarmerResult(farmer, p, None));
    }
    var pv := s.ledger.Preview(farmer, event.eventId, schemeId);
    if pv.Err? {
      s.AddLog(now, Warn, PreviewFailed(farmer, pv.message));
      return Done(FarmerResult(farmer, p, None));
    }
    if !pv.value.isEligible {
      s.AddLog(now, Info, NotEligible(farmer, ReasonOrDefault(pv.value.reason)));
      return Done(FarmerResult(farmer, p, Some(pv.value)));
    }
    var decision := pv.value;
    if s.config.WritesEligibility() {
      decision := WriteEligibility(s, now, farmer, event.eventId, schemeId, pv.value);
    } else {
      SimulateTx(s, now, Approval(farmer), "eligibility");
    }
    r := Done(FarmerResult(farmer, p, Some(decision)));
  }

  method ExecutePayment(s: Services, now: nat, farmer: Address, d: Decision)
    requires s.Valid()
    modifies s.log, s.ledger
    ensures s.Valid()
    ensures s.State() == ExecutePaymentSpec(s.Context(now), old(s.State()), farmer, d)
  {
    var send := s.ledger.ExecutePayment(farmer, d.proofHash, d.subsidyAmount);
    if send.Err? {
      s.AddLog(now, Error, PaymentFailed(farmer, send.message));
      return;
    }
    s.AddLog(now, Info, PaymentSubmitted(farmer, send.value));
    var wait := s.ledger.WaitForPayment(send.value);
    if wait.Err? {
      s.AddLog(now, Error, PaymentFailed(farmer, wait.message));
      return;
    }
    s.AddLog(now, Info, SubsidySent(d.subsidyAmount));
  }

  method AttemptPayment(s: Services, now: nat, res: FarmerResult) returns (r: Outcome<()>)
    requires s.Valid()
    modifies s.log, s.ledger, s.entropy
    ensures s.Valid()
    ensures Step(r, s.State()) == AttemptPaymentSpec(s.Context(now), old(s.State()), res)
  {
    if !IsEligible(res) {
      return Done(());
    }
    var d := res.decision.value;
    var chk := s.ledger.PaymentExecuted(d.proofHash);
    if chk.Err? {
      return Threw(chk.message);
    }
    if chk.value {
      s.AddLog(now, Info, PaymentAlreadyExecuted(Prefix(d.proofHash, 10)));
      return Done(());
    }
    if s.config.ExecutesPayments() {
      ExecutePayment(s, now, res.address, d);
    } else {
      SimulateTx(s, now, Payout, "payout");
    }
    r := Done(());
  }

  method Summarize(s: Services, now: nat, event: WeatherEvent, results: seq<FarmerResult>) returns (summary: Summary)
    requires s.Valid()
    modifies s.log
    ensures s.Valid()
    ensures (summary, s.State()) == SummarizeSpec(s.Context(now), old(s.State()), event, results)
  {
    if !s.config.HasGroq() {
      return Templated(|results|, event.region, event.droughtAlert, event.floodAlert);
    }
    var answer := s.summarizer(SummaryRequestOf(event, results));
    if answer.Ok? {
      summary := Generated(Trim(answer.value));
    } else {
      s.AddLog(now, Warn, SummaryFailed(answer.message));
      summary := Unavailable(|results|);
    }
  }
}
