/**
 * The guided demonstration of the agent on the landing page: a six-step
 * script that walks the step cards from pending to success and writes a
 * feed of agent log lines that keeps only its 20 most recent entries.
 */
module Demo {
  import opened Wrappers
  import opened Text
  import opened Seqs
  import AgentRuntime
  import Config

  datatype StepStatus = Pending | Processing | Success | Failed

  /** The details a step card shows once its step has run. */
  datatype StepData =
    | WeatherData(region: string, temp: string, rainfall: string, alert: string)
    | FarmersData(farmers: nat, region: string)
    | EligibilityData(eligible: bool, amount: string, reason: string, multiplier: string)
    | ProofData(proofHash: string)
    | PaymentData(amount: string, recipient: string, txHash: string)

  /**
   * The description a card shows: one of the six first descriptions, or
   * one the script sets; `CaptionText` renders each as the page shows it.
   */
  datatype Caption =
    | FirstCaption(index: nat)
    | MonitoringOracle | DroughtConfirmed
    | ScanningFarmers | FarmersConfirmed
    | RunningChecks | FarmerEligible
    | CreatingProof | ProofGenerated(proofHash: string)
    | VerifyingProof | PaymentExecuted
    | ProcessComplete

  const InitialDescriptions: seq<string> := [
      "Monitoring blockchain for disaster alerts...",
      "Finding registered farmers in disaster zone...",
      "Checking crop types, location match, and scheme rules...",
      "Creating immutable eligibility proof on-chain...",
      "Sending subsidy directly to farmer's wallet...",
      "Farmer received subsidy in minutes, not months!"]

  function CaptionText(c: Caption): string {
    match c
    case FirstCaption(i) => if i < |InitialDescriptions| then InitialDescriptions[i] else ""
    case MonitoringOracle => "AI agent monitoring WeatherOracle contract..."
    case DroughtConfirmed => "✅ Drought alert confirmed! Temperature: 36°C, Rainfall: 1mm"
    case ScanningFarmers => "Scanning blockchain for registered farmers..."
    case FarmersConfirmed => "✅ Found 3 registered farmers in affected region"
    case RunningChecks => "Running eligibility checks against subsidy scheme..."
    case FarmerEligible => "✅ Farmer eligible! Subsidy: 1.5 ETH (150% multiplier for drought)"
    case CreatingProof => "Creating on-chain proof hash..."
    case ProofGenerated(h) => "✅ Proof generated: " + Prefix(h, 10) + "..." + Last(h, 8)
    case VerifyingProof => "Verifying proof and checking contract balance..."
    case PaymentExecuted => "✅ Payment executed! 1.5 ETH sent to farmer's wallet"
    case ProcessComplete => "✅ Entire process completed autonomously! Zero human intervention required."
  }

  /** One step card; its icon is presentation and is not modelled. */
  datatype DemoStep = DemoStep(
    id: string,
    title: string,
    description: Caption,
    status: StepStatus,
    txHash: Option<string>,
    data: Option<StepData>,
    timestamp: Option<int>)

  /** A `Partial<DemoStep>` as the script passes it: `Some(v)` for each key present. */
  datatype StepUpdate = StepUpdate(
    status: Option<StepStatus>,
    description: Option<Caption>,
    txHash: Option<string>,
    data: Option<StepData>)

  const InitialTitles: seq<string> := [
      "🌍 AI Agent Detects Weather Event",
      "🔍 Scanning Affected Region",
      "🧠 AI Evaluates Eligibility",
      "✅ Generating Proof Hash",
      "💰 Executing Automatic Payment",
      "🎉 Mission Complete!"]

  /** The six step cards as first shown: ids "1" to "6", all pending. */
  function InitialSteps(): (steps: seq<DemoStep>)
    ensures |steps| == 6
    ensures forall i :: 0 <= i < 6 ==>
      steps[i].status == Pending && steps[i].txHash.None? && steps[i].data.None? && steps[i].timestamp.None?
      && steps[i].description == FirstCaption(i)
  {
    seq(6, i requires 0 <= i < 6 =>
      DemoStep(NatToString(i + 1), InitialTitles[i], FirstCaption(i), Pending, None, None, None))
  }

  /**
   * A line of the agent feed: which of the script's lines it is, with the
   * hash prefix the proof line quotes; `LineText` renders each.
   */
  datatype Line =
    | AgentInitialized | ListeningForEvents | WeatherDetected | WeatherReadings
    | QueryingRegistry | FarmersFound | FirstFarmer | SecondFarmer | ThirdFarmer
    | EvaluatingEligibility | RegionMatches | AlertMatches | CropEligible | SubsidyCalculated
    | GeneratingProof | ProofHashShown(prefix: string) | ProofRecorded
    | ExecutingPayment | ProofVerified | BalanceSufficient | SendingPayment | PaymentConfirmed
    | DistributionComplete | TotalTime | AgentReady

  function LineText(l: Line): string {
    match l
    case AgentInitialized => "🤖 AI Agent initialized and scanning blockchain..."
    case ListeningForEvents => "📡 Listening for WeatherDataRecorded events..."
    case WeatherDetected => "🌡️  Weather event detected: Drought alert in DemoDistrict"
    case WeatherReadings => "   Temperature: 36°C | Rainfall: 1mm | Alert: DROUGHT"
    case QueryingRegistry => "🔍 Querying FarmerRegistry for affected region..."
    case FarmersFound => "👥 Found 3 registered farmers in DemoDistrict"
    case FirstFarmer => "   • Farmer 1: RICE crop, Village: DemoVillage"
    case SecondFarmer => "   • Farmer 2: WHEAT crop, Village: DemoVillage"
    case ThirdFarmer => "   • Farmer 3: CORN crop, Village: DemoVillage"
    case EvaluatingEligibility => "🧠 AI Agent evaluating eligibility for each farmer..."
    case RegionMatches => "   ✓ Checking region match: DemoDistrict ✓"
    case AlertMatches => "   ✓ Checking disaster alert: DROUGHT ✓"
    case CropEligible => "   ✓ Checking crop eligibility: RICE eligible ✓"
    case SubsidyCalculated => "💰 Calculating subsidy: Base 1.0 ETH × 150% (drought) = 1.5 ETH"
    case GeneratingProof => "🔐 Generating immutable eligibility proof..."
    case ProofHashShown(p) => "   Proof Hash: " + p + "..."
    case ProofRecorded => "✅ Proof recorded on-chain in EligibilityEngine"
    case ExecutingPayment => "💸 Authorized AI agent executing payment..."
    case ProofVerified => "   ✓ Proof verified: Valid and eligible"
    case BalanceSufficient => "   ✓ Contract balance: Sufficient funds available"
    case SendingPayment => "   📤 Sending 1.5 ETH to farmer wallet..."
    case PaymentConfirmed => "   ✅ Transaction confirmed on Sepolia"
    case DistributionComplete => "🎉 Subsidy distribution complete!"
    case TotalTime => "   Total time: ~2 minutes (vs. months in traditional system)"
    case AgentReady => "🤖 AI Agent ready for next disaster event..."
  }

  /** `{ ...step, ...updates, timestamp: now }`. */
  function MergeStep(step: DemoStep, u: StepUpdate, now: int): DemoStep {
    step.(
      status := u.status.GetOr(step.status),
      description := u.description.GetOr(step.description),
      txHash := if u.txHash.Some? then u.txHash else step.txHash,
      data := if u.data.Some? then u.data else step.data,
      timestamp := Some(now))
  }

  /** The keys of `u`, then those of `v` on top: one update doing what `u` followed by `v` does. */
  function Then(u: StepUpdate, v: StepUpdate): StepUpdate {
    StepUpdate(
      if v.status.Some? then v.status else u.status,
      if v.description.Some? then v.description else u.description,
      if v.txHash.Some? then v.txHash else u.txHash,
      if v.data.Some? then v.data else u.data)
  }

  /**
   * `updateStep(index, updates)`: the step at `index` is merged with the
   * update and stamped; the number of steps and every other step stay as they were.
   */
  function UpdateSteps(steps: seq<DemoStep>, index: int, u: StepUpdate, now: int): (r: seq<DemoStep>)
    ensures |r| == |steps|
    ensures forall j :: 0 <= j < |steps| && j != index ==> r[j] == steps[j]
    ensures 0 <= index < |steps| ==> r[index] == MergeStep(steps[index], u, now)
  {
    seq(|steps|, j requires 0 <= j < |steps| => if j == index then MergeStep(steps[j], u, now) else steps[j])
  }

  /** An index outside the list changes nothing. */
  lemma UpdateOutsideIsIdentity(steps: seq<DemoStep>, index: int, u: StepUpdate, now: int)
    requires !(0 <= index < |steps|)
    ensures UpdateSteps(steps, index, u, now) == steps
  {
  }

  /** Updates of two different steps do not interfere: their order does not matter. */
  lemma UpdatesOfDifferentStepsCommute(steps: seq<DemoStep>, i: int, j: int, u: StepUpdate, v: StepUpdate, now: int)
    requires i != j
    ensures UpdateSteps(UpdateSteps(steps, i, u, now), j, v, now) == UpdateSteps(UpdateSteps(steps, j, v, now), i, u, now)
  {
  }

  /** Two updates of one step are the single update `Then(u, v)` stamped with the later time. */
  lemma UpdateTwice(steps: seq<DemoStep>, i: int, u: StepUpdate, v: StepUpdate, t1: int, t2: int)
    ensures UpdateSteps(UpdateSteps(steps, i, u, t1), i, v, t2) == UpdateSteps(steps, i, Then(u, v), t2)
  {
    var a, b := UpdateSteps(UpdateSteps(steps, i, u, t1), i, v, t2), UpdateSteps(steps, i, Then(u, v), t2);
    forall j | 0 <= j < |a| ensures a[j] == b[j] {
      if j == i {
        assert a[j] == MergeStep(MergeStep(steps[j], u, t1), v, t2);
      }
    }
  }

  /** `resetDemo`'s map: every step pending with no hash, data or timestamp; ids, titles and descriptions are kept. */
  function ResetSteps(steps: seq<DemoStep>): (r: seq<DemoStep>)
    ensures |r| == |steps|
    ensures forall i :: 0 <= i < |r| ==>
      r[i].status == Pending && r[i].txHash.None? && r[i].data.None? && r[i].timestamp.None?
      && r[i].id == steps[i].id && r[i].title == steps[i].title && r[i].description == steps[i].description
  {
    seq(|steps|, i requires 0 <= i < |steps| =>
      steps[i].(status := Pending, txHash := None, data := None, timestamp := None))
  }

  /** The map at the start of a run: like `ResetSteps` but the timestamps are left in place. */
  function ClearForRun(steps: seq<DemoStep>): (r: seq<DemoStep>)
    ensures |r| == |steps|
    ensures forall i :: 0 <= i < |r| ==>
      r[i].status == Pending && r[i].txHash.None? && r[i].data.None? && r[i].timestamp == steps[i].timestamp
      && r[i].id == steps[i].id && r[i].title == steps[i].title && r[i].description == steps[i].description
  {
    seq(|steps|, i requires 0 <= i < |steps| => steps[i].(status := Pending, txHash := None, data := None))
  }

  /** Resetting after a reset changes nothing, and resetting after clearing is resetting. */
  lemma ResetSettles(steps: seq<DemoStep>)
    ensures ResetSteps(ResetSteps(steps)) == ResetSteps(steps)
    ensures ResetSteps(ClearForRun(steps)) == ResetSteps(steps)
  {
  }

  /** One entry of the agent feed; the script never attaches data to its entries. */
  datatype AgentLog = AgentLog(ts: int, level: string, line: Line)

  const MaxLogs: nat := 20

  /** `addAgentLog`: the last 19 entries, then the new one. */
  function AppendAgentLog(logs: seq<AgentLog>, e: AgentLog): (r: seq<AgentLog>)
    ensures r == Last(logs + [e], MaxLogs)
    ensures 1 <= |r| <= MaxLogs && r[|r| - 1] == e
  {
    LastAppend(logs, e, MaxLogs - 1);
    Last(logs, MaxLogs - 1) + [e]
  }

  /** Adding to the 20 most recent entries of a history gives the 20 most recent entries of the longer history. */
  lemma AppendKeepsRecent(logs: seq<AgentLog>, history: seq<AgentLog>, e: AgentLog)
    requires logs == Last(history, MaxLogs)
    ensures AppendAgentLog(logs, e) == Last(history + [e], MaxLogs)
  {
    LastConcat(history, [e], MaxLogs);
  }

  /** The feed after adding `es` one after the other. */
  function AppendAll(logs: seq<AgentLog>, es: seq<AgentLog>): seq<AgentLog>
    decreases |es|
  {
    if es == [] then logs else AppendAll(AppendAgentLog(logs, es[0]), es[1..])
  }

  /** Whatever is added, a feed of at most 20 entries is always the 20 most recent ones, in order. */
  lemma {:induction false} AppendAllKeepsRecent(logs: seq<AgentLog>, es: seq<AgentLog>)
    requires |logs| <= MaxLogs
    ensures AppendAll(logs, es) == Last(logs + es, MaxLogs)
    decreases |es|
  {
    if es == [] {
      assert logs + es == logs;
      assert Last(logs, MaxLogs) == logs;
    } else {
      var a := AppendAgentLog(logs, es[0]);
      var rest := es[1..];
      assert AppendAll(logs, es) == AppendAll(a, rest);
      AppendAllKeepsRecent(a, rest);
      LastConcat(logs + [es[0]], rest, MaxLogs);
      assert a == Last(logs + [es[0]], MaxLogs);
      AppendHeadTail(logs, es);
    }
  }

  /** `Math.floor(Math.random() * 16)`. */
  function RandomHexDigit(u: AgentRuntime.Unit): (d: nat)
    ensures d < 16
  {
    16 * u / AgentRuntime.RandomScale
  }

  /** The simulated proof hash: "0x" and one hexadecimal digit for each of 64 random draws. */
  function ProofHash(rolls: nat -> AgentRuntime.Unit): (h: string)
    ensures |h| == 66 && h[..2] == "0x"
    ensures forall i :: 2 <= i < |h| ==> IsHexDigit(h[i])
  {
    "0x" + HashDigits(rolls)
  }

  function HashDigits(rolls: nat -> AgentRuntime.Unit): (d: string)
    ensures |d| == 64 && forall i :: 0 <= i < 64 ==> d[i] == HexDigit(RandomHexDigit(rolls(i)))
  {
    seq(64, i requires 0 <= i < 64 => HexDigit(RandomHexDigit(rolls(i))))
  }

  /** Each digit of the hash reads back as the digit drawn for it. */
  lemma ProofHashDigits(rolls: nat -> AgentRuntime.Unit, i: nat)
    requires i < 64
    ensures HexValue(ProofHash(rolls)[2 + i]) == RandomHexDigit(rolls(i))
  {
    HexDigitValue(RandomHexDigit(rolls(i)));
  }

  /** The feed entries for `lines`, all at level "info" and stamped `now`. */
  function Entries(lines: seq<Line>, now: int): (r: seq<AgentLog>)
    ensures |r| == |lines| && forall i :: 0 <= i < |r| ==> r[i] == AgentLog(now, "info", lines[i])
  {
    seq(|lines|, i requires 0 <= i < |lines| => AgentLog(now, "info", lines[i]))
  }

  lemma EntriesConcat(a: seq<Line>, b: seq<Line>, now: int)
    ensures Entries(a + b, now) == Entries(a, now) + Entries(b, now)
  {
  }

  /** Entries added after a history of entries for `p` extend it to the history for `p + q`. */
  lemma EntriesAfter(h: seq<AgentLog>, p: seq<Line>, q: seq<Line>, now: int)
    ensures (h + Entries(p, now)) + Entries(q, now) == h + Entries(p + q, now)
  {
    EntriesConcat(p, q, now);
    assert (h + Entries(p, now)) + Entries(q, now) == h + (Entries(p, now) + Entries(q, now));
  }

  /** An update that sets a status and a description. */
  function Working(description: Caption): StepUpdate {
    StepUpdate(Some(Processing), Some(description), None, None)
  }

  /** An update that marks a step done, with its description, data and hash. */
  function Succeeded(description: Caption, data: Option<StepData>, txHash: Option<string>): StepUpdate {
    StepUpdate(Some(Success), Some(description), txHash, data)
  }

  /** One phase of the script: the lines it writes and the two updates of its card. */
  datatype Phase = Phase(lines: seq<Line>, started: StepUpdate, done: StepUpdate)

  /**
   * A script of the shape `runDemo` follows: five phases on cards 0 to 4,
   * then closing lines, the last card's update and a final line.
   */
  datatype Script = Script(
    detect: Phase, scan: Phase, evaluate: Phase, proof: Phase, payment: Phase,
    closing: seq<Line>, finishDone: StepUpdate, ready: Line)

  /** Each phase writes its first line before its card starts working. */
  predicate WellFormed(sc: Script) {
    sc.detect.lines != [] && sc.scan.lines != [] && sc.evaluate.lines != []
    && sc.proof.lines != [] && sc.payment.lines != []
  }

  /** Every line a script writes, in order. */
  function ScriptLines(sc: Script): seq<Line> {
    sc.detect.lines + sc.scan.lines + sc.evaluate.lines + sc.proof.lines + sc.payment.lines
    + sc.closing + [sc.ready]
  }

  /** A history extended by the entries of each part of a script, in order, is extended by the script's entries. */
  lemma ScriptEntriesAfter(h: seq<AgentLog>, sc: Script, now: int)
    ensures h + Entries(sc.detect.lines, now) + Entries(sc.scan.lines, now) + Entries(sc.evaluate.lines, now)
      + Entries(sc.proof.lines, now) + Entries(sc.payment.lines, now) + Entries(sc.closing, now)
      + Entries([sc.ready], now)
      == h + Entries(ScriptLines(sc), now)
  {
    var p := sc.detect.lines;
    EntriesAfter(h, p, sc.scan.lines, now);
    p := p + sc.scan.lines;
    EntriesAfter(h, p, sc.evaluate.lines, now);
    p := p + sc.evaluate.lines;
    EntriesAfter(h, p, sc.proof.lines, now);
    p := p + sc.proof.lines;
    EntriesAfter(h, p, sc.payment.lines, now);
    p := p + sc.payment.lines;
    EntriesAfter(h, p, sc.closing, now);
    p := p + sc.closing;
    EntriesAfter(h, p, [sc.ready], now);
  }

  /** One phase of a script on the cards: card `index` marked working, then done. */
  function PhaseSteps(s: seq<DemoStep>, index: nat, ph: Phase, now: int): (r: seq<DemoStep>)
    ensures |r| == |s|
    ensures forall j :: 0 <= j < |s| && j != index ==> r[j] == s[j]
    ensures index < |s| ==> r[index] == MergeStep(s[index], Then(ph.started, ph.done), now)
  {
    UpdateTwice(s, index, ph.started, ph.done, now, now);
    UpdateSteps(UpdateSteps(s, index, ph.started, now), index, ph.done, now)
  }

  /** The cards after a script has run on `steps`. */
  function ScriptCards(steps: seq<DemoStep>, sc: Script, now: int): seq<DemoStep> {
    var s1 := PhaseSteps(steps, 0, sc.detect, now);
    var s2 := PhaseSteps(s1, 1, sc.scan, now);
    var s3 := PhaseSteps(s2, 2, sc.evaluate, now);
    var s4 := PhaseSteps(s3, 3, sc.proof, now);
    var s5 := PhaseSteps(s4, 4, sc.payment, now);
    UpdateSteps(s5, 5, sc.finishDone, now)
  }

  /** The update that, in effect, card `i` receives from a script. */
  function FinalUpdate(sc: Script, i: nat): StepUpdate
    requires i < 6
  {
    match i
    case 0 => Then(sc.detect.started, sc.detect.done)
    case 1 => Then(sc.scan.started, sc.scan.done)
    case 2 => Then(sc.evaluate.started, sc.evaluate.done)
    case 3 => Then(sc.proof.started, sc.proof.done)
    case 4 => Then(sc.payment.started, sc.payment.done)
    case _ => sc.finishDone
  }

  /**
   * A script touches each of six cards once in effect: every card ends as
   * it was with its own update applied and stamped with the run's time.
   */
  lemma ScriptCardsFinal(steps: seq<DemoStep>, sc: Script, now: int)
    requires |steps| == 6
    ensures var r := ScriptCards(steps, sc, now);
      |r| == 6 && forall i :: 0 <= i < 6 ==> r[i] == MergeStep(steps[i], FinalUpdate(sc, i), now)
  {
    var s1 := PhaseSteps(steps, 0, sc.detect, now);
    var s2 := PhaseSteps(s1, 1, sc.scan, now);
    var s3 := PhaseSteps(s2, 2, sc.evaluate, now);
    var s4 := PhaseSteps(s3, 3, sc.proof, now);
    var s5 := PhaseSteps(s4, 4, sc.payment, now);
    var r := UpdateSteps(s5, 5, sc.finishDone, now);
    assert r == ScriptCards(steps, sc, now);
    assert r[0] == s1[0] && r[1] == s2[1] && r[2] == s3[2] && r[3] == s4[3] && r[4] == s5[4];
  }

  const DemoWeather: StepData := WeatherData("DemoDistrict", "36°C", "1mm", "DROUGHT")
  const DemoFarmers: StepData := FarmersData(3, "DemoDistrict")
  const DemoEligibility: StepData := EligibilityData(true, "1.5", "Farmer meets all eligibility criteria", "150%")

  /** The payment card's recipient: the connected address, or a placeholder. */
  function RecipientOf(address: Option<string>): string {
    if address.Some? && address.value != "" then address.value else "0x..."
  }

  /** The script `runDemo` plays, for proof hash `h` and the payment's recipient and hash tag. */
  function DemoScript(h: string, recipient: string, tag: string): (sc: Script)
    ensures WellFormed(sc)
  {
    Script(
      Phase([AgentInitialized, ListeningForEvents, WeatherDetected, WeatherReadings],
        Working(MonitoringOracle), Succeeded(DroughtConfirmed, Some(DemoWeather), None)),
      Phase([QueryingRegistry, FarmersFound, FirstFarmer, SecondFarmer, ThirdFarmer],
        Working(ScanningFarmers), Succeeded(FarmersConfirmed, Some(DemoFarmers), None)),
      Phase([EvaluatingEligibility, RegionMatches, AlertMatches, CropEligible, SubsidyCalculated],
        Working(RunningChecks), Succeeded(FarmerEligible, Some(DemoEligibility), None)),
      Phase([GeneratingProof, ProofHashShown(Prefix(h, 20)), ProofRecorded],
        Working(CreatingProof), Succeeded(ProofGenerated(h), Some(ProofData(h)), Some(h))),
      Phase([ExecutingPayment, ProofVerified, BalanceSufficient, SendingPayment, PaymentConfirmed],
        Working(VerifyingProof), Succeeded(PaymentExecuted, Some(PaymentData("1.5", recipient, "0x..." + tag)), None)),
      [DistributionComplete, TotalTime],
      Succeeded(ProcessComplete, None, None),
      AgentReady)
  }

  /** Every line the demonstration writes, in order: 25 lines, the sixteenth quoting the hash. */
  function DemoLines(h: string): seq<Line> {
    ScriptLines(DemoScript(h, "", ""))
  }

  /**
   * A run writes 25 lines, so the feed it leaves holds the last 20 of them:
   * the four weather lines and the registry query scroll out, and the ready
   * line is the newest entry.
   */
  lemma DemoFeedKeepsLastTwenty(h: string, now: int)
    ensures |DemoLines(h)| == 25 && DemoLines(h)[15] == ProofHashShown(Prefix(h, 20))
    ensures Last(Entries(DemoLines(h), now), MaxLogs) == Entries(DemoLines(h)[5..], now)
    ensures Last(Entries(DemoLines(h), now), MaxLogs)[0] == AgentLog(now, "info", FarmersFound)
    ensures Last(Entries(DemoLines(h), now), MaxLogs)[19] == AgentLog(now, "info", AgentReady)
  {
  }

  /** The lines do not depend on the payment's recipient or tag. */
  lemma DemoScriptLines(h: string, recipient: string, tag: string)
    ensures ScriptLines(DemoScript(h, recipient, tag)) == DemoLines(h)
  {
  }

  /**
   * After a run every card is a success stamped with the run's time and
   * keeps its id and title; only the proof card carries a transaction hash,
   * the simulated proof hash, and every card but the last shows its data.
   */
  lemma DemoEndsInSuccess(steps: seq<DemoStep>, now: int, h: string, recipient: string, tag: string)
    requires |steps| == 6
    ensures var r := ScriptCards(ClearForRun(steps), DemoScript(h, recipient, tag), now);
      |r| == 6
      && (forall i :: 0 <= i < 6 ==>
            r[i].status == Success && r[i].timestamp == Some(now)
            && r[i].id == steps[i].id && r[i].title == steps[i].title)
      && r[3].txHash == Some(h) && r[3].data == Some(ProofData(h)) && r[3].description == ProofGenerated(h)
      && (forall i :: 0 <= i < 6 && i != 3 ==> r[i].txHash.None?)
      && r[0].data == Some(DemoWeather) && r[1].data == Some(DemoFarmers) && r[2].data == Some(DemoEligibility)
      && r[4].data == Some(PaymentData("1.5", recipient, "0x..." + tag)) && r[5].data.None?
  {
    ScriptCardsFinal(ClearForRun(steps), DemoScript(h, recipient, tag), now);
  }

  /** The demonstration's state: the run flag, the highlighted step, the feed and the step cards. */
  class DemoSimulation {
    var isRunning: bool
    var currentStep: nat
    var agentLogs: seq<AgentLog>
    /** Every entry added to the feed since it was last emptied. */
    ghost var logHistory: seq<AgentLog>
    var steps: seq<DemoStep>

    /** There are always six cards, and the feed is the 20 most recent entries added since it was emptied. */
    ghost predicate Valid()
      reads this
    {
      |steps| == 6 && agentLogs == Last(logHistory, MaxLogs)
    }

    constructor ()
      ensures Valid()
      ensures !isRunning && currentStep == 0 && agentLogs == [] && logHistory == [] && steps == InitialSteps()
    {
      isRunning := false;
      currentStep := 0;
      agentLogs := [];
      logHistory := [];
      steps := InitialSteps();
    }

    /** `updateStep`. */
    method UpdateStep(index: int, u: StepUpdate, now: int)
      requires Valid()
      modifies this
      ensures Valid()
      ensures steps == UpdateSteps(old(steps), index, u, now)
      ensures agentLogs == old(agentLogs) && logHistory == old(logHistory)
      ensures isRunning == old(isRunning) && currentStep == old(currentStep)
    {
      steps := UpdateSteps(steps, index, u, now);
    }

    /** `addAgentLog`. */
    method AddAgentLog(line: Line, level: string, now: int)
      requires Valid()
      modifies this
      ensures Valid()
      ensures agentLogs == AppendAgentLog(old(agentLogs), AgentLog(now, level, line))
      ensures logHistory == old(logHistory) + [AgentLog(now, level, line)]
      ensures steps == old(steps) && isRunning == old(isRunning) && currentStep == old(currentStep)
    {
      var e := AgentLog(now, level, line);
      AppendKeepsRecent(agentLogs, logHistory, e);
      agentLogs := AppendAgentLog(agentLogs, e);
      logHistory := logHistory + [e];
    }

    /** `resetDemo`. */
    method ResetDemo()
      requires Valid()
      modifies this
      ensures Valid()
      ensures steps == ResetSteps(old(steps)) && currentStep == 0 && !isRunning
      ensures agentLogs == [] && logHistory == []
    {
      steps := ResetSteps(steps);
      currentStep := 0;
      isRunning := false;
      agentLogs := [];
      logHistory := [];
    }

    /** Adds the given lines, in order. */
    method Say(lines: seq<Line>, now: int)
      requires Valid()
      modifies this
      ensures Valid()
      ensures logHistory == old(logHistory) + Entries(lines, now)
      ensures steps == old(steps) && isRunning == old(isRunning) && currentStep == old(currentStep)
    {
      var k := 0;
      while k < |lines|
        invariant 0 <= k <= |lines|
        invariant Valid()
        invariant logHistory == old(logHistory) + Entries(lines[..k], now)
        invariant steps == old(steps) && isRunning == old(isRunning) && currentStep == old(currentStep)
      {
        AddAgentLog(lines[k], "info", now);
        TakeOneMore(lines, k);
        EntriesAfter(old(logHistory), lines[..k], [lines[k]], now);
        k := k + 1;
      }
      assert lines[..k] == lines;
    }

    /**
     * One phase of a script: its first line, its card marked working, the
     * rest of its lines, its card marked done, then the next step highlighted.
     */
    method RunPhase(ph: Phase, index: nat, next: nat, now: int)
      requires Valid() && ph.lines != []
      modifies this
      ensures Valid()
      ensures logHistory == old(logHistory) + Entries(ph.lines, now)
      ensures steps == PhaseSteps(old(steps), index, ph, now)
      ensures currentStep == next && isRunning == old(isRunning)
    {
      ghost var h0 := logHistory;
      Say([ph.lines[0]], now);
      UpdateStep(index, ph.started, now);
      Say(ph.lines[1..], now);
      UpdateStep(index, ph.done, now);
      currentStep := next;
      EntriesAfter(h0, [ph.lines[0]], ph.lines[1..], now);
      HeadTail(ph.lines);
    }

    /**
     * The body of a run, for any script of its shape: every line is added to
     * the feed, the cards end as `ScriptCards` says, the last step is
     * highlighted and the run flag is cleared.
     */
    method RunScript(sc: Script, now: int)
      requires Valid() && WellFormed(sc)
      modifies this
      ensures Valid()
      ensures logHistory == old(logHistory) + Entries(ScriptLines(sc), now)
      ensures steps == ScriptCards(old(steps), sc, now)
      ensures currentStep == 5 && !isRunning
    {
      ghost var h0 := logHistory;
      ghost var s0 := steps;
      RunPhase(sc.detect, 0, 1, now);
      ghost var s1 := steps;
      RunPhase(sc.scan, 1, 2, now);
      ghost var s2 := steps;
      RunPhase(sc.evaluate, 2, 3, now);
      ghost var s3 := steps;
      RunPhase(sc.proof, 3, 4, now);
      ghost var s4 := steps;
      RunPhase(sc.payment, 4, 5, now);
      ghost var s5 := steps;
      Say(sc.closing, now);
      UpdateStep(5, sc.finishDone, now);
      Say([sc.ready], now);
      isRunning := false;
      ScriptEntriesAfter(h0, sc, now);
      assert steps == ScriptCards(s0, sc, now) by {
        assert s1 == PhaseSteps(s0, 0, sc.detect, now);
        assert s2 == PhaseSteps(s1, 1, sc.scan, now);
        assert s3 == PhaseSteps(s2, 2, sc.evaluate, now);
        assert s4 == PhaseSteps(s3, 3, sc.proof, now);
        assert s5 == PhaseSteps(s4, 4, sc.payment, now);
        assert steps == UpdateSteps(s5, 5, sc.finishDone, now);
      }
    }

    /**
     * `runDemo`. Without a connected wallet on Sepolia nothing changes.
     * Otherwise the feed is emptied and the cards cleared, and the
     * demonstration script runs to the end: the feed's history is exactly
     * the script's lines, the cards end as `DemoEndsInSuccess` describes,
     * the last step is highlighted and the run flag is cleared. `rolls` are
     * the 64 values `Math.random` gives for the proof hash and `paymentTag`
     * the hexadecimal tag of the simulated payment hash; the pauses between
     * steps are not modelled.
     */
    method RunDemo(connected: bool, chainId: int, address: Option<string>,
                   rolls: nat -> AgentRuntime.Unit, paymentTag: string, now: int)
      requires Valid()
      modifies this
      ensures Valid()
      ensures !(connected && chainId == Config.SepoliaChainId) ==>
        steps == old(steps) && agentLogs == old(agentLogs) && logHistory == old(logHistory)
        && isRunning == old(isRunning) && currentStep == old(currentStep)
      ensures connected && chainId == Config.SepoliaChainId ==>
        var h := ProofHash(rolls);
        logHistory == Entries(DemoLines(h), now)
        && agentLogs == Last(Entries(DemoLines(h), now), MaxLogs)
        && steps == ScriptCards(ClearForRun(old(steps)), DemoScript(h, RecipientOf(address), paymentTag), now)
        && currentStep == 5 && !isRunning
    {
      if !connected || chainId != Config.SepoliaChainId {
        return;
      }
      isRunning := true;
      currentStep := 0;
      agentLogs := [];
      logHistory := [];
      steps := ClearForRun(steps);
      var h := "0x" + HashDigits(rolls);
      assert h == ProofHash(rolls);
      var sc := DemoScript(h, RecipientOf(address), paymentTag);
      RunScript(sc, now);
      DemoScriptLines(h, RecipientOf(address), paymentTag);
      assert [] + Entries(ScriptLines(sc), now) == Entries(ScriptLines(sc), now);
    }
  }
}
