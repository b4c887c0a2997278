/**
 * The decision logic embedded in the autonomous workflow screen: the
 * registration form check, the mapping from a detected disaster type to the
 * two alert flags the weather oracle records, the label sent when no type is
 * known, the farmer search and status filter, the statistics, the current
 * progress step, and the reset of the screen's state.
 */
module Workflow {
  import opened Wrappers
  import opened Text
  import opened Seqs
  import opened Store

  /** The registration form as the user edits it: coordinates are still text. */
  datatype FarmerForm = FarmerForm(
    recipientAddress: string,
    landProofHash: string,
    district: string,
    village: string,
    latitude: string,
    longitude: string,
    cropType: int,
    fetchingCoords: bool)

  const InitialForm: FarmerForm := FarmerForm("", "", "", "", "", "", 0, false)

  /** `!a || !a.startsWith("0x") || a.length !== 42` fails: a 42-character text starting with 0x. */
  predicate ValidRecipient(a: string) {
    a != "" && StartsWith(a, "0x") && |a| == 42
  }

  /** `!s || s.trim().length === 0` fails: the field holds something besides whitespace. */
  predicate Filled(s: string) {
    s != "" && |Trim(s)| != 0
  }

  /** A field counts as filled exactly when it is not made of whitespace alone. */
  lemma FilledIffNotBlank(s: string)
    ensures Filled(s) <==> !IsBlank(s)
  {
    TrimEmptyIffBlank(s);
  }

  /** Every check of the form passes. */
  predicate FormValid(f: FarmerForm) {
    ValidRecipient(f.recipientAddress) && Filled(f.landProofHash) && Filled(f.district)
    && Filled(f.village) && f.latitude != "" && f.longitude != ""
  }

  const RecipientError: string := "Please enter a valid Ethereum address (0x...)"
  const LandProofError: string := "Land proof hash is required"
  const DistrictError: string := "District is required"
  const VillageError: string := "Village is required"
  const CoordinatesError: string := "Please fetch coordinates by entering district and village"

  /** The keys of the error dictionary, one per check, in the order the checks run. */
  datatype ErrorKey = RecipientAddress | LandProofHash | District | Village | Coordinates {
    /** The key as the dictionary spells it. */
    function Name(): string {
      match this
      case RecipientAddress => "recipientAddress"
      case LandProofHash => "landProofHash"
      case District => "district"
      case Village => "village"
      case Coordinates => "coordinates"
    }

    /** The message stored under the key. */
    function Message(): string {
      match this
      case RecipientAddress => RecipientError
      case LandProofHash => LandProofError
      case District => DistrictError
      case Village => VillageError
      case Coordinates => CoordinatesError
    }

    /** The check this key reports fails on `f`. */
    predicate FailsOn(f: FarmerForm) {
      match this
      case RecipientAddress => !ValidRecipient(f.recipientAddress)
      case LandProofHash => !Filled(f.landProofHash)
      case District => !Filled(f.district)
      case Village => !Filled(f.village)
      case Coordinates => f.latitude == "" || f.longitude == ""
    }

    /** The position of the key's check in `validateForm`. */
    function Position(): nat {
      match this
      case RecipientAddress => 0
      case LandProofHash => 1
      case District => 2
      case Village => 3
      case Coordinates => 4
    }
  }

  /**
   * The error dictionary `validateForm` builds for `f`: a key exactly for
   * each failing check, holding that check's message.
   */
  predicate ReportsErrors(f: FarmerForm, errors: map<ErrorKey, string>) {
    forall k: ErrorKey :: (k in errors <==> k.FailsOn(f)) && (k in errors ==> errors[k] == k.Message())
  }

  /** Key `k` is in the dictionary, with its message, exactly when its check has run and failed. */
  ghost predicate Reported(f: FarmerForm, errors: map<ErrorKey, string>, k: ErrorKey, n: nat) {
    (k in errors <==> k.Position() < n && k.FailsOn(f)) && (k in errors ==> errors[k] == k.Message())
  }

  /** The dictionary after the first `n` checks have run. */
  ghost predicate ReportsFirst(f: FarmerForm, errors: map<ErrorKey, string>, n: nat) {
    Reported(f, errors, RecipientAddress, n) && Reported(f, errors, LandProofHash, n)
    && Reported(f, errors, District, n) && Reported(f, errors, Village, n) && Reported(f, errors, Coordinates, n)
  }

  /** The dictionary of errors for `f`, filled one check at a time. */
  method CollectFormErrors(f: FarmerForm) returns (errors: map<ErrorKey, string>)
    ensures ReportsErrors(f, errors)
  {
    errors := map[];
    ghost var e := errors;
    if !ValidRecipient(f.recipientAddress) {
      errors := errors[RecipientAddress := RecipientError];
    }
    CheckRuns(f, e, RecipientAddress);
    e := errors;
    if !Filled(f.landProofHash) {
      errors := errors[LandProofHash := LandProofError];
    }
    CheckRuns(f, e, LandProofHash);
    e := errors;
    if !Filled(f.district) {
      errors := errors[District := DistrictError];
    }
    CheckRuns(f, e, District);
    e := errors;
    if !Filled(f.village) {
      errors := errors[Village := VillageError];
    }
    CheckRuns(f, e, Village);
    e := errors;
    if f.latitude == "" || f.longitude == "" {
      errors := errors[Coordinates := CoordinatesError];
    }
    CheckRuns(f, e, Coordinates);
    forall k: ErrorKey ensures (k in errors <==> k.FailsOn(f)) && (k in errors ==> errors[k] == k.Message()) {
      assert Reported(f, errors, k, 5);
    }
  }

  /** Running check `k` on the dictionary of the checks before it adds `k` exactly when it fails. */
  lemma CheckRuns(f: FarmerForm, errors: map<ErrorKey, string>, k: ErrorKey)
    requires ReportsFirst(f, errors, k.Position())
    ensures ReportsFirst(f, if k.FailsOn(f) then errors[k := k.Message()] else errors, k.Position() + 1)
  {
  }

  /** The form is valid exactly when none of the five checks fails. */
  lemma ValidIffNoCheckFails(f: FarmerForm)
    ensures FormValid(f) <==> forall k: ErrorKey :: !k.FailsOn(f)
  {
    if !FormValid(f) {
      var k :=
        if !ValidRecipient(f.recipientAddress) then RecipientAddress
        else if !Filled(f.landProofHash) then LandProofHash
        else if !Filled(f.district) then District
        else if !Filled(f.village) then Village
        else Coordinates;
      assert k.FailsOn(f);
    }
  }

  /** The dictionary of errors of a form is empty exactly when every check passes. */
  lemma NoErrorsIffValid(f: FarmerForm, errors: map<ErrorKey, string>)
    requires ReportsErrors(f, errors)
    ensures |errors.Keys| == 0 <==> FormValid(f)
  {
    ValidIffNoCheckFails(f);
    if FormValid(f) {
      assert errors.Keys == {};
    } else {
      var k: ErrorKey :| k.FailsOn(f);
      assert k in errors.Keys;
    }
  }

  /** The initial empty form fails every check, each with its own key. */
  lemma InitialFormFailsEveryCheck()
    ensures !ValidRecipient(InitialForm.recipientAddress)
    ensures !Filled(InitialForm.landProofHash) && !Filled(InitialForm.district) && !Filled(InitialForm.village)
    ensures !FormValid(InitialForm)
  {
  }

  const DroughtDisasters: seq<string> := ["DROUGHT", "HEATWAVE", "PEST_OUTBREAK", "WILDFIRE"]
  const FloodDisasters: seq<string> := ["FLOOD", "CYCLONE", "TSUNAMI", "LANDSLIDE"]
  /** The types without a clear category, filed by their main effect. */
  const OtherDrought: seq<string> := ["FROST"]
  const OtherFlood: seq<string> := ["HAILSTORM", "EARTHQUAKE"]

  /** The two alert flags recorded for a detected disaster type. */
  datatype Alerts = Alerts(drought: bool, flood: bool)

  function AlertsFor(disasterType: string): (a: Alerts)
    ensures a.drought <==> disasterType in DroughtDisasters || disasterType in OtherDrought
    ensures a.flood <==> disasterType in FloodDisasters || disasterType in OtherFlood
  {
    Alerts(disasterType in DroughtDisasters || disasterType in OtherDrought,
           disasterType in FloodDisasters || disasterType in OtherFlood)
  }

  /** No type is both drought-like and flood-like: the two flags are never set together. */
  lemma AlertsExclusive(disasterType: string)
    ensures !(AlertsFor(disasterType).drought && AlertsFor(disasterType).flood)
    ensures AlertsFor(disasterType).drought <==>
      disasterType in {"DROUGHT", "HEATWAVE", "PEST_OUTBREAK", "WILDFIRE", "FROST"}
    ensures AlertsFor(disasterType).flood <==>
      disasterType in {"FLOOD", "CYCLONE", "TSUNAMI", "LANDSLIDE", "HAILSTORM", "EARTHQUAKE"}
  {
  }

  /** The weather inputs of the screen. */
  datatype WeatherForm = WeatherForm(
    region: string,
    temperature: string,
    rainfall: string,
    droughtAlert: bool,
    floodAlert: bool,
    eventId: string,
    disasterType: string)

  const EmptyWeatherForm: WeatherForm := WeatherForm("", "", "", false, false, "", "")

  /**
   * The disaster type sent for the eligibility evaluation: the recorded type,
   * or when there is none a label read off the two flags.
   */
  function DisasterLabel(w: WeatherForm): (name: string)
    ensures w.disasterType != "" ==> name == w.disasterType
    ensures w.disasterType == "" ==> name in {"MULTIPLE", "DROUGHT", "FLOOD", "NONE"}
    ensures w.disasterType == "" ==> (name == "MULTIPLE" <==> w.droughtAlert && w.floodAlert)
    ensures w.disasterType == "" ==> (name == "NONE" <==> !w.droughtAlert && !w.floodAlert)
    ensures w.disasterType == "" && w.droughtAlert && !w.floodAlert ==> name == "DROUGHT"
    ensures w.disasterType == "" && !w.droughtAlert && w.floodAlert ==> name == "FLOOD"
  {
    if w.disasterType != "" then w.disasterType
    else if w.droughtAlert && w.floodAlert then "MULTIPLE"
    else if w.droughtAlert then "DROUGHT"
    else if w.floodAlert then "FLOOD"
    else "NONE"
  }

  /**
   * Labelling the flags of a mapped type gives back its category: never
   * MULTIPLE, DROUGHT exactly for the drought-like types, FLOOD exactly for the
   * flood-like ones, NONE for every other type.
   */
  lemma LabelOfMappedFlags(disasterType: string)
    ensures var a := AlertsFor(disasterType);
      var name := DisasterLabel(WeatherForm("", "", "", a.drought, a.flood, "", ""));
      name != "MULTIPLE"
      && (name == "DROUGHT" <==> a.drought)
      && (name == "FLOOD" <==> a.flood)
      && (name == "NONE" <==> !a.drought && !a.flood)
  {
    AlertsExclusive(disasterType);
  }

  /** The status filter of the farmer list. */
  datatype FilterStatus = All | Eligible | Ineligible

  /** The query occurs, ignoring case, in the farmer's district, village or recipient address. */
  predicate MatchesSearch(f: FarmerData, query: string) {
    var q := ToLower(query);
    Contains(ToLower(f.district), q) || Contains(ToLower(f.village), q) || Contains(ToLower(f.recipientAddress), q)
  }

  predicate MatchesStatus(f: FarmerData, status: FilterStatus) {
    status == All || (status == Eligible && f.registered) || (status == Ineligible && !f.registered)
  }

  predicate Shown(query: string, status: FilterStatus, f: FarmerData) {
    MatchesSearch(f, query) && MatchesStatus(f, status)
  }

  /** The farmers shown in the list: those matching both the search and the status filter, in list order. */
  function FilteredFarmers(farmers: seq<FarmerData>, query: string, status: FilterStatus): (r: seq<FarmerData>)
    ensures |r| <= |farmers|
    ensures forall f :: f in r ==> f in farmers && MatchesSearch(f, query) && MatchesStatus(f, status)
  {
    Filter(f => Shown(query, status, f), farmers)
  }

  /**
   * The list shown is an order-preserving sub-list of the registry that holds
   * every matching farmer as often as the registry does, and no other.
   */
  lemma FilteredIsSubList(farmers: seq<FarmerData>, query: string, status: FilterStatus)
    ensures IsSubsequence(FilteredFarmers(farmers, query, status), farmers)
    ensures forall f :: multiset(FilteredFarmers(farmers, query, status))[f] == if Shown(query, status, f) then multiset(farmers)[f] else 0
    ensures forall f :: f in farmers && Shown(query, status, f) ==> f in FilteredFarmers(farmers, query, status)
  {
    FilterIsSubsequence(f => Shown(query, status, f), farmers);
    FilterMultiset(f => Shown(query, status, f), farmers);
    forall f | f in farmers && Shown(query, status, f)
      ensures f in FilteredFarmers(farmers, query, status)
    {
      FilterKeeps(f => Shown(query, status, f), farmers, f);
    }
  }

  /** An empty search with the "all" filter shows every farmer. */
  lemma EmptySearchShowsAll(farmers: seq<FarmerData>)
    ensures FilteredFarmers(farmers, "", All) == farmers
  {
    assert ToLower("") == "";
    forall f | f in farmers ensures Shown("", All, f) {
      ContainsEmpty(ToLower(f.district));
    }
    FilterAll(f => Shown("", All, f), farmers);
  }

  /**
   * The "eligible" and "ineligible" filters split the farmers matching the
   * search: every match is in exactly one of them, by its registered flag,
   * and together they are as many as the "all" filter shows.
   */
  lemma {:induction false} StatusFiltersPartition(farmers: seq<FarmerData>, query: string)
    ensures |FilteredFarmers(farmers, query, Eligible)| + |FilteredFarmers(farmers, query, Ineligible)|
      == |FilteredFarmers(farmers, query, All)|
    ensures forall f :: f in FilteredFarmers(farmers, query, Eligible) ==> f.registered
    ensures forall f :: f in FilteredFarmers(farmers, query, Ineligible) ==> !f.registered
  {
    if farmers != [] {
      StatusFiltersPartition(farmers[1..], query);
    }
  }

  /** The statistics cards. */
  datatype Stats = Stats(totalFarmers: nat, registeredFarmers: nat, eligibleFarmers: nat, totalPayments: nat)

  /** `eligibleFarmers` counts registered farmers when the screen's one eligibility score is at least 5. */
  predicate CountsEligible(score: Option<real>, f: FarmerData) {
    f.registered && score.Some? && score.value >= 5.0
  }

  predicate IsRegistered(f: FarmerData) {
    f.registered
  }

  function StatsOf(farmers: seq<FarmerData>, score: Option<real>, processedPayments: nat): (s: Stats)
    ensures s.totalFarmers == |farmers| && s.totalPayments == processedPayments
    ensures s.registeredFarmers <= s.totalFarmers
    ensures s.eligibleFarmers <= s.registeredFarmers
  {
    FilterMonotone(f => CountsEligible(score, f), IsRegistered, farmers);
    Stats(|farmers|, |Filter(IsRegistered, farmers)|, |Filter(f => CountsEligible(score, f), farmers)|,
          processedPayments)
  }

  /** A filter whose predicate implies another's keeps at most as many elements. */
  lemma {:induction false} FilterMonotone<T>(p: T -> bool, q: T -> bool, s: seq<T>)
    requires forall x :: p(x) ==> q(x)
    ensures |Filter(p, s)| <= |Filter(q, s)|
  {
    if s != [] {
      FilterMonotone(p, q, s[1..]);
    }
  }

  /** Two predicates that agree on every element filter alike. */
  lemma {:induction false} FilterSame<T>(p: T -> bool, q: T -> bool, s: seq<T>)
    requires forall x :: p(x) == q(x)
    ensures Filter(p, s) == Filter(q, s)
  {
    if s != [] {
      FilterSame(p, q, s[1..]);
    }
  }

  /** A predicate that holds nowhere keeps nothing. */
  lemma {:induction false} FilterNone<T>(p: T -> bool, s: seq<T>)
    requires forall x :: !p(x)
    ensures Filter(p, s) == []
  {
    if s != [] {
      FilterNone(p, s[1..]);
    }
  }

  /** Since the score is one value for the whole screen, the eligible count is all registered farmers or none. */
  lemma EligibleIsAllOrNothing(farmers: seq<FarmerData>, score: Option<real>, payments: nat)
    ensures var s := StatsOf(farmers, score, payments);
      (score.Some? && score.value >= 5.0 ==> s.eligibleFarmers == s.registeredFarmers)
      && (!(score.Some? && score.value >= 5.0) ==> s.eligibleFarmers == 0)
  {
    if score.Some? && score.value >= 5.0 {
      FilterSame(f => CountsEligible(score, f), IsRegistered, farmers);
    } else {
      FilterNone(f => CountsEligible(score, f), farmers);
    }
  }

  datatype WorkflowPhase = Deposit | Register | Monitoring | Processing | Complete

  datatype WorkflowStep = WorkflowStep(id: string, title: string, completed: bool, active: bool)

  /** The three progress steps shown above the workflow. */
  function WorkflowSteps(phase: WorkflowPhase, aiActive: bool, depositSuccess: bool, registerSuccess: bool)
    : (steps: seq<WorkflowStep>)
    ensures |steps| == 3
    ensures steps[0].active <==> phase == Deposit
    ensures steps[1].active <==> phase == Register || phase == Monitoring
    ensures steps[2].active <==> phase == Processing || aiActive
  {
    [WorkflowStep("deposit", "Fund Pool", depositSuccess, phase == Deposit),
     WorkflowStep("register", "Register", registerSuccess, phase == Register || phase == Monitoring),
     WorkflowStep("processing", "AI Process", phase == Complete, phase == Processing || aiActive)]
  }

  /** `findIndex(s => s.active)`: the index of the first active step, or -1. */
  function FirstActive(steps: seq<WorkflowStep>): (i: int)
    ensures -1 <= i < |steps|
    ensures i >= 0 ==> steps[i].active && forall j :: 0 <= j < i ==> !steps[j].active
    ensures i == -1 <==> forall j :: 0 <= j < |steps| ==> !steps[j].active
  {
    if steps == [] then -1
    else if steps[0].active then 0
    else
      var k := FirstActive(steps[1..]);
      if k == -1 then -1 else k + 1
  }

  /** The highlighted step: the first active one, or the first step when none is active. */
  function CurrentStepIndex(steps: seq<WorkflowStep>): (i: nat)
    requires steps != []
    ensures i < |steps|
    ensures (exists j :: 0 <= j < |steps| && steps[j].active) ==>
      steps[i].active && forall j :: 0 <= j < i ==> !steps[j].active
    ensures (forall j :: 0 <= j < |steps| ==> !steps[j].active) ==> i == 0
  {
    var k := FirstActive(steps);
    if k >= 0 then k else 0
  }

  /** Which step each phase highlights. */
  lemma CurrentStepByPhase(phase: WorkflowPhase, aiActive: bool, depositSuccess: bool, registerSuccess: bool)
    ensures var i := CurrentStepIndex(WorkflowSteps(phase, aiActive, depositSuccess, registerSuccess));
      (phase == Deposit ==> i == 0)
      && (phase == Register || phase == Monitoring ==> i == 1)
      && (phase == Processing ==> i == 2)
      && (phase == Complete ==> i == (if aiActive then 2 else 0))
  {
  }

  /** One entry of the screen's AI activity feed. */
  datatype ActivityKind = Detection | Analysis | Decision | Execution
  datatype Activity = Activity(timestamp: int, kind: ActivityKind, message: string)

  datatype EligibilityScore = EligibilityScore(score: real, reasoning: string, factors: seq<string>)

  /** The workflow screen's own state, and the store it shares with the rest of the front end. */
  class AutonomousWorkflow {
    const store: WorkflowStore
    var form: FarmerForm
    var formErrors: map<ErrorKey, string>
    var phase: WorkflowPhase
    var aiActive: bool
    var aiActivities: seq<Activity>
    var processedPayments: nat
    var weatherEventId: Option<string>
    var eligibilityProofHash: Option<string>
    var eligibilityScore: Option<EligibilityScore>
    var typingWeather: string
    var weatherForm: WeatherForm
    var hasProcessedRegistration: bool
    var hasStartedAI: bool

    /** The screen as first shown. */
    constructor (store: WorkflowStore)
      ensures this.store == store
      ensures form == InitialForm && formErrors == map[] && phase == Register && !aiActive
      ensures aiActivities == [] && processedPayments == 0 && weatherEventId.None?
      ensures eligibilityProofHash.None? && eligibilityScore.None? && typingWeather == ""
      ensures weatherForm == EmptyWeatherForm && !hasProcessedRegistration && !hasStartedAI
    {
      this.store := store;
      form := InitialForm;
      formErrors := map[];
      phase := Register;
      aiActive := false;
      aiActivities := [];
      processedPayments := 0;
      weatherEventId := None;
      eligibilityProofHash := None;
      eligibilityScore := None;
      typingWeather := "";
      weatherForm := EmptyWeatherForm;
      hasProcessedRegistration := false;
      hasStartedAI := false;
    }

    /** `validateForm`: stores the error dictionary and reports whether it is empty. */
    method ValidateForm() returns (ok: bool)
      modifies this
      ensures ReportsErrors(form, formErrors)
      ensures ok <==> FormValid(form)
      ensures form == old(form) && phase == old(phase) && weatherForm == old(weatherForm)
      ensures aiActivities == old(aiActivities) && processedPayments == old(processedPayments)
      ensures aiActive == old(aiActive) && weatherEventId == old(weatherEventId)
      ensures eligibilityProofHash == old(eligibilityProofHash) && eligibilityScore == old(eligibilityScore)
      ensures typingWeather == old(typingWeather)
      ensures hasProcessedRegistration == old(hasProcessedRegistration) && hasStartedAI == old(hasStartedAI)
      ensures unchanged(store)
    {
      var errors := CollectFormErrors(form);
      NoErrorsIffValid(form, errors);
      formErrors := errors;
      ok := |errors.Keys| == 0;
    }

    /**
     * `resetWorkflow`: the form, phase, AI state, weather inputs and one-shot
     * flags return to their initial values and the store forgets its current
     * farmer; the registered farmers, the scheme nonce, the payment count and
     * the form errors are kept.
     */
    method ResetWorkflow()
      modifies this, store
      ensures form == InitialForm && phase == Register && !aiActive && aiActivities == []
      ensures weatherEventId.None? && eligibilityProofHash.None? && eligibilityScore.None?
      ensures typingWeather == "" && weatherForm == EmptyWeatherForm
      ensures !hasProcessedRegistration && !hasStartedAI
      ensures processedPayments == old(processedPayments) && formErrors == old(formErrors)
      ensures store.State() == WithCurrentFarmer(old(store.State()), None)
    {
      store.SetCurrentFarmer(None);
      form := InitialForm;
      phase := Register;
      aiActive := false;
      aiActivities := [];
      weatherEventId := None;
      eligibilityProofHash := None;
      eligibilityScore := None;
      typingWeather := "";
      weatherForm := EmptyWeatherForm;
      hasProcessedRegistration := false;
      hasStartedAI := false;
    }
  }
}
