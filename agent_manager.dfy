/**
 * `SubsidyAgentManager`: the polling cursor over the weather oracle's events,
 * and the handling of one weather event (evaluate every farmer registered
 * in its district, pay the eligible ones, write an AI summary).
 */
module SubsidyAgent {
  import opened Wrappers
  import opened Text
  import opened Config
  import opened Ledger
  import opened AgentLog
  import opened AgentRuntime
  import opened Pipeline

  /** Every payment call in `calls` pays one of the eligible `results`. */
  ghost predicate PaysOnlyEligible(calls: History, results: seq<FarmerResult>) {
    forall k :: 0 <= k < |calls| && calls[k].SendPayment? ==>
      exists i :: 0 <= i < |results| && PaidTo(calls[k], results[i])
  }

  lemma {:induction false} PaysOnlyEligibleAppend(a: History, b: History, results: seq<FarmerResult>)
    requires PaysOnlyEligible(a, results) && PaysOnlyEligible(b, results)
    ensures PaysOnlyEligible(a + b, results)
  {
    forall k | 0 <= k < |a + b| && (a + b)[k].SendPayment?
      ensures exists i :: 0 <= i < |results| && PaidTo((a + b)[k], results[i])
    {
      if k < |a| {
        assert (a + b)[k] == a[k];
      } else {
        assert (a + b)[k] == b[k - |a|];
      }
    }
  }

  /** Every payment call in `calls` pays one of `farmers`. */
  predicate PaysAmong(calls: History, farmers: seq<Address>) {
    forall k :: 0 <= k < |calls| && calls[k].SendPayment? ==> calls[k].farmer in farmers
  }

  lemma PaysAmongAppend(a: History, b: History, farmers: seq<Address>, others: seq<Address>)
    requires PaysAmong(a, farmers) && PaysAmong(b, others)
    requires forall x :: x in others ==> x in farmers
    ensures PaysAmong(a + b, farmers)
  {
    forall k | 0 <= k < |a + b| && (a + b)[k].SendPayment? ensures (a + b)[k].farmer in farmers {
      if k < |a| { assert (a + b)[k] == a[k]; } else { assert (a + b)[k] == b[k - |a|]; }
    }
  }

  /** One iteration of the farmer loop: evaluate, then attempt payment for an eligible result. */
  function FarmerStepSpec(c: Ctx, w: World, farmer: Address, event: WeatherEvent, schemeId: SchemeId): (r: Step<FarmerResult>)
    ensures Extends(w, r.world) && Quiet(NewLogs(w, r.world))
    ensures r.out.Done? ==> r.out.value.address == farmer
  {
    var e := EvaluateSpec(c, w, farmer, event, schemeId);
    if e.out.Threw? then e
    else if IsEligible(e.out.value) then
      var p := AttemptPaymentSpec(c, e.world, e.out.value);
      ExtendsTrans(w, e.world, p.world);
      QuietAppend(NewLogs(w, e.world), NewLogs(e.world, p.world));
      if p.out.Threw? then Step(Threw(p.out.message), p.world) else Step(Done(e.out.value), p.world)
    else
      e
  }

  /**
   * One iteration pays only this farmer, and when it completes, only its
   * (eligible) result: that decision's proof hash and amount.
   */
  lemma FarmerStepPays(c: Ctx, w: World, farmer: Address, event: WeatherEvent, schemeId: SchemeId)
    ensures var r := FarmerStepSpec(c, w, farmer, event, schemeId);
      && (r.out.Done? ==> PaysOnly(NewCalls(w, r.world), r.out.value))
      && PaysAmong(NewCalls(w, r.world), [farmer])
  {
    var r := FarmerStepSpec(c, w, farmer, event, schemeId);
    var e := EvaluateSpec(c, w, farmer, event, schemeId);
    if e.out.Done? && IsEligible(e.out.value) {
      var p := AttemptPaymentSpec(c, e.world, e.out.value);
      ExtendsTrans(w, e.world, p.world);
      PaysOnlyAfterNone(NewCalls(w, e.world), NewCalls(e.world, p.world), e.out.value);
      forall k | 0 <= k < |NewCalls(w, p.world)| && NewCalls(w, p.world)[k].SendPayment?
        ensures NewCalls(w, p.world)[k].farmer in [farmer]
      {
        assert PaidTo(NewCalls(w, p.world)[k], e.out.value);
      }
    }
  }

  /**
   * The farmer loop from the farmers still to do, with the results so far; the
   * first exception stops the loop.
   */
  function EvaluateFarmersSpec(c: Ctx, w: World, farmers: seq<Address>, event: WeatherEvent, schemeId: SchemeId,
                               done: seq<FarmerResult>): (r: Step<seq<FarmerResult>>)
    ensures Extends(w, r.world) && Quiet(NewLogs(w, r.world))
    decreases |farmers|
  {
    if farmers == [] then Step(Done(done), w)
    else
      var st := FarmerStepSpec(c, w, farmers[0], event, schemeId);
      if st.out.Threw? then Step(Threw(st.out.message), st.world)
      else
        var rest := EvaluateFarmersSpec(c, st.world, farmers[1..], event, schemeId, done + [st.out.value]);
        ExtendsTrans(w, st.world, rest.world);
        QuietAppend(NewLogs(w, st.world), NewLogs(st.world, rest.world));
        rest
  }

  /** `results` is `done` followed by one result per farmer of `farmers`, in order. */
  predicate ResultsFor(done: seq<FarmerResult>, farmers: seq<Address>, results: seq<FarmerResult>) {
    && |results| == |done| + |farmers|
    && results[..|done|] == done
    && forall i :: 0 <= i < |farmers| ==> results[|done| + i].address == farmers[i]
  }

  lemma ResultsForStep(done: seq<FarmerResult>, x: FarmerResult, farmers: seq<Address>, results: seq<FarmerResult>)
    requires farmers != [] && x.address == farmers[0]
    requires ResultsFor(done + [x], farmers[1..], results)
    ensures ResultsFor(done, farmers, results)
  {
    var done' := done + [x];
    assert results[..|done'|][..|done|] == results[..|done|];
    forall i | 0 <= i < |farmers| ensures results[|done| + i].address == farmers[i] {
      if i > 0 {
        assert results[|done'| + (i - 1)].address == farmers[1..][i - 1];
      } else {
        assert results[..|done'|][|done|] == x;
      }
    }
  }

  /** A completed farmer loop returns the results so far and then one result per farmer, in order. */
  lemma {:induction false} EvaluateFarmersResults(c: Ctx, w: World, farmers: seq<Address>, event: WeatherEvent,
                                                  schemeId: SchemeId, done: seq<FarmerResult>)
    ensures var r := EvaluateFarmersSpec(c, w, farmers, event, schemeId, done);
      r.out.Done? ==> ResultsFor(done, farmers, r.out.value)
    decreases |farmers|
  {
    if farmers != [] {
      var st := FarmerStepSpec(c, w, farmers[0], event, schemeId);
      if st.out.Done? {
        var done' := done + [st.out.value];
        var rest := EvaluateFarmersSpec(c, st.world, farmers[1..], event, schemeId, done');
        assert EvaluateFarmersSpec(c, w, farmers, event, schemeId, done) == rest;
        EvaluateFarmersResults(c, st.world, farmers[1..], event, schemeId, done');
        if rest.out.Done? {
          ResultsForStep(done, st.out.value, farmers, rest.out.value);
        }
      }
    } else {
      assert done[..|done|] == done;
    }
  }

  /** Whatever its outcome, the farmer loop pays only farmers it was given. */
  lemma {:induction false} EvaluateFarmersPaysAmong(c: Ctx, w: World, farmers: seq<Address>, event: WeatherEvent,
                                                    schemeId: SchemeId, done: seq<FarmerResult>)
    ensures var r := EvaluateFarmersSpec(c, w, farmers, event, schemeId, done);
      PaysAmong(NewCalls(w, r.world), farmers)
    decreases |farmers|
  {
    var r := EvaluateFarmersSpec(c, w, farmers, event, schemeId, done);
    if farmers != [] {
      var st := FarmerStepSpec(c, w, farmers[0], event, schemeId);
      FarmerStepPays(c, w, farmers[0], event, schemeId);
      if st.out.Done? {
        var rest := EvaluateFarmersSpec(c, st.world, farmers[1..], event, schemeId, done + [st.out.value]);
        EvaluateFarmersPaysAmong(c, st.world, farmers[1..], event, schemeId, done + [st.out.value]);
        ExtendsTrans(w, st.world, rest.world);
        PaysAmongAppend(NewCalls(w, st.world), NewCalls(st.world, rest.world), farmers, farmers[1..]);
      } else {
        PaysAmongAppend(NewCalls(w, st.world), [], farmers, []);
        assert NewCalls(w, st.world) + [] == NewCalls(w, r.world);
      }
    } else {
      assert NewCalls(w, r.world) == [];
    }
  }

  /** The farmer loop pays only eligible results it returns: their farmer, proof hash and amount. */
  lemma {:induction false} EvaluateFarmersPaysOnlyEligible(c: Ctx, w: World, farmers: seq<Address>, event: WeatherEvent,
                                                          schemeId: SchemeId, done: seq<FarmerResult>)
    ensures var r := EvaluateFarmersSpec(c, w, farmers, event, schemeId, done);
      r.out.Done? ==> PaysOnlyEligible(NewCalls(w, r.world), r.out.value)
    decreases |farmers|
  {
    var r := EvaluateFarmersSpec(c, w, farmers, event, schemeId, done);
    if farmers != [] && r.out.Done? {
      var st := FarmerStepSpec(c, w, farmers[0], event, schemeId);
      var rest := EvaluateFarmersSpec(c, st.world, farmers[1..], event, schemeId, done + [st.out.value]);
      assert r == rest;
      EvaluateFarmersPaysOnlyEligible(c, st.world, farmers[1..], event, schemeId, done + [st.out.value]);
      EvaluateFarmersResults(c, st.world, farmers[1..], event, schemeId, done + [st.out.value]);
      FarmerStepPays(c, w, farmers[0], event, schemeId);
      ExtendsTrans(w, st.world, rest.world);
      var all := rest.out.value;
      assert all[..|done| + 1][|done|] == st.out.value;
      var steps := NewCalls(w, st.world);
      forall k | 0 <= k < |steps| && steps[k].SendPayment?
        ensures exists i :: 0 <= i < |all| && PaidTo(steps[k], all[i])
      {
        assert PaidTo(steps[k], all[|done|]);
      }
      PaysOnlyEligibleAppend(steps, NewCalls(st.world, rest.world), all);
    }
  }

  /** The `weather event` line for an event. */
  function Detected(c: Ctx, event: WeatherEvent): LogEntry {
    LogEntry(c.now, Info, WeatherEventDetected(event.eventId, event.region, event.droughtAlert, event.floodAlert))
  }

  /** The registry's answer for the event's district (asked right after the event line). */
  function FarmersAnswer(c: Ctx, w: World, event: WeatherEvent): Result<seq<Address>> {
    c.answers.farmersByDistrict(w.calls, event.region)
  }

  /**
   * The part of `handleWeatherEvent` after the `evaluating` line: the farmer
   * loop, then the AI summary of its results.
   */
  function HandleFarmersSpec(c: Ctx, w: World, event: WeatherEvent, farmers: seq<Address>): (r: Step<()>)
    ensures Extends(w, r.world)
  {
    var ev := EvaluateFarmersSpec(c, w, farmers, event, c.config.defaultSchemeId, []);
    if ev.out.Threw? then Step(Threw(ev.out.message), ev.world)
    else
      var sm := SummarizeSpec(c, ev.world, event, ev.out.value);
      ExtendsTrans(w, ev.world, sm.1);
      Step(Done(()), Emit(c, sm.1, Info, AiSummary(sm.0)))
  }

  /** A completed farmer loop is followed by its summary's lines and then the AI-summary line. */
  lemma HandleFarmersShape(c: Ctx, w: World, event: WeatherEvent, farmers: seq<Address>)
    requires HandleFarmersSpec(c, w, event, farmers).out.Done?
    ensures var ev := EvaluateFarmersSpec(c, w, farmers, event, c.config.defaultSchemeId, []);
      && ev.out.Done?
      && var sm := SummarizeSpec(c, ev.world, event, ev.out.value);
      && Extends(w, sm.1) && Quiet(NewLogs(w, sm.1))
      && NewLogs(w, HandleFarmersSpec(c, w, event, farmers).world) == NewLogs(w, sm.1) + [LogEntry(c.now, Info, AiSummary(sm.0))]
  {
    var ev := EvaluateFarmersSpec(c, w, farmers, event, c.config.defaultSchemeId, []);
    var sm := SummarizeSpec(c, ev.world, event, ev.out.value);
    assert HandleFarmersSpec(c, w, event, farmers).world == Emit(c, sm.1, Info, AiSummary(sm.0));
    ExtendsTrans(w, ev.world, sm.1);
    QuietAppend(NewLogs(w, ev.world), NewLogs(ev.world, sm.1));
    EmitAfter(c, w, sm.1, Info, AiSummary(sm.0));
  }

  /**
   * The farmer loop and its summary write no weather-event line, and one
   * AI-summary line exactly when they complete.
   */
  lemma HandleFarmersControlLines(c: Ctx, w: World, event: WeatherEvent, farmers: seq<Address>)
    ensures var r := HandleFarmersSpec(c, w, event, farmers);
      && Detections(NewLogs(w, r.world)) == []
      && SummaryCount(NewLogs(w, r.world)) == (if r.out.Done? then 1 else 0)
  {
    var r := HandleFarmersSpec(c, w, event, farmers);
    var ev := EvaluateFarmersSpec(c, w, farmers, event, c.config.defaultSchemeId, []);
    if r.out.Threw? {
      assert r.world == ev.world;
      QuietHasNone(NewLogs(w, ev.world));
    } else {
      HandleFarmersShape(c, w, event, farmers);
      var sm := SummarizeSpec(c, ev.world, event, ev.out.value);
      var line := LogEntry(c.now, Info, AiSummary(sm.0));
      QuietHasNone(NewLogs(w, sm.1));
      DetectionsAppend(NewLogs(w, sm.1), [line]);
      assert [line][1..] == [];
    }
  }

  /**
   * A completed run ends with its AI-summary line; without an API key that
   * summary is the template for this district and farmer count.
   */
  lemma HandleFarmersSummary(c: Ctx, w: World, event: WeatherEvent, farmers: seq<Address>)
    requires HandleFarmersSpec(c, w, event, farmers).out.Done?
    ensures var logs := NewLogs(w, HandleFarmersSpec(c, w, event, farmers).world);
      && logs != [] && logs[|logs| - 1].text.AiSummary?
      && (!c.config.HasGroq() ==>
            logs[|logs| - 1].text.summary == Templated(|farmers|, event.region, event.droughtAlert, event.floodAlert))
  {
    HandleFarmersShape(c, w, event, farmers);
    var ev := EvaluateFarmersSpec(c, w, farmers, event, c.config.defaultSchemeId, []);
    EvaluateFarmersResults(c, w, farmers, event, c.config.defaultSchemeId, []);
    SummarizeOutcome(c, ev.world, event, ev.out.value);
  }

  /** The farmer loop and its summary pay only farmers they were given. */
  lemma HandleFarmersPays(c: Ctx, w: World, event: WeatherEvent, farmers: seq<Address>)
    ensures PaysAmong(NewCalls(w, HandleFarmersSpec(c, w, event, farmers).world), farmers)
  {
    var r := HandleFarmersSpec(c, w, event, farmers);
    var ev := EvaluateFarmersSpec(c, w, farmers, event, c.config.defaultSchemeId, []);
    EvaluateFarmersPaysAmong(c, w, farmers, event, c.config.defaultSchemeId, []);
    if ev.out.Done? {
      var sm := SummarizeSpec(c, ev.world, event, ev.out.value);
      ExtendsTrans(w, ev.world, r.world);
      assert NewCalls(w, r.world) == NewCalls(w, ev.world) + [];
    }
  }

  /** The world after the weather-event line, the district read and the `evaluating` line. */
  function Announced(c: Ctx, w: World, event: WeatherEvent, count: nat): World {
    Emit(c, Record(Emit(c, w, Info, Detected(c, event).text), GetFarmersByDistrict(event.region)),
         Info, EvaluatingFarmers(count, event.region))
  }

  /**
   * `handleWeatherEvent`: the weather-event line, the district's farmers,
   * every farmer evaluated (and an eligible one paid) in order, and the AI
   * summary.
   */
  function HandleWeatherEventSpec(c: Ctx, w: World, event: WeatherEvent): (r: Step<()>)
    ensures Extends(w, r.world)
    ensures NewLogs(w, r.world) != [] && NewLogs(w, r.world)[0] == Detected(c, event)
    ensures NewCalls(w, r.world) != [] && NewCalls(w, r.world)[0] == GetFarmersByDistrict(event.region)
  {
    var w1 := Emit(c, w, Info, Detected(c, event).text);
    var fr := c.answers.farmersByDistrict(w1.calls, event.region);
    var w2 := Record(w1, GetFarmersByDistrict(event.region));
    if fr.Err? then Step(Threw(fr.message), w2)
    else if fr.value == [] then Step(Done(()), Emit(c, w2, Warn, NoFarmersInDistrict(event.region)))
    else
      var w3 := Announced(c, w, event, |fr.value|);
      var r := HandleFarmersSpec(c, w3, event, fr.value);
      ExtendsTrans(w, w3, r.world);
      r
  }

  /** A failed district read throws right after the weather-event line. */
  lemma HandleThrowsOnFarmersRead(c: Ctx, w: World, event: WeatherEvent)
    requires FarmersAnswer(c, w, event).Err?
    ensures var r := HandleWeatherEventSpec(c, w, event);
      && r.out == Threw(FarmersAnswer(c, w, event).message)
      && NewLogs(w, r.world) == [Detected(c, event)]
      && NewCalls(w, r.world) == [GetFarmersByDistrict(event.region)]
  {
  }

  /** A district without farmers is a warning and nothing else. */
  lemma HandleEmptyDistrict(c: Ctx, w: World, event: WeatherEvent)
    requires FarmersAnswer(c, w, event) == Ok([])
    ensures var r := HandleWeatherEventSpec(c, w, event);
      && r.out.Done?
      && NewLogs(w, r.world) == [Detected(c, event), LogEntry(c.now, Warn, NoFarmersInDistrict(event.region))]
      && NewCalls(w, r.world) == [GetFarmersByDistrict(event.region)]
  {
  }

  /** Whatever follows the two opening lines of an event, they come first in the lines and the calls. */
  lemma AnnouncedThen(c: Ctx, w: World, event: WeatherEvent, count: nat, r: World)
    requires Extends(Announced(c, w, event, count), r)
    ensures Extends(w, r)
    ensures NewLogs(w, r)
      == [Detected(c, event), LogEntry(c.now, Info, EvaluatingFarmers(count, event.region))] + NewLogs(Announced(c, w, event, count), r)
    ensures NewCalls(w, r) == [GetFarmersByDistrict(event.region)] + NewCalls(Announced(c, w, event, count), r)
  {
    var w1 := Emit(c, w, Info, Detected(c, event).text);
    var w2 := Record(w1, GetFarmersByDistrict(event.region));
    EmitThen(c, w2, Info, EvaluatingFarmers(count, event.region), r);
    RecordThen(w1, GetFarmersByDistrict(event.region), r);
    EmitThen(c, w, Info, Detected(c, event).text, r);
    assert NewLogs(w, r)
      == [Detected(c, event)] + ([LogEntry(c.now, Info, EvaluatingFarmers(count, event.region))] + NewLogs(Announced(c, w, event, count), r));
  }

  /** With farmers in the district, the event's two opening lines and then the farmers' part. */
  lemma HandleWithFarmers(c: Ctx, w: World, event: WeatherEvent)
    requires FarmersAnswer(c, w, event).Ok? && FarmersAnswer(c, w, event).value != []
    ensures var farmers := FarmersAnswer(c, w, event).value;
      var r := HandleWeatherEventSpec(c, w, event);
      var w3 := Announced(c, w, event, |farmers|);
      && r == HandleFarmersSpec(c, w3, event, farmers)
      && Extends(w, w3) && Extends(w3, r.world)
      && NewLogs(w, r.world)
         == [Detected(c, event), LogEntry(c.now, Info, EvaluatingFarmers(|farmers|, event.region))] + NewLogs(w3, r.world)
      && NewCalls(w, r.world) == [GetFarmersByDistrict(event.region)] + NewCalls(w3, r.world)
  {
    var farmers := FarmersAnswer(c, w, event).value;
    var w3 := Announced(c, w, event, |farmers|);
    var r := HandleFarmersSpec(c, w3, event, farmers);
    assert HandleWeatherEventSpec(c, w, event) == r;
    AnnouncedThen(c, w, event, |farmers|, r.world);
    AnnouncedThen(c, w, event, |farmers|, w3);
  }

  /**
   * With farmers in the district: the second line announces how many are
   * evaluated, a completed run ends with the AI-summary line, and without an
   * API key that summary is the template for this event and farmer count.
   */
  lemma HandleDistrictWithFarmers(c: Ctx, w: World, event: WeatherEvent)
    requires FarmersAnswer(c, w, event).Ok? && FarmersAnswer(c, w, event).value != []
    ensures var r := HandleWeatherEventSpec(c, w, event);
      var logs := NewLogs(w, r.world);
      var n := |FarmersAnswer(c, w, event).value|;
      && |logs| >= 2
      && logs[1] == LogEntry(c.now, Info, EvaluatingFarmers(n, event.region))
      && (r.out.Done? ==> logs[|logs| - 1].text.AiSummary?)
      && (r.out.Done? && !c.config.HasGroq() ==>
            logs[|logs| - 1].text.summary == Templated(n, event.region, event.droughtAlert, event.floodAlert))
  {
    var farmers := FarmersAnswer(c, w, event).value;
    var w3 := Announced(c, w, event, |farmers|);
    HandleWithFarmers(c, w, event);
    var r := HandleFarmersSpec(c, w3, event, farmers);
    if r.out.Done? {
      HandleFarmersSummary(c, w3, event, farmers);
      var head := [Detected(c, event), LogEntry(c.now, Info, EvaluatingFarmers(|farmers|, event.region))];
      var tail := NewLogs(w3, r.world);
      assert (head + tail)[|head + tail| - 1] == tail[|tail| - 1];
    }
  }

  /**
   * Whatever happens, an event produces exactly one weather-event line; a
   * completed run with farmers produces exactly one AI-summary line, and any
   * other run none.
   */
  lemma HandleControlLines(c: Ctx, w: World, event: WeatherEvent)
    ensures var r := HandleWeatherEventSpec(c, w, event);
      && Detections(NewLogs(w, r.world)) == [event.eventId]
      && SummaryCount(NewLogs(w, r.world))
           == if r.out.Done? && FarmersAnswer(c, w, event).Ok? && FarmersAnswer(c, w, event).value != [] then 1 else 0
  {
    var r := HandleWeatherEventSpec(c, w, event);
    var fr := FarmersAnswer(c, w, event);
    if fr.Err? {
      assert NewLogs(w, r.world) == [Detected(c, event)];
    } else if fr.value == [] {
      var pair := [Detected(c, event), LogEntry(c.now, Warn, NoFarmersInDistrict(event.region))];
      assert NewLogs(w, r.world) == pair;
      assert pair[1..][1..] == [];
    } else {
      var w3 := Announced(c, w, event, |fr.value|);
      HandleWithFarmers(c, w, event);
      var head := [Detected(c, event), LogEntry(c.now, Info, EvaluatingFarmers(|fr.value|, event.region))];
      assert head[1..][1..] == [];
      HandleFarmersControlLines(c, w3, event, fr.value);
      DetectionsAppend(head, NewLogs(w3, r.world));
    }
  }

  /**
   * Every payment made while handling an event pays a farmer registered in
   * the event's district.
   */
  lemma HandlePaysDistrictOnly(c: Ctx, w: World, event: WeatherEvent)
    ensures var r := HandleWeatherEventSpec(c, w, event);
      PaysAmong(NewCalls(w, r.world), if FarmersAnswer(c, w, event).Ok? then FarmersAnswer(c, w, event).value else [])
  {
    var r := HandleWeatherEventSpec(c, w, event);
    var fr := FarmersAnswer(c, w, event);
    var pre := [GetFarmersByDistrict(event.region)];
    if fr.Ok? && fr.value != [] {
      var w3 := Announced(c, w, event, |fr.value|);
      HandleWithFarmers(c, w, event);
      HandleFarmersPays(c, w3, event, fr.value);
      PaysAmongAppend(pre, NewCalls(w3, r.world), fr.value, fr.value);
    } else {
      assert NewCalls(w, r.world) == pre;
    }
  }

  /** The ids of `events`, in order. */
  function EventIds(events: seq<WeatherEvent>): (ids: seq<EventId>)
    ensures |ids| == |events| && forall i :: 0 <= i < |events| ==> ids[i] == events[i].eventId
  {
    seq(|events|, i requires 0 <= i < |events| => events[i].eventId)
  }

  /** The events of one poll, handled in order; the first exception stops the loop. */
  function HandleEventsSpec(c: Ctx, w: World, events: seq<WeatherEvent>): (r: Step<()>)
    ensures Extends(w, r.world)
    decreases |events|
  {
    if events == [] then Step(Done(()), w)
    else
      var h := HandleWeatherEventSpec(c, w, events[0]);
      if h.out.Threw? then h
      else
        var rest := HandleEventsSpec(c, h.world, events[1..]);
        ExtendsTrans(w, h.world, rest.world);
        rest
  }

  /**
   * Handling a poll's events writes one weather-event line per event handled,
   * in the order of the events: all of them when no event threw.
   */
  lemma {:induction false} HandleEventsDetections(c: Ctx, w: World, events: seq<WeatherEvent>)
    ensures var r := HandleEventsSpec(c, w, events);
      && Detections(NewLogs(w, r.world)) <= EventIds(events)
      && (r.out.Done? ==> Detections(NewLogs(w, r.world)) == EventIds(events))
    decreases |events|
  {
    var r := HandleEventsSpec(c, w, events);
    if events == [] {
      assert NewLogs(w, r.world) == [];
    } else {
      var h := HandleWeatherEventSpec(c, w, events[0]);
      HandleControlLines(c, w, events[0]);
      assert EventIds(events) == [events[0].eventId] + EventIds(events[1..]);
      if h.out.Done? {
        var rest := HandleEventsSpec(c, h.world, events[1..]);
        assert r == rest;
        HandleEventsDetections(c, h.world, events[1..]);
        ExtendsTrans(w, h.world, rest.world);
        DetectionsAppend(NewLogs(w, h.world), NewLogs(h.world, rest.world));
      }
    }
  }

  /** An operation that moves the polling cursor. */
  datatype CursorStep = CursorStep(out: Outcome<()>, world: World, lastBlock: nat)

  function BlockAnswer(c: Ctx, w: World): Result<nat> {
    c.answers.blockNumber(w.calls)
  }

  /** The oracle's events in blocks `fromBlock..toBlock`, asked right after the head-block read. */
  function LogsAnswer(c: Ctx, w: World, fromBlock: nat, toBlock: nat): Result<seq<WeatherEvent>> {
    c.answers.logs(w.calls + [GetBlockNumber], fromBlock, toBlock)
  }

  /**
   * `pollWeatherEvents`: read the head block; when it is past the cursor, fetch
   * the oracle's events in (cursor, head], handle them in order, and only then
   * move the cursor to the head. Any exception leaves the cursor where it was.
   */
  function PollSpec(c: Ctx, w: World, lastBlock: nat): (r: CursorStep)
    ensures Extends(w, r.world)
    ensures NewCalls(w, r.world) != [] && NewCalls(w, r.world)[0] == GetBlockNumber
    ensures r.out.Threw? ==> r.lastBlock == lastBlock
  {
    var head := c.answers.blockNumber(w.calls);
    var w1 := Record(w, GetBlockNumber);
    if head.Err? then CursorStep(Threw(head.message), w1, lastBlock)
    else
      var fromBlock := lastBlock + 1;
      if head.value < fromBlock then CursorStep(Done(()), w1, lastBlock)
      else
        var logs := c.answers.logs(w1.calls, fromBlock, head.value);
        var w2 := Record(w1, GetLogs(fromBlock, head.value));
        if logs.Err? then CursorStep(Threw(logs.message), w2, lastBlock)
        else
          var h := HandleEventsSpec(c, w2, logs.value);
          ExtendsTrans(w, w2, h.world);
          CursorStep(h.out, h.world, if h.out.Threw? then lastBlock else head.value)
  }

  /** A failed head read throws with nothing else done; a head not past the cursor is a quiet no-op. */
  lemma PollWithoutNewBlocks(c: Ctx, w: World, lastBlock: nat)
    requires BlockAnswer(c, w).Err? || BlockAnswer(c, w).value <= lastBlock
    ensures PollSpec(c, w, lastBlock) == CursorStep(
      if BlockAnswer(c, w).Err? then Threw(BlockAnswer(c, w).message) else Done(()),
      Record(w, GetBlockNumber), lastBlock)
  {
  }

  /**
   * A head past the cursor: the second call fetches exactly the blocks after
   * the cursor up to the head. On success the cursor moves to the head, and
   * every fetched event has been handled, one weather-event line each, in order.
   */
  lemma PollFetchesRange(c: Ctx, w: World, lastBlock: nat)
    requires BlockAnswer(c, w).Ok? && BlockAnswer(c, w).value > lastBlock
    ensures var r := PollSpec(c, w, lastBlock);
      var head := BlockAnswer(c, w).value;
      && |NewCalls(w, r.world)| >= 2 && NewCalls(w, r.world)[1] == GetLogs(lastBlock + 1, head)
      && (r.out.Done? ==>
            && r.lastBlock == head
            && LogsAnswer(c, w, lastBlock + 1, head).Ok?
            && Detections(NewLogs(w, r.world)) == EventIds(LogsAnswer(c, w, lastBlock + 1, head).value))
  {
    var r := PollSpec(c, w, lastBlock);
    var head := BlockAnswer(c, w).value;
    var w2 := Record(Record(w, GetBlockNumber), GetLogs(lastBlock + 1, head));
    assert NewCalls(w, w2) == [GetBlockNumber, GetLogs(lastBlock + 1, head)];
    var logs := LogsAnswer(c, w, lastBlock + 1, head);
    if logs.Ok? {
      var h := HandleEventsSpec(c, w2, logs.value);
      ExtendsTrans(w, w2, h.world);
      assert NewLogs(w, h.world) == NewLogs(w2, h.world);
      HandleEventsDetections(c, w2, logs.value);
    }
  }

  /** Two polls in a row never fetch the same block twice: the second range starts just past the first (a corollary of PollFetchesRange). */
  lemma {:induction false} ConsecutivePollsAreDisjoint(c: Ctx, w: World, lastBlock: nat, w': World)
    requires var first := PollSpec(c, w, lastBlock);
      first.out.Done? && BlockAnswer(c, w).Ok? && BlockAnswer(c, w).value > lastBlock
    requires var first := PollSpec(c, w, lastBlock);
      BlockAnswer(c, w').Ok? && BlockAnswer(c, w').value > first.lastBlock
    ensures var first := PollSpec(c, w, lastBlock);
      var second := PollSpec(c, w', first.lastBlock);
      && NewCalls(w, first.world)[1] == GetLogs(lastBlock + 1, first.lastBlock)
      && NewCalls(w', second.world)[1] == GetLogs(first.lastBlock + 1, BlockAnswer(c, w').value)
  {
    PollFetchesRange(c, w, lastBlock);
    PollFetchesRange(c, w', PollSpec(c, w, lastBlock).lastBlock);
  }

  /**
   * The cursor never moves back: a poll keeps it, or moves it to a head past
   * it exactly when the poll read such a head and completed.
   */
  lemma PollCursorOnlyAdvances(c: Ctx, w: World, lastBlock: nat)
    ensures var r := PollSpec(c, w, lastBlock);
      && lastBlock <= r.lastBlock
      && (r.lastBlock != lastBlock <==> r.out.Done? && BlockAnswer(c, w).Ok? && BlockAnswer(c, w).value > lastBlock)
      && (r.lastBlock != lastBlock ==> r.lastBlock == BlockAnswer(c, w).value)
  {
  }

  /** The registry of event ids, as read at the start of `processLatestHistoricalEvent`. */
  function EventIdsAnswer(c: Ctx, w: World): Result<seq<EventId>> {
    c.answers.allEventIds(w.calls)
  }

  /**
   * The newest event of `processLatestHistoricalEvent`, once the ids are read:
   * fetch it and handle it; a failure is caught and logged as a warning.
   */
  function HandleLatestSpec(c: Ctx, w: World, latestId: EventId): (r: World)
    ensures Extends(w, r)
    ensures NewCalls(w, r) != [] && NewCalls(w, r)[0] == GetWeatherEvent(latestId)
  {
    var ev := c.answers.weatherEvent(w.calls, latestId);
    var w1 := Record(w, GetWeatherEvent(latestId));
    if ev.Err? then Emit(c, w1, Warn, HistoricalEventUnavailable(ev.message))
    else
      var h := HandleWeatherEventSpec(c, w1, ev.value);
      ExtendsTrans(w, w1, h.world);
      if h.out.Threw? then Emit(c, h.world, Warn, HistoricalEventUnavailable(h.out.message))
      else h.world
  }

  /** The event is handled when it can be read: one weather-event line, whatever else fails; otherwise none. */
  lemma HandleLatestDetections(c: Ctx, w: World, latestId: EventId)
    ensures var ev := c.answers.weatherEvent(w.calls, latestId);
      Detections(NewLogs(w, HandleLatestSpec(c, w, latestId))) == if ev.Ok? then [ev.value.eventId] else []
  {
    var r := HandleLatestSpec(c, w, latestId);
    var ev := c.answers.weatherEvent(w.calls, latestId);
    var w1 := Record(w, GetWeatherEvent(latestId));
    if ev.Err? {
      assert NewLogs(w, r) == [LogEntry(c.now, Warn, HistoricalEventUnavailable(ev.message))];
    } else {
      var h := HandleWeatherEventSpec(c, w1, ev.value);
      RecordThen(w, GetWeatherEvent(latestId), h.world);
      HandleControlLines(c, w1, ev.value);
      if h.out.Threw? {
        var line := LogEntry(c.now, Warn, HistoricalEventUnavailable(h.out.message));
        assert NewLogs(w, r) == NewLogs(w1, h.world) + [line];
        DetectionsAppend(NewLogs(w1, h.world), [line]);
      }
    }
  }

  /**
   * `processLatestHistoricalEvent`: handle only the newest event the oracle
   * knows of. Every failure is caught and logged as a warning.
   */
  function ProcessLatestSpec(c: Ctx, w: World): (r: World)
    ensures Extends(w, r)
    ensures NewCalls(w, r) != [] && NewCalls(w, r)[0] == GetAllEventIds
  {
    var ids := c.answers.allEventIds(w.calls);
    var w1 := Record(w, GetAllEventIds);
    if ids.Err? then Emit(c, w1, Warn, HistoricalEventUnavailable(ids.message))
    else if ids.value == [] then Emit(c, w1, Info, NoHistoricalEvents)
    else
      var r := HandleLatestSpec(c, w1, ids.value[|ids.value| - 1]);
      RecordThen(w, GetAllEventIds, r);
      r
  }

  /** Without a readable, non-empty id list: one line (a warning, or that there are no events) and no other call. */
  lemma ProcessLatestWithoutEvents(c: Ctx, w: World)
    requires EventIdsAnswer(c, w).Err? || EventIdsAnswer(c, w) == Ok([])
    ensures ProcessLatestSpec(c, w) == Emit(c, Record(w, GetAllEventIds),
      if EventIdsAnswer(c, w).Err? then Warn else Info,
      if EventIdsAnswer(c, w).Err? then HistoricalEventUnavailable(EventIdsAnswer(c, w).message) else NoHistoricalEvents)
  {
  }

  /**
   * With event ids, only the last one is fetched; it is handled when it can be
   * read (one weather-event line, whatever else fails) and otherwise no event is.
   */
  lemma ProcessLatestHandlesNewest(c: Ctx, w: World)
    requires EventIdsAnswer(c, w).Ok? && EventIdsAnswer(c, w).value != []
    ensures var r := ProcessLatestSpec(c, w);
      var ids := EventIdsAnswer(c, w).value;
      var ev := c.answers.weatherEvent(w.calls + [GetAllEventIds], ids[|ids| - 1]);
      && |NewCalls(w, r)| >= 2 && NewCalls(w, r)[1] == GetWeatherEvent(ids[|ids| - 1])
      && Detections(NewLogs(w, r)) == if ev.Ok? then [ev.value.eventId] else []
  {
    var ids := EventIdsAnswer(c, w).value;
    var w1 := Record(w, GetAllEventIds);
    var r := HandleLatestSpec(c, w1, ids[|ids| - 1]);
    assert ProcessLatestSpec(c, w) == r;
    RecordThen(w, GetAllEventIds, r);
    HandleLatestDetections(c, w1, ids[|ids| - 1]);
  }

  /**
   * `start`: the starting line, the cursor set to the head block, then the
   * newest historical event. A failed head read throws before any event is
   * handled, with the cursor unchanged.
   */
  function StartSpec(c: Ctx, w: World, lastBlock: nat): (r: CursorStep)
    ensures Extends(w, r.world)
    ensures NewLogs(w, r.world) != [] && NewLogs(w, r.world)[0] == LogEntry(c.now, Info, AgentStarting(c.network, c.config.pollIntervalMs))
    ensures NewCalls(w, r.world) != [] && NewCalls(w, r.world)[0] == GetBlockNumber
  {
    var w1 := Emit(c, w, Info, AgentStarting(c.network, c.config.pollIntervalMs));
    var head := c.answers.blockNumber(w1.calls);
    var w2 := Record(w1, GetBlockNumber);
    if head.Err? then CursorStep(Threw(head.message), w2, lastBlock)
    else
      var w3 := ProcessLatestSpec(c, w2);
      ExtendsTrans(w, w2, w3);
      CursorStep(Done(()), w3, head.value)
  }

  /**
   * `start` throws exactly when the head read fails, and then has written only
   * its first line and kept the cursor. Otherwise the cursor is the head, the
   * historical catch-up follows, and at most one event is handled.
   */
  lemma StartOutcome(c: Ctx, w: World, lastBlock: nat)
    ensures var r := StartSpec(c, w, lastBlock);
      && (r.out.Threw? <==> BlockAnswer(c, w).Err?)
      && (r.out.Threw? ==> r.lastBlock == lastBlock && |NewLogs(w, r.world)| == 1 && |NewCalls(w, r.world)| == 1)
      && (r.out.Done? ==>
            && r.lastBlock == BlockAnswer(c, w).value
            && |NewCalls(w, r.world)| >= 2 && NewCalls(w, r.world)[1] == GetAllEventIds
            && |Detections(NewLogs(w, r.world))| <= 1)
  {
    var r := StartSpec(c, w, lastBlock);
    var starting := LogEntry(c.now, Info, AgentStarting(c.network, c.config.pollIntervalMs));
    var w2 := Record(Emit(c, w, Info, starting.text), GetBlockNumber);
    if BlockAnswer(c, w).Ok? {
      var w3 := ProcessLatestSpec(c, w2);
      assert r.world == w3;
      ExtendsTrans(w, w2, w3);
      assert NewLogs(w, w3) == [starting] + NewLogs(w2, w3);
      assert NewCalls(w, w3) == [GetBlockNumber] + NewCalls(w2, w3);
      DetectionsAppend([starting], NewLogs(w2, w3));
      var ids := EventIdsAnswer(c, w2);
      if ids.Ok? && ids.value != [] {
        ProcessLatestHandlesNewest(c, w2);
      } else {
        ProcessLatestWithoutEvents(c, w2);
        assert NewLogs(w2, w3)[1..] == [];
      }
    }
  }

  /** One timer tick: a poll whose exception is caught and logged as a polling error. */
  function TickSpec(c: Ctx, w: World, lastBlock: nat): (r: CursorStep)
    ensures r.out.Done?
    ensures r.lastBlock == PollSpec(c, w, lastBlock).lastBlock
  {
    var p := PollSpec(c, w, lastBlock);
    if p.out.Threw? then CursorStep(Done(()), Emit(c, p.world, Error, PollingError(p.out.message)), p.lastBlock)
    else p
  }

  /** A tick is its poll, plus a `polling error` line and an unmoved cursor when the poll threw. */
  lemma TickOutcome(c: Ctx, w: World, lastBlock: nat)
    ensures var p := PollSpec(c, w, lastBlock);
      var r := TickSpec(c, w, lastBlock);
      && (p.out.Done? ==> r == p)
      && (p.out.Threw? ==>
            r.lastBlock == lastBlock && r.world == Emit(c, p.world, Error, PollingError(p.out.message)))
  {
  }

  /** The body of a `/simulate` request; `None` is a field left out. */
  datatype SimulationPayload = SimulationPayload(
    eventId: Option<string>,
    region: Option<string>,
    temperature: Option<int>,
    rainfall: Option<int>,
    droughtAlert: Option<bool>,
    floodAlert: Option<bool>)

  /** `p || fallback` for an optional string: an absent or empty value takes the fallback. */
  function OrString(p: Option<string>, fallback: string): (r: string)
    ensures p.Some? && p.value != "" ==> r == p.value
    ensures p.None? || p.value == "" ==> r == fallback
  {
    if p.Some? && p.value != "" then p.value else fallback
  }

  /** The event `simulateEvent` builds from a payload at clock reading `now` (milliseconds). */
  function SimulatedEvent(payload: SimulationPayload, now: nat): (e: WeatherEvent)
    ensures e.eventId == OrString(payload.eventId, "demo-" + NatToString(now))
    ensures e.region == OrString(payload.region, "DemoDistrict")
    ensures e.temperature == payload.temperature.GetOr(3000) && e.rainfall == payload.rainfall.GetOr(500)
    ensures e.droughtAlert == payload.droughtAlert.GetOr(true) && e.floodAlert == payload.floodAlert.GetOr(false)
    ensures e.timestamp == now / 1000
  {
    WeatherEvent(
      OrString(payload.eventId, "demo-" + NatToString(now)),
      OrString(payload.region, "DemoDistrict"),
      payload.temperature.GetOr(3000),
      payload.rainfall.GetOr(500),
      payload.droughtAlert.GetOr(true),
      payload.floodAlert.GetOr(false),
      now / 1000)
  }

  /** An empty payload is a drought in DemoDistrict at 30.00 degrees with 5.00 mm of rain, named after the clock. */
  lemma {:induction false} EmptyPayloadDefaults(now: nat)
    ensures SimulatedEvent(SimulationPayload(None, None, None, None, None, None), now)
      == WeatherEvent("demo-" + NatToString(now), "DemoDistrict", 3000, 500, true, false, now / 1000)
  {
  }

  /** `simulateEvent`: handle the built event and return it. */
  function SimulateSpec(c: Ctx, w: World, payload: SimulationPayload): (r: Step<WeatherEvent>)
    ensures Extends(w, r.world)
    ensures r.out.Done? ==> r.out.value == SimulatedEvent(payload, c.now)
  {
    var event := SimulatedEvent(payload, c.now);
    var h := HandleWeatherEventSpec(c, w, event);
    if h.out.Threw? then Step(Threw(h.out.message), h.world) else Step(Done(event), h.world)
  }

  /**
   * A simulated event is handled like one from the oracle: it completes or
   * throws as that handling does, and writes exactly one weather-event line,
   * for the built event's id.
   */
  lemma SimulateHandlesEvent(c: Ctx, w: World, payload: SimulationPayload)
    ensures var r := SimulateSpec(c, w, payload);
      var h := HandleWeatherEventSpec(c, w, SimulatedEvent(payload, c.now));
      && r.world == h.world && (r.out.Done? <==> h.out.Done?)
      && Detections(NewLogs(w, r.world)) == [SimulatedEvent(payload, c.now).eventId]
  {
    HandleControlLines(c, w, SimulatedEvent(payload, c.now));
  }

  class SubsidyAgentManager {
    const services: Services
    var lastBlock: nat

    constructor (services: Services)
      ensures this.services == services && lastBlock == 0
    {
      this.services := services;
      lastBlock := 0;
    }

    /** One iteration of the farmer loop of `handleWeatherEvent`. */
    method FarmerStep(now: nat, farmer: Address, event: WeatherEvent, schemeId: SchemeId) returns (r: Outcome<FarmerResult>)
      requires services.Valid()
      modifies services.log, services.ledger, services.entropy
      ensures services.Valid()
      ensures Step(r, services.State()) == FarmerStepSpec(services.Context(now), old(services.State()), farmer, event, schemeId)
    {
      var s := services;
      ghost var c := s.Context(now);
      ghost var w0 := s.State();
      r := EvaluateFarmerEligibility(s, now, farmer, event, schemeId);
      ghost var e := EvaluateSpec(c, w0, farmer, event, schemeId);
      assert e == Step(r, s.State());
      if r.Done? && IsEligible(r.value) {
        var p := AttemptPayment(s, now, r.value);
        assert Step(p, s.State()) == AttemptPaymentSpec(c, e.world, r.value);
        if p.Threw? {
          r := Threw(p.message);
        }
      }
    }

    /** The farmer loop of `handleWeatherEvent`: every farmer in order, until one throws. */
    method EvaluateFarmers(now: nat, event: WeatherEvent, farmers: seq<Address>) returns (r: Outcome<seq<FarmerResult>>)
      requires services.Valid()
      modifies services.log, services.ledger, services.entropy
      ensures services.Valid()
      ensures Step(r, services.State())
        == EvaluateFarmersSpec(services.Context(now), old(services.State()), farmers, event, services.config.defaultSchemeId, [])
    {
      var s := services;
      ghost var c := s.Context(now);
      var schemeId := s.config.defaultSchemeId;
      ghost var target := EvaluateFarmersSpec(c, s.State(), farmers, event, schemeId, []);
      var results: seq<FarmerResult> := [];
      var i := 0;
      while i < |farmers|
        invariant 0 <= i <= |farmers| && s.Valid()
        invariant target == EvaluateFarmersSpec(c, s.State(), farmers[i..], event, schemeId, results)
      {
        ghost var wi := s.State();
        assert farmers[i..][0] == farmers[i] && farmers[i..][1..] == farmers[i + 1..];
        var st := FarmerStep(now, farmers[i], event, schemeId);
        assert Step(st, s.State()) == FarmerStepSpec(c, wi, farmers[i], event, schemeId);
        if st.Threw? {
          return Threw(st.message);
        }
        results := results + [st.value];
        i := i + 1;
      }
      r := Done(results);
    }

    /** The farmer loop and the AI summary of `handleWeatherEvent`. */
    method HandleFarmers(now: nat, event: WeatherEvent, farmers: seq<Address>) returns (r: Outcome<()>)
      requires services.Valid()
      modifies services.log, services.ledger, services.entropy
      ensures services.Valid()
      ensures Step(r, services.State()) == HandleFarmersSpec(services.Context(now), old(services.State()), event, farmers)
    {
      var s := services;
      ghost var c := s.Context(now);
      ghost var w0 := s.State();
      var results := EvaluateFarmers(now, event, farmers);
      ghost var ev := EvaluateFarmersSpec(c, w0, farmers, event, s.config.defaultSchemeId, []);
      assert ev == Step(results, s.State());
      if results.Threw? {
        return Threw(results.message);
      }
      var summary := Summarize(s, now, event, results.value);
      assert (summary, s.State()) == SummarizeSpec(c, ev.world, event, results.value);
      s.AddLog(now, Info, AiSummary(summary));
      r := Done(());
    }

    method HandleWeatherEvent(now: nat, event: WeatherEvent) returns (r: Outcome<()>)
      requires services.Valid()
      modifies services.log, services.ledger, services.entropy
      ensures services.Valid()
      ensures Step(r, services.State()) == HandleWeatherEventSpec(services.Context(now), old(services.State()), event)
    {
      var s := services;
      ghost var c := s.Context(now);
      ghost var w0 := s.State();
      s.AddLog(now, Info, Detected(s.Context(now), event).text);
      var fr := s.ledger.FarmersByDistrict(event.region);
      assert s.State() == Record(Emit(c, w0, Info, Detected(c, event).text), GetFarmersByDistrict(event.region));
      if fr.Err? {
        return Threw(fr.message);
      }
      var farmers := fr.value;
      if farmers == [] {
        s.AddLog(now, Warn, NoFarmersInDistrict(event.region));
        return Done(());
      }
      s.AddLog(now, Info, EvaluatingFarmers(|farmers|, event.region));
      assert s.State() == Announced(c, w0, event, |farmers|);
      r := HandleFarmers(now, event, farmers);
    }

    method HandleEvents(now: nat, events: seq<WeatherEvent>) returns (r: Outcome<()>)
      requires services.Valid()
      modifies services.log, services.ledger, services.entropy
      ensures services.Valid()
      ensures Step(r, services.State()) == HandleEventsSpec(services.Context(now), old(services.State()), events)
    {
      ghost var c := services.Context(now);
      ghost var target := HandleEventsSpec(c, services.State(), events);
      var i := 0;
      while i < |events|
        invariant 0 <= i <= |events| && services.Valid()
        invariant target == HandleEventsSpec(c, services.State(), events[i..])
      {
        ghost var wi := services.State();
        assert events[i..][0] == events[i] && events[i..][1..] == events[i + 1..];
        var h := HandleWeatherEvent(now, events[i]);
        assert Step(h, services.State()) == HandleWeatherEventSpec(c, wi, events[i]);
        if h.Threw? {
          return h;
        }
        i := i + 1;
      }
      r := Done(());
    }

    method PollWeatherEvents(now: nat) returns (r: Outcome<()>)
      requires services.Valid()
      modifies this, services.log, services.ledger, services.entropy
      ensures services.Valid()
      ensures CursorStep(r, services.State(), lastBlock) == PollSpec(services.Context(now), old(services.State()), old(lastBlock))
    {
      ghost var c := services.Context(now);
      ghost var w0 := services.State();
      ghost var target := PollSpec(c, w0, lastBlock);
      var head := services.ledger.BlockNumber();
      assert head == BlockAnswer(c, w0) && services.State() == Record(w0, GetBlockNumber);
      if head.Err? {
        assert target == CursorStep(Threw(head.message), services.State(), lastBlock);
        return Threw(head.message);
      }
      var fromBlock := lastBlock + 1;
      var toBlock := head.value;
      if toBlock < fromBlock {
        assert target == CursorStep(Done(()), services.State(), lastBlock);
        return Done(());
      }
      var logs := services.ledger.Logs(fromBlock, toBlock);
      ghost var w2 := services.State();
      assert logs == LogsAnswer(c, w0, fromBlock, toBlock);
      assert w2 == Record(Record(w0, GetBlockNumber), GetLogs(fromBlock, toBlock));
      if logs.Err? {
        return Threw(logs.message);
      }
      ghost var h := HandleEventsSpec(c, w2, logs.value);
      assert target == CursorStep(h.out, h.world, if h.out.Threw? then lastBlock else toBlock);
      r := HandleEvents(now, logs.value);
      assert Step(r, services.State()) == h;
      if r.Done? {
        ghost var wEnd := services.State();
        lastBlock := toBlock;
        assert services.State() == wEnd;
      }
    }

    method ProcessLatestHistoricalEvent(now: nat)
      requires services.Valid()
      modifies services.log, services.ledger, services.entropy
      ensures services.Valid()
      ensures services.State() == ProcessLatestSpec(services.Context(now), old(services.State()))
    {
      ghost var c := services.Context(now);
      ghost var w0 := services.State();
      var ids := services.ledger.AllEventIds();
      assert services.State() == Record(w0, GetAllEventIds);
      if ids.Err? {
        services.AddLog(now, Warn, HistoricalEventUnavailable(ids.message));
        return;
      }
      if ids.value == [] {
        services.AddLog(now, Info, NoHistoricalEvents);
        return;
      }
      var latestId := ids.value[|ids.value| - 1];
      assert ProcessLatestSpec(c, w0) == HandleLatestSpec(c, Record(w0, GetAllEventIds), latestId);
      var ev := services.ledger.WeatherEventOf(latestId);
      ghost var w2 := services.State();
      assert w2 == Record(Record(w0, GetAllEventIds), GetWeatherEvent(latestId));
      if ev.Err? {
        services.AddLog(now, Warn, HistoricalEventUnavailable(ev.message));
        return;
      }
      var h := HandleWeatherEvent(now, ev.value);
      assert Step(h, services.State()) == HandleWeatherEventSpec(c, w2, ev.value);
      if h.Threw? {
        services.AddLog(now, Warn, HistoricalEventUnavailable(h.message));
      }
    }

    method Start(now: nat) returns (r: Outcome<()>)
      requires services.Valid()
      modifies this, services.log, services.ledger, services.entropy
      ensures services.Valid()
      ensures CursorStep(r, services.State(), lastBlock) == StartSpec(services.Context(now), old(services.State()), old(lastBlock))
    {
      ghost var c := services.Context(now);
      ghost var w0 := services.State();
      services.AddLog(now, Info, AgentStarting(services.network, services.config.pollIntervalMs));
      var head := services.ledger.BlockNumber();
      ghost var w2 := services.State();
      assert w2 == Record(Emit(c, w0, Info, AgentStarting(c.network, c.config.pollIntervalMs)), GetBlockNumber);
      if head.Err? {
        return Threw(head.message);
      }
      lastBlock := head.value;
      ProcessLatestHistoricalEvent(now);
      r := Done(());
    }

    /** The interval callback: poll, and log a polling error instead of throwing. */
    method Tick(now: nat)
      requires services.Valid()
      modifies this, services.log, services.ledger, services.entropy
      ensures services.Valid()
      ensures var t := TickSpec(services.Context(now), old(services.State()), old(lastBlock));
        services.State() == t.world && lastBlock == t.lastBlock
    {
      ghost var c := services.Context(now);
      ghost var w0 := services.State();
      ghost var b0 := lastBlock;
      var p := PollWeatherEvents(now);
      ghost var poll := PollSpec(c, w0, b0);
      assert CursorStep(p, services.State(), lastBlock) == poll;
      if p.Threw? {
        services.AddLog(now, Error, PollingError(p.message));
      }
    }

    method SimulateEvent(now: nat, payload: SimulationPayload) returns (r: Outcome<WeatherEvent>)
      requires services.Valid()
      modifies services.log, services.ledger, services.entropy
      ensures services.Valid()
      ensures Step(r, services.State()) == SimulateSpec(services.Context(now), old(services.State()), payload)
    {
      ghost var c := services.Context(now);
      ghost var w0 := services.State();
      var event := SimulatedEvent(payload, now);
      var h := HandleWeatherEvent(now, event);
      assert Step(h, services.State()) == HandleWeatherEventSpec(c, w0, event);
      if h.Threw? {
        return Threw(h.message);
      }
      r := Done(event);
    }
  }
}
