/** Scenario dispatch: `ScenarioSelector.identify_scenario` asks each registered subclass of
    `BaseScenarioClass`, in definition order, whether it handles the state model's scenario,
    and returns a solver wrapping that state model for the first that does. `KeyError`
    from a condition is passed over; when nothing matches, the `UnknownScenario` class
    itself is returned. */
module ScenarioSelection {
  import opened PyValues
  import opened ToolkitEnums

  /** The part of the toolkit's state model the selector reads. */
  class ToolkitStateModel {
    var scenario: Scenario

    constructor (scenario: Scenario)
      ensures this.scenario == scenario
    {
      this.scenario := scenario;
    }
  }

  /** The subclasses of `BaseScenarioClass`. */
  datatype ScenarioClass = UnknownScenario | WallHeightPitchSolver

  /** `BaseScenarioClass.__subclasses__()`: `UnknownScenario` is defined first, beside the
      base class, then `WallHeightPitch` when its module is imported. */
  const Registered: seq<ScenarioClass> := [UnknownScenario, WallHeightPitchSolver]

  /** What `identify_scenario` hands back: a solver instance, which keeps the state model it
      was built with, or the `UnknownScenario` class object. */
  datatype Identified = Instance(cls: ScenarioClass, state: ToolkitStateModel) | UnknownClass

  /** `WallHeightPitch.scenario_condition(scenario)`, a static method: exactly the
      wall-height-and-pitch scenario. */
  function WallHeightPitchCondition(scenario: Scenario): (r: bool)
    ensures r <==> scenario == WallHeightPitch
  {
    scenario == WallHeightPitch
  }

  /** `UnknownScenario.scenario_condition(self, scenario)` is an instance method. Called on
      the class with the scenario as its only argument, the scenario binds to `self` and the
      missing second argument raises `TypeError`. */
  function ConditionAsWritten(cls: ScenarioClass, scenario: Scenario): (r: Result<bool>)
    ensures cls == UnknownScenario ==> r == Raised(TypeError)
    ensures cls == WallHeightPitchSolver ==> r == Ok(scenario == WallHeightPitch)
  {
    match cls
    case UnknownScenario => Raised(TypeError)
    case WallHeightPitchSolver => Ok(WallHeightPitchCondition(scenario))
  }

  /** The conditions as the base class declares them, static and returning a bool: the
      unknown scenario never matches. */
  function Condition(cls: ScenarioClass, scenario: Scenario): (r: Result<bool>)
    ensures r.Ok?
    ensures r.value <==> cls == WallHeightPitchSolver && scenario == WallHeightPitch
  {
    match cls
    case UnknownScenario => Ok(false)
    case WallHeightPitchSolver => Ok(WallHeightPitchCondition(scenario))
  }

  /** `scenario_cls(self.toolkit_state_model)`: `WallHeightPitch.__init__` stores the state
      model and nothing else; `UnknownScenario.__init__` takes no argument and raises. */
  function Instantiate(cls: ScenarioClass, state: ToolkitStateModel): (r: Result<Identified>)
    ensures cls == WallHeightPitchSolver <==> r.Ok?
    ensures r.Ok? ==> r.value == Instance(cls, state)
    ensures r.Raised? ==> r.error == TypeError
  {
    match cls
    case UnknownScenario => Raised(TypeError)
    case WallHeightPitchSolver => Ok(Instance(WallHeightPitchSolver, state))
  }

  /** A condition outcome the search passes over: false, or a swallowed `KeyError`. */
  predicate Skipped(outcome: Result<bool>) {
    outcome == Ok(false) || outcome == Raised(KeyError)
  }

  /** The search loop of `identify_scenario` over `classes`, under the condition `cond`. A
      solver is returned for the first class whose condition holds, every class before it
      having been passed over; the class object `UnknownScenario` when every class is passed
      over; and any other exception escapes, so `KeyError` never does. */
  function FirstMatch(classes: seq<ScenarioClass>, state: ToolkitStateModel,
                      cond: (ScenarioClass, Scenario) -> Result<bool>): (r: Result<Identified>)
    reads state
    ensures r.Ok? && r.value.Instance? ==>
      && r.value.state == state
      && exists i :: 0 <= i < |classes| && classes[i] == r.value.cls && cond(classes[i], state.scenario) == Ok(true)
                     && forall j :: 0 <= j < i ==> Skipped(cond(classes[j], state.scenario))
    ensures r == Ok(UnknownClass) <==> forall i :: 0 <= i < |classes| ==> Skipped(cond(classes[i], state.scenario))
    ensures r.Raised? ==> r.error != KeyError
    ensures forall i :: 0 <= i < |classes| && !Skipped(cond(classes[i], state.scenario))
                        && (forall j :: 0 <= j < i ==> Skipped(cond(classes[j], state.scenario))) ==>
      r == if cond(classes[i], state.scenario).Raised? then Raised(cond(classes[i], state.scenario).error)
           else Instantiate(classes[i], state)
    decreases |classes|
  {
    if |classes| == 0 then Ok(UnknownClass)
    else
      var outcome := cond(classes[0], state.scenario);
      if Skipped(outcome) then
        var rest := FirstMatch(classes[1..], state, cond);
        assert forall i :: 1 <= i < |classes| ==> classes[i] == classes[1..][i - 1];
        rest
      else if outcome.Raised? then Raised(outcome.error)
      else
        assert outcome.Ok? && outcome.value;
        assert outcome == Ok(true);
        Instantiate(classes[0], state)
  }

  /** `identify_scenario()` as written. */
  function IdentifyScenarioAsWritten(state: ToolkitStateModel): (r: Result<Identified>)
    reads state
  {
    FirstMatch(Registered, state, ConditionAsWritten)
  }

  /** `identify_scenario()` with every condition callable on its class. */
  function IdentifyScenario(state: ToolkitStateModel): (r: Result<Identified>)
    reads state
  {
    FirstMatch(Registered, state, Condition)
  }

  /** As written, the first subclass asked is `UnknownScenario`, whose condition raises
      `TypeError` whatever the scenario, so no scenario is ever identified. */
  lemma IdentifyScenarioAsWrittenAlwaysRaises(state: ToolkitStateModel)
    ensures IdentifyScenarioAsWritten(state) == Raised(TypeError)
  {
    assert ConditionAsWritten(Registered[0], state.scenario) == Raised(TypeError);
  }

  /** With the conditions callable, the wall-height-and-pitch scenario gets a
      `WallHeightPitch` solver wrapping the same state model, and every other scenario gets
      the `UnknownScenario` class. */
  lemma IdentifyScenarioSelects(state: ToolkitStateModel)
    ensures state.scenario == WallHeightPitch <==>
            IdentifyScenario(state) == Ok(Instance(WallHeightPitchSolver, state))
    ensures state.scenario != WallHeightPitch <==> IdentifyScenario(state) == Ok(UnknownClass)
  {
    assert Registered[0] == UnknownScenario && Registered[1] == WallHeightPitchSolver;
    assert Skipped(Condition(Registered[0], state.scenario));
    if state.scenario == WallHeightPitch {
      assert Registered[1..][0] == WallHeightPitchSolver;
      assert FirstMatch(Registered[1..], state, Condition) == Ok(Instance(WallHeightPitchSolver, state));
    } else {
      assert Skipped(Condition(Registered[1], state.scenario));
    }
  }
}
