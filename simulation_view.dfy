/**
 * The simulation screen: the mock result it builds when the form is
 * submitted, and its local copy of the simulation type.
 */
module SimulationView {
  import opened Common
  import Investment
  import App

  /** One entry of the daily-updates list: a date, a value and a change label. */
  datatype DailyUpdate = DailyUpdate(date: string, value: real, change: string)

  /** The result record `handleSimulation` stores. */
  datatype SimulationResult = SimulationResult(
    initialInvestment: real, finalValue: real, returnPercentage: real,
    isPositive: bool, recommendations: seq<string>,
    selectedAssets: seq<string>, simulationType: SimulationType,
    dailyUpdates: Option<seq<DailyUpdate>>)

  const UpdateDates: seq<string> := ["2024-05-01", "2024-05-02", "2024-05-03"]
  const UpdateFactors: seq<real> := [1.02, 1.03, 1.025]
  const UpdateChanges: seq<string> := ["+2.0%", "+1.0%", "-0.5%"]
  /** The numbers the change labels spell out. */
  const UpdateChangeValues: seq<real> := [2.0, 1.0, -0.5]

  /** The three hard-coded daily updates for an amount. */
  function DailyUpdates(amount: real): (updates: seq<DailyUpdate>)
    ensures |updates| == 3
    ensures forall i :: 0 <= i < 3 ==>
              updates[i].date == UpdateDates[i] && updates[i].value == amount * UpdateFactors[i]
              && updates[i].change == UpdateChanges[i]
  {
    seq(3, i requires 0 <= i < 3 => DailyUpdate(UpdateDates[i], amount * UpdateFactors[i], UpdateChanges[i]))
  }

  /** `handleSimulation`'s result for an amount, under the current type and selection. */
  function MockResults(amount: real, selectedAssets: seq<string>, simulationType: SimulationType): (r: SimulationResult)
    ensures r.selectedAssets == selectedAssets && r.simulationType == simulationType
    ensures r.initialInvestment == amount && r.finalValue == amount * 1.5
    ensures r.returnPercentage == 50.0 && r.isPositive
    ensures r.recommendations == Investment.Recommendations
    ensures r.dailyUpdates.Some? <==> simulationType == Daily
    ensures simulationType == Daily ==> r.dailyUpdates == Some(DailyUpdates(amount))
  {
    SimulationResult(
      amount, amount * 1.5, 50.0, true,
      Investment.Recommendations,
      selectedAssets, simulationType,
      if simulationType == Daily then Some(DailyUpdates(amount)) else None)
  }

  /**
   * The screen builds the same figures and recommendations as
   * `calculateInvestment`, whatever the dates.
   */
  lemma MockResultsAgreeWithCalculation(amount: real, assets: seq<string>, t: SimulationType, startDate: string, endDate: string)
    ensures var r := MockResults(amount, assets, t);
            var c := Investment.CalculateInvestment(amount, startDate, endDate);
            r.initialInvestment == c.initialInvestment && r.finalValue == c.finalValue
            && r.returnPercentage == c.returnPercentage && r.isPositive == c.isPositive
            && r.recommendations == c.recommendations
  {
  }

  /** The value each daily update is compared with: the amount, then the previous value. */
  function Previous(amount: real, updates: seq<DailyUpdate>, i: nat): real
    requires i < |updates|
  {
    if i == 0 then amount else updates[i - 1].value
  }

  /**
   * Each change label is the step in cumulative return, in percentage points
   * of the amount, from the previous value (the amount for the first entry);
   * for a positive amount its sign is the sign of that step.
   */
  lemma ChangeLabelsMatchValues(amount: real, i: nat)
    requires amount != 0.0 && i < 3
    ensures var updates := DailyUpdates(amount);
            (updates[i].value - Previous(amount, updates, i)) / amount * 100.0 == UpdateChangeValues[i]
    ensures var updates := DailyUpdates(amount);
            amount > 0.0 ==>
              (updates[i].change[0] == '+' <==> updates[i].value > Previous(amount, updates, i))
  {
    var updates := DailyUpdates(amount);
    var step := updates[i].value - Previous(amount, updates, i);
    assert step == amount * UpdateChangeValues[i] / 100.0 by {
      assert UpdateChangeValues[i] == (UpdateFactors[i] - (if i == 0 then 1.0 else UpdateFactors[i - 1])) * 100.0;
    }
  }

  /**
   * The second label is not the change relative to the previous value: from
   * 1.02 to 1.03 times the amount is (1.03 - 1.02) / 1.02, under one percent.
   */
  lemma SecondLabelIsNotRelativeToPrevious(amount: real)
    requires amount != 0.0
    ensures var updates := DailyUpdates(amount);
            (updates[1].value - updates[0].value) / updates[0].value * 100.0 != UpdateChangeValues[1]
  {
    var updates := DailyUpdates(amount);
    assert (updates[1].value - updates[0].value) / updates[0].value == 1.0 / 102.0;
  }

  /** The simulation screen's state; the props it reads are fields set by its parent. */
  class SimulationPanel {
    const selectedAssets: seq<string>
    /** The `isLoggedIn` prop. */
    var isLoggedIn: bool
    /** The last `defaultSimulationType` prop the effect saw. */
    var defaultSimulationType: SimulationType
    var simulationType: SimulationType
    var results: Option<SimulationResult>

    /** Mounting: the local type starts from the prop. */
    constructor (assets: seq<string>, defaultType: SimulationType, loggedIn: bool)
      ensures selectedAssets == assets && isLoggedIn == loggedIn
      ensures defaultSimulationType == defaultType && simulationType == defaultType
      ensures results == None
    {
      selectedAssets := assets;
      isLoggedIn := loggedIn;
      defaultSimulationType := defaultType;
      simulationType := defaultType;
      results := None;
    }

    /** A re-render with new props; the effect resets the local type when the default changed. */
    method ReceiveProps(defaultType: SimulationType, loggedIn: bool)
      modifies this`defaultSimulationType, this`simulationType, this`isLoggedIn
      ensures defaultSimulationType == defaultType && isLoggedIn == loggedIn
      ensures simulationType == if defaultType != old(defaultSimulationType) then defaultType else old(simulationType)
      ensures results == old(results)
    {
      if defaultType != defaultSimulationType {
        simulationType := defaultType;
      }
      defaultSimulationType := defaultType;
      isLoggedIn := loggedIn;
    }

    /**
     * `handleSimulationTypeChange`: forwards the request to the shell, then
     * sets the local type whatever the shell did with it. When the request
     * comes through an enabled button (a daily request only when logged in),
     * the local and the shell's type agree afterwards.
     */
    method HandleSimulationTypeChange(requested: SimulationType, app: App.AppState)
      requires app.Valid()
      modifies this`simulationType, app`simulationType
      ensures app.Valid()
      ensures simulationType == requested
      ensures app.simulationType == if !app.isLoggedIn && requested == Daily then old(app.simulationType) else requested
      ensures (requested == Daily ==> app.isLoggedIn) ==> app.simulationType == simulationType
      ensures results == old(results)
    {
      var _ := app.HandleSimulationTypeSelect(requested);
      simulationType := requested;
    }

    /** `handleSimulation`: stores the mock result for the submitted amount. */
    method HandleSimulation(amount: real)
      modifies this`results
      ensures results == Some(MockResults(amount, selectedAssets, simulationType))
    {
      results := Some(MockResults(amount, selectedAssets, simulationType));
    }

    /** The daily-type button is enabled only for a logged-in user. */
    function DailyButtonEnabled(): (enabled: bool)
      reads this
      ensures enabled <==> isLoggedIn
    {
      isLoggedIn
    }

    /** "Guardar Simulación" appears only with a result and a logged-in user. */
    function SaveButtonShown(): (shown: bool)
      reads this
      ensures shown <==> results.Some? && isLoggedIn
    {
      results.Some? && isLoggedIn
    }
  }
}
