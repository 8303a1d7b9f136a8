/**
 * The user dashboard: the saved simulations (a constant list), the tab
 * filter, the per-type counts and the per-entry labels.
 */
module UserDashboard {
  import opened Common
  import opened Lists

  /** The dashboard tabs: 'all', 'finite' and 'daily'. */
  datatype Tab = AllTab | FiniteTab | DailyTab

  /**
   * One saved simulation. `kind` is the record's `type` string; finite
   * entries carry an `endDate`, daily ones a `lastUpdate`.
   */
  datatype SavedSimulation = SavedSimulation(
    id: int, name: string, assets: seq<string>,
    initialInvestment: int, currentValue: int, change: string, isPositive: bool,
    date: string, kind: string, endDate: Option<string>, lastUpdate: Option<string>)

  const SavedSimulations: seq<SavedSimulation> := [
    SavedSimulation(1, "Cartera Tech", ["AAPL", "GOOGL", "MSFT"], 10000, 12500, "+25%", true,
                    "2024-01-15", "finite", Some("2024-12-31"), None),
    SavedSimulation(2, "Crypto Mix", ["BTC", "ETH"], 5000, 4750, "-5%", false,
                    "2024-02-01", "finite", Some("2024-08-01"), None),
    SavedSimulation(3, "Seguimiento S&P 500", ["SPX"], 8000, 8240, "+3%", true,
                    "2024-04-15", "daily", None, Some("2024-05-03"))
  ]

  /** The type string a tab compares against. */
  function TabKind(tab: Tab): string {
    match tab
    case AllTab => "all"
    case FiniteTab => "finite"
    case DailyTab => "daily"
  }

  function OfKind(kind: string): SavedSimulation -> bool {
    (sim: SavedSimulation) => sim.kind == kind
  }

  /** `filteredSimulations`: the whole list on 'all', else the entries of the tab's type. */
  function FilteredSimulations(sims: seq<SavedSimulation>, tab: Tab): (shown: seq<SavedSimulation>)
    ensures tab == AllTab ==> shown == sims
    ensures tab != AllTab ==> forall sim :: sim in shown <==> sim in sims && sim.kind == TabKind(tab)
  {
    if tab == AllTab then sims else Filter(sims, OfKind(TabKind(tab)))
  }

  /** `dailySimulations`. */
  function DailySimulations(sims: seq<SavedSimulation>): (daily: seq<SavedSimulation>)
    ensures forall sim :: sim in daily <==> sim in sims && sim.kind == "daily"
  {
    Filter(sims, OfKind("daily"))
  }

  /** `finiteSimulations`. */
  function FiniteSimulations(sims: seq<SavedSimulation>): (finite: seq<SavedSimulation>)
    ensures forall sim :: sim in finite <==> sim in sims && sim.kind == "finite"
  {
    Filter(sims, OfKind("finite"))
  }

  /** A type tab shows, in the original order, exactly the list the counts are taken from. */
  lemma TabsAgreeWithCounts(sims: seq<SavedSimulation>, front: seq<SavedSimulation>, back: seq<SavedSimulation>)
    ensures FilteredSimulations(sims, FiniteTab) == FiniteSimulations(sims)
    ensures FilteredSimulations(sims, DailyTab) == DailySimulations(sims)
    ensures FilteredSimulations(front + back, DailyTab)
         == FilteredSimulations(front, DailyTab) + FilteredSimulations(back, DailyTab)
    ensures FilteredSimulations(front + back, FiniteTab)
         == FilteredSimulations(front, FiniteTab) + FilteredSimulations(back, FiniteTab)
  {
    FilterConcat(front, back, OfKind("daily"));
    FilterConcat(front, back, OfKind("finite"));
  }

  /**
   * When every entry is 'finite' or 'daily', the two lists split the saved
   * list: the two counts on the card add up to the total above them.
   */
  lemma FiniteAndDailyPartition(sims: seq<SavedSimulation>)
    requires forall sim :: sim in sims ==> sim.kind == "finite" || sim.kind == "daily"
    ensures multiset(FiniteSimulations(sims)) + multiset(DailySimulations(sims)) == multiset(sims)
    ensures |FiniteSimulations(sims)| + |DailySimulations(sims)| == |sims|
  {
    FilterPartition(sims, OfKind("finite"), OfKind("daily"));
  }

  /** The counts the card shows for the saved list: 3 in all, 2 finite, 1 daily. */
  lemma SavedSimulationCounts()
    ensures |SavedSimulations| == 3
    ensures |FiniteSimulations(SavedSimulations)| == 2
    ensures |DailySimulations(SavedSimulations)| == 1
  {
    var s := SavedSimulations;
    assert s == [s[0]] + ([s[1]] + ([s[2]] + []));
    FilterConcat([s[0]], [s[1]] + ([s[2]] + []), OfKind("daily"));
    FilterConcat([s[1]], [s[2]] + [], OfKind("daily"));
    FilterConcat([s[0]], [s[1]] + ([s[2]] + []), OfKind("finite"));
    FilterConcat([s[1]], [s[2]] + [], OfKind("finite"));
  }

  /** The "Actualizaciones Recientes" panel: shown exactly when some entry is daily. */
  function ShowRecentUpdates(sims: seq<SavedSimulation>): (shown: bool)
    ensures shown <==> exists i :: 0 <= i < |sims| && sims[i].kind == "daily"
  {
    var daily := DailySimulations(sims);
    assert |daily| > 0 ==> daily[0] in daily;
    |daily| > 0
  }

  /** A missing field interpolated into a template literal reads "undefined". */
  function Interpolated(field: Option<string>): string {
    if field.Some? then field.value else "undefined"
  }

  /** The date line of an entry: "date - endDate" when finite, "Desde date" otherwise. */
  function DateLabel(sim: SavedSimulation): (text: string)
    ensures sim.kind == "finite" ==> |text| >= |sim.date| + 3 && text[..|sim.date|] == sim.date && text[|sim.date|..|sim.date| + 3] == " - "
    ensures sim.kind == "finite" ==> text[|sim.date| + 3..] == Interpolated(sim.endDate)
    ensures sim.kind != "finite" ==> |text| == 6 + |sim.date| && text[..6] == "Desde " && text[6..] == sim.date
  {
    if sim.kind == "finite" then sim.date + " - " + Interpolated(sim.endDate) else "Desde " + sim.date
  }

  /** The second action button: 'Actualizar Simulación' when finite, 'Ver Historial' otherwise. */
  function ActionLabel(sim: SavedSimulation): (text: string)
    ensures text == "Actualizar Simulación" <==> sim.kind == "finite"
    ensures text == "Ver Historial" <==> sim.kind != "finite"
  {
    if sim.kind == "finite" then "Actualizar Simulación" else "Ver Historial"
  }

  /**
   * For a date that starts with a digit, the date line begins with "Desde "
   * exactly when the action button reads 'Ver Historial': both follow the same test.
   */
  lemma LabelsAgree(sim: SavedSimulation)
    requires |sim.date| > 0 && '0' <= sim.date[0] <= '9'
    ensures (|DateLabel(sim)| >= 6 && DateLabel(sim)[..6] == "Desde ") <==> ActionLabel(sim) == "Ver Historial"
  {
    if sim.kind == "finite" {
      var text := DateLabel(sim);
      assert text[0] == sim.date[0];
    }
  }
}
