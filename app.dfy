/**
 * The application shell: which screen is shown, the chosen category and
 * assets, the login flag and the chosen simulation type, changed by the
 * shell's handlers.
 */
module App {
  import opened Common

  /** The shell's `view` values. */
  datatype View = Home | Categories | Explore | Simulate | Blog | Support | Dashboard | Investments

  /** What the main area renders. */
  datatype Screen =
    | HomeScreen
    | CategoriesScreen
    | ExplorationScreen(category: string)
    | SimulationScreen(assets: seq<string>, defaultType: SimulationType, loggedIn: bool)
    | BlogScreen
    | SupportScreen
    | DashboardScreen
    | Nothing

  class AppState {
    var selectedCategory: Option<string>
    var view: View
    var selectedAssets: seq<string>
    var isLoggedIn: bool
    var simulationType: SimulationType

    /** A daily simulation type is only ever chosen by a logged-in user. */
    ghost predicate Valid()
      reads this
    {
      simulationType == Daily ==> isLoggedIn
    }

    constructor ()
      ensures Valid()
      ensures selectedCategory == None && view == Home && selectedAssets == []
      ensures !isLoggedIn && simulationType == Finite
    {
      selectedCategory := None;
      view := Home;
      selectedAssets := [];
      isLoggedIn := false;
      simulationType := Finite;
    }

    /** `handleCategorySelect`. */
    method HandleCategorySelect(category: string)
      requires Valid()
      modifies this`selectedCategory, this`view
      ensures Valid()
      ensures selectedCategory == Some(category) && view == Explore
      ensures selectedAssets == old(selectedAssets) && isLoggedIn == old(isLoggedIn)
      ensures simulationType == old(simulationType)
    {
      selectedCategory := Some(category);
      view := Explore;
    }

    /** `handleStartSimulation`: stores the list as given, without any check. */
    method HandleStartSimulation(assets: seq<string>)
      requires Valid()
      modifies this`selectedAssets, this`view
      ensures Valid()
      ensures selectedAssets == assets && view == Simulate
      ensures selectedCategory == old(selectedCategory) && isLoggedIn == old(isLoggedIn)
      ensures simulationType == old(simulationType)
    {
      selectedAssets := assets;
      view := Simulate;
    }

    /** `handleBackToCategories`. */
    method HandleBackToCategories()
      requires Valid()
      modifies this`selectedCategory, this`view
      ensures Valid()
      ensures selectedCategory == None && view == Categories
      ensures selectedAssets == old(selectedAssets) && isLoggedIn == old(isLoggedIn)
      ensures simulationType == old(simulationType)
    {
      selectedCategory := None;
      view := Categories;
    }

    /** `handleLogin`. */
    method HandleLogin()
      requires Valid()
      modifies this`isLoggedIn, this`view
      ensures Valid()
      ensures isLoggedIn && view == Dashboard
      ensures selectedCategory == old(selectedCategory) && selectedAssets == old(selectedAssets)
      ensures simulationType == old(simulationType)
    {
      isLoggedIn := true;
      view := Dashboard;
    }

    /**
     * `handleSimulationTypeSelect`: a daily request from a logged-out user is
     * refused (the alert), every other request is taken. `refused` tells
     * whether the alert was shown.
     */
    method HandleSimulationTypeSelect(requested: SimulationType) returns (refused: bool)
      requires Valid()
      modifies this`simulationType
      ensures Valid()
      ensures refused <==> !isLoggedIn && requested == Daily
      ensures simulationType == if refused then old(simulationType) else requested
      ensures view == old(view) && isLoggedIn == old(isLoggedIn)
      ensures selectedCategory == old(selectedCategory) && selectedAssets == old(selectedAssets)
    {
      if !isLoggedIn && requested == Daily {
        return true;
      }
      refused := false;
      simulationType := requested;
    }

    /**
     * The plain `setView` calls: the logo, the navigation and footer links,
     * "Inversiones", "Mi Cuenta", and the callbacks handed to the screens.
     */
    method SetView(v: View)
      requires Valid()
      modifies this`view
      ensures Valid()
      ensures view == v
      ensures selectedCategory == old(selectedCategory) && selectedAssets == old(selectedAssets)
      ensures isLoggedIn == old(isLoggedIn) && simulationType == old(simulationType)
    {
      view := v;
    }

    /**
     * The main area. An explore view with no (or an empty, hence falsy)
     * category and an investments view while logged out render nothing.
     */
    function Rendered(): (s: Screen)
      reads this
      ensures s == Nothing <==>
                (view == Explore && (selectedCategory == None || selectedCategory == Some("")))
                || (view == Investments && !isLoggedIn)
      ensures s.ExplorationScreen? <==> view == Explore && selectedCategory.Some? && selectedCategory.value != ""
      ensures s.ExplorationScreen? ==> selectedCategory == Some(s.category)
      ensures s == DashboardScreen <==> view == Dashboard || (view == Investments && isLoggedIn)
      ensures s.SimulationScreen? <==> view == Simulate
      ensures s.SimulationScreen? ==> s.assets == selectedAssets && s.defaultType == simulationType && s.loggedIn == isLoggedIn
      ensures view == Home <==> s == HomeScreen
      ensures view == Categories <==> s == CategoriesScreen
      ensures view == Blog <==> s == BlogScreen
      ensures view == Support <==> s == SupportScreen
    {
      match view
      case Home => HomeScreen
      case Categories => CategoriesScreen
      case Explore =>
        if selectedCategory.Some? && selectedCategory.value != "" then ExplorationScreen(selectedCategory.value)
        else Nothing
      case Simulate => SimulationScreen(selectedAssets, simulationType, isLoggedIn)
      case Blog => BlogScreen
      case Support => SupportScreen
      case Dashboard => DashboardScreen
      case Investments => if isLoggedIn then DashboardScreen else Nothing
    }
  }
}
