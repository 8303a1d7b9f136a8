# InvestSim Pro front end — a Dafny model of its screen logic

InvestSim Pro is a React single-page application for simulating investments:
browse categories, pick assets, fill in a simulation form, look at the result
and at a dashboard of saved simulations, register an account, read a help page.
It has no simulation engine. The only "calculation" is a placeholder that
multiplies the amount by 1.5 (`src/utils/investment.ts`, and the same thing
written again inside `SimulationView`). A fuller engine can be imagined from the
shape of the results (allocation across assets, price series, dividends,
per-asset returns), but nothing like that is in the code. This model follows the
code and models the 1.5× placeholder as written.

What the model covers, one Dafny module per source file:

- `RegisterView` (`register_view.dfy`): the password rule, written as a
  character-class predicate with a left-to-right scan proved equal to it, and the
  two-step register → verify flow as a class. The server is not modelled. Each
  request's reply is an input `Reply` value: `Ok(message)`, `NotOk(error)` or
  `Thrown` (an exception).
- `ExplorationView` (`exploration_view.dfy`): the case-insensitive search filter
  and the selection toggle, as functions over sequences, plus the guard on the
  "Simular Inversión" button.
- `App` (`app.dfy`): the shell's state (`view`, `selectedCategory`,
  `selectedAssets`, `isLoggedIn`, `simulationType`) as a class. Its handlers are
  methods. Its invariant is "a daily simulation type implies logged in". A
  function gives the screen the main area renders.
- `UserDashboard` (`user_dashboard.dfy`): the constant list of saved simulations,
  the tab filter, the finite/daily lists and their counts, and the label choices.
- `SimulationView` (`simulation_view.dfy`): the mock result record and its three
  daily updates, and the screen's local copy of the simulation type (a class).
- `Investment` (`investment.dfy`): `calculateInvestment`.
- `InvestmentForm` (`investment_form.dfy`): the form record, its defaults, the
  one-field input handlers and the submit handler (a class).
- `SupportView` (`support_view.dfy`): the FAQ accordion (a class) and the
  answers it renders.
- `Common` holds `Option` and `SimulationType`. `Lists` holds the
  order-preserving `Filter` (JavaScript's `Array.prototype.filter`) and the
  lemmas about it that the screens use.

Modelling choices:

- Amounts are Dafny `real` numbers, so arithmetic is exact. `parseFloat` is
  replaced by passing in the number the amount text denotes.
- `toLowerCase` is modelled on ASCII letters only.
- `data.error || fallback` gives the fallback when the error text is absent or
  empty, because the empty string is falsy in JavaScript.
- The dashboard's `type` field is kept as a string, as in the source.
- A handler that the source binds to only one form or control is called only
  from there, and its `requires` clause says so:
  - `HandleRegister` runs only in the register step, and `HandleVerify` only in
    the verify step.
  - `ChangeEndDate` is called only in finite mode, and
    `ChangeNotificationFrequency` only in daily mode.
  - A select yields only one of its own options.
  - The browser submits a form only when its rendered `required` inputs are
    non-empty. So `HandleSubmit` needs the amount, the start date and, in
    finite mode, the end date. `HandleRegister` needs the four registration
    fields, and `HandleVerify` needs the code.

## Model

| member | source | states |
|---|---|---|
| `RegisterView.Scan` | src/components/RegisterView.tsx:20 | each flag of one left-to-right pass is true exactly when some character of that class occurs (or, for `onlyAllowed`, when every character is in the allowed class) |
| `RegisterView.ValidatePassword` | src/components/RegisterView.tsx:19-22 | the password is accepted exactly when it has at least 8 characters, all from A–Z, a–z, 0–9 and `@$!%*?&`, with at least one lowercase letter, one uppercase letter, one digit and one of `@$!%*?&` |
| `RegisterView.ForeignCharacterRejects` | src/components/RegisterView.tsx:20 | a single character outside the allowed class (a space, `#`) makes the password invalid whatever else it contains |
| `RegisterView.AppendAllowedKeepsValid` | src/components/RegisterView.tsx:20 | appending an allowed character to a valid password keeps it valid |
| `RegisterView.MissingKindRejects` | src/components/RegisterView.tsx:20 | a password lacking any one of the four required kinds of character is rejected |
| `RegisterView.ErrorText` | src/components/RegisterView.tsx:47 | a present, non-empty server text is the one shown, and an absent or empty one gives the fallback |
| `RegisterView.Registration.constructor` | src/components/RegisterView.tsx:10-16 | the screen starts in the register step with every field and the message empty |
| `RegisterView.Registration.HandleRegister` | src/components/RegisterView.tsx:24-53 | a mismatch is reported first, even for a malformed password, and then the format text. The request is made only for matching and valid passwords. The step becomes verify only on an ok reply. A non-ok reply shows the server error or 'Error en el registro', and an exception shows the connection text. The invariant holds: the verify step is reached only with an accepted password that meets the rule |
| `RegisterView.Registration.HandleVerify` | src/components/RegisterView.tsx:55-75 | `onAuthSuccess` is called exactly on an ok reply. The step stays verify. The message is the reply's message, the error or 'Error en la verificación', or the connection text. Authentication implies that a password meeting the rule was accepted |
| `ExplorationView.Lower` | src/components/ExplorationView.tsx:31-32 | lowercasing keeps the length and lowercases each ASCII letter in place |
| `ExplorationView.FilteredAssets` | src/components/ExplorationView.tsx:30-33 | an asset is shown exactly when its lowercased name or lowercased id contains the lowercased search term |
| `ExplorationView.FilteredAssetsKeepOrder` | src/components/ExplorationView.tsx:30-33 | filtering distributes over concatenation, so the shown assets keep their original order |
| `ExplorationView.EmptySearchShowsAll` | src/components/ExplorationView.tsx:30-33 | an empty search term shows every asset, in order |
| `ExplorationView.SearchIgnoresCase` | src/components/ExplorationView.tsx:30-33 | two search terms that are equal up to case show the same assets |
| `ExplorationView.ToggleAsset` | src/components/ExplorationView.tsx:35-41 | the toggled id is in the result exactly when it was not selected, so every occurrence of a present id is removed. Other ids keep their membership. An absent id is appended at the end with all earlier entries in place |
| `ExplorationView.ToggleKeepsOthers` | src/components/ExplorationView.tsx:35-41 | with the toggled id removed from both, the selection before and after the toggle are the same sequence, so the other ids keep their membership and relative order |
| `ExplorationView.ToggleTwiceRestores` | src/components/ExplorationView.tsx:35-41 | toggling an unselected id twice gives back the original selection |
| `ExplorationView.ToggleKeepsNoDuplicates` | src/components/ExplorationView.tsx:35-41 | a selection without duplicates stays without duplicates |
| `ExplorationView.StartSimulationRequest` | src/components/ExplorationView.tsx:49-51 | `onStartSimulation` can be reached only with a non-empty selection, and it receives the selection unchanged |
| `App.AppState.constructor` | src/App.tsx:12-16 | the shell starts on home, with no category, no assets, logged out and type finite, so the invariant holds |
| `App.AppState.HandleCategorySelect` | src/App.tsx:18-21 | the category is stored and the view becomes explore. Nothing else changes |
| `App.AppState.HandleStartSimulation` | src/App.tsx:23-26 | the asset list is stored verbatim and the view becomes simulate. Nothing else changes |
| `App.AppState.HandleBackToCategories` | src/App.tsx:28-31 | the category is cleared and the view becomes categories. Nothing else changes |
| `App.AppState.HandleLogin` | src/App.tsx:33-36 | the user becomes logged in and the view becomes dashboard. Nothing else changes |
| `App.AppState.HandleSimulationTypeSelect` | src/App.tsx:38-45 | a daily request while logged out is refused and changes nothing. Every other request sets the type. The type is daily only when logged in, and no handler clears the login flag |
| `App.AppState.SetView` | src/App.tsx:58-67 | the plain `setView` calls change the view and nothing else, and keep the invariant |
| `App.AppState.Rendered` | src/App.tsx:113-144 | nothing is rendered exactly for explore without a (truthy) category or investments while logged out. The exploration screen gets the stored category. The dashboard renders for dashboard, and for investments only when logged in. The simulation screen renders exactly for simulate and gets the stored assets, type and login flag. Home, categories, blog and support each render their own screen exactly for their view |
| `UserDashboard.FilteredSimulations` | src/components/UserDashboard.tsx:50-52 | tab 'all' shows the saved list itself. A type tab shows exactly the entries of that type |
| `UserDashboard.DailySimulations` | src/components/UserDashboard.tsx:54 | exactly the entries of type 'daily' |
| `UserDashboard.FiniteSimulations` | src/components/UserDashboard.tsx:55 | exactly the entries of type 'finite' |
| `UserDashboard.TabsAgreeWithCounts` | src/components/UserDashboard.tsx:50-55 | a type tab shows the same list its count is taken from, and keeps the original order |
| `UserDashboard.FiniteAndDailyPartition` | src/components/UserDashboard.tsx:94-98 | when every type is 'finite' or 'daily', the two lists partition the saved list (as multisets), so their counts sum to the total shown |
| `UserDashboard.SavedSimulationCounts` | src/components/UserDashboard.tsx:11-48 | the card shows 3 simulations: 2 finite and 1 daily |
| `UserDashboard.ShowRecentUpdates` | src/components/UserDashboard.tsx:103 | the recent-updates panel is shown exactly when some entry is daily |
| `UserDashboard.DateLabel` | src/components/UserDashboard.tsx:198-202 | a finite entry's date line is its date, then " - ", then its end date ("undefined" when missing). Any other entry's line is "Desde " followed by its date |
| `UserDashboard.ActionLabel` | src/components/UserDashboard.tsx:236 | the secondary action is 'Actualizar Simulación' exactly for finite entries and 'Ver Historial' for all others |
| `UserDashboard.LabelsAgree` | src/components/UserDashboard.tsx:199-201 | for a date starting with a digit, the date line starts with "Desde " exactly when the action reads 'Ver Historial' |
| `SimulationView.DailyUpdates` | src/components/SimulationView.tsx:52-56 | three entries dated 2024-05-01, 2024-05-02 and 2024-05-03, worth 1.02, 1.03 and 1.025 × the amount, labelled '+2.0%', '+1.0%' and '-0.5%' |
| `SimulationView.MockResults` | src/components/SimulationView.tsx:38-57 | the result has `initialInvestment` = amount, `finalValue` = 1.5 × amount, `returnPercentage` = 50, `isPositive` true and the three recommendations. It carries the selected assets and the current type unchanged. Its daily updates are absent in finite mode and are exactly `DailyUpdates(amount)` in daily mode |
| `SimulationView.MockResultsAgreeWithCalculation` | src/components/SimulationView.tsx:40-49 | the screen's figures and recommendations are those of `calculateInvestment`, whatever the dates |
| `SimulationView.ChangeLabelsMatchValues` | src/components/SimulationView.tsx:53-55 | each label is the step from the previous value (the amount for the first entry) in percentage points of the amount. For a positive amount, the label's sign is the sign of that step |
| `SimulationView.SecondLabelIsNotRelativeToPrevious` | src/components/SimulationView.tsx:53-54 | the '+1.0%' label is not the change relative to the previous value, which is 1/1.02 % |
| `SimulationView.SimulationPanel.constructor` | src/components/SimulationView.tsx:25-26 | the local type starts from `defaultSimulationType`, with no result |
| `SimulationView.SimulationPanel.ReceiveProps` | src/components/SimulationView.tsx:28-31 | the local type is reset to the new default exactly when the default changed. The result is untouched |
| `SimulationView.SimulationPanel.HandleSimulationTypeChange` | src/components/SimulationView.tsx:33-36 | the request is forwarded to the shell, which may refuse it. The local type is then set to the request regardless. Through an enabled button, the local type and the shell's type agree afterwards |
| `SimulationView.SimulationPanel.HandleSimulation` | src/components/SimulationView.tsx:38-59 | the stored result is the mock result for the amount, the selection and the current local type |
| `SimulationView.SimulationPanel.DailyButtonEnabled` | src/components/SimulationView.tsx:109 | the daily-type button is enabled exactly when the user is logged in |
| `SimulationView.SimulationPanel.SaveButtonShown` | src/components/SimulationView.tsx:155-164 | the save button is shown exactly when there is a result and the user is logged in |
| `Investment.CalculateInvestment` | src/utils/investment.ts:1-22 | `initialInvestment` is the amount and `finalValue` exceeds it by half the amount (1.5 ×). `returnPercentage` is always 50, which equals (final − initial) / initial × 100 for any non-zero amount. `isPositive` is always true, and the recommendations are always the same three strings in order |
| `Investment.DatesAreIgnored` | src/utils/investment.ts:1-21 | the start and end dates have no effect on the result |
| `InvestmentForm.FormState.constructor` | src/components/InvestmentForm.tsx:10-17 | the record starts with empty amount and dates, no reinvestment, 'moderate' risk and 'daily' notifications |
| `InvestmentForm.FormState.ChangeAmount` | src/components/InvestmentForm.tsx:37 | replaces the amount and leaves every other field as it was |
| `InvestmentForm.FormState.ChangeStartDate` | src/components/InvestmentForm.tsx:53 | replaces the start date and leaves every other field as it was |
| `InvestmentForm.FormState.ChangeEndDate` | src/components/InvestmentForm.tsx:69 | replaces the end date and leaves every other field as it was |
| `InvestmentForm.FormState.ChangeNotificationFrequency` | src/components/InvestmentForm.tsx:84 | replaces the frequency with one of daily, weekly and monthly, and leaves every other field as it was |
| `InvestmentForm.FormState.ChangeRiskLevel` | src/components/InvestmentForm.tsx:100 | replaces the risk level with one of conservative, moderate and aggressive, and leaves every other field as it was |
| `InvestmentForm.FormState.ChangeReinvestDividends` | src/components/InvestmentForm.tsx:115 | replaces the checkbox value and leaves every other field as it was |
| `InvestmentForm.FormState.ReceiveSimulationType` | src/components/InvestmentForm.tsx:60-92 | switching mode changes which inputs show but never the record, so hidden fields keep their values |
| `InvestmentForm.FormState.EndDateShown` | src/components/InvestmentForm.tsx:60 | the end-date input exists exactly in finite mode |
| `InvestmentForm.FormState.FrequencyShown` | src/components/InvestmentForm.tsx:77 | the frequency select exists exactly in daily mode, which is exactly when the end-date input does not |
| `InvestmentForm.FormState.HandleSubmit` | src/components/InvestmentForm.tsx:19-22 | submit (which the browser allows only with the amount, the start date and, in finite mode, the end date filled) hands on the whole record unchanged, hidden fields included, with no check of the amount's sign or the dates' order. The selects hold one of their options |
| `SupportView.Toggle` | src/components/SupportView.tsx:54 | clicking the open question closes it. Clicking any other question opens that one |
| `SupportView.AnswersFrom` | src/components/SupportView.tsx:47-67 | from a given position on, at most one answer is rendered, and it is the answer at the open index |
| `SupportView.RenderedAnswers` | src/components/SupportView.tsx:63-67 | at most one answer is displayed, and it is the open question's. None is displayed when no question is open |
| `SupportView.Accordion.constructor` | src/components/SupportView.tsx:5 | initially no question is open |
| `SupportView.Accordion.Click` | src/components/SupportView.tsx:54 | the open question toggles as above and stays null or an index in 0..4, one for each of the five questions |

## Left out

- The `fetch` calls are not modelled: registration, verification, the asset list
  and login. Registration and verification replies are inputs. The asset list is
  an input of the filter.
- `LoginView` and its `localStorage` token writes: storage I/O, and the screen
  has no other logic.
- JSX markup, styling, icons, `console.error` and the `alert` text. The alert is
  the `refused` result of `HandleSimulationTypeSelect`.
- `HomeView`, `BlogView`, `InvestmentCategories` and `InvestmentResults` are
  static content and rendering. `toFixed(2)` is float formatting.
- The registration inputs' `onChange` setters are plain field writes. The model
  writes the fields directly.
- `parseFloat`, NaN and IEEE rounding: amounts are exact reals.
- The browser's format checks on `type="email"` and `type="number"` inputs are
  not modelled. Only the non-emptiness that `required` enforces is.
- Unicode case folding in `toLowerCase`: only ASCII letters are lowered.
- The dashboard totals ($23,000, $25,490, +10.8%) are literals, not computed.
  The 'Ver Detalles' and 'Eliminar' buttons have no handler.
- React scheduling is not modelled. Each handler runs to completion. An
  asynchronous handler's state updates are taken to land together when its
  request returns.
- Ok replies whose body has no `message` are not modelled: such a reply
  would set the message to `undefined`. The model's `Ok` always carries a string.
- No real simulation engine (allocation, price lookup, dividends, risk
  effects) is modelled, because none exists in the code.
