# Lunar delivery client: session and dashboard controllers

This project models the controller logic of a small browser client for a
lunar food-delivery marketplace built on the Manifest SDK. Customers see
outposts and their orders. Drivers see and set the status of their rover and
see its deliveries. Admins deploy new rovers for a driver.

Three sequential controllers sit under the markup. Each is modelled as a
Dafny class with the component's state as fields:

- `Shell.App` (App.jsx) holds `user`, `currentScreen`, `backendConnected` and
  `isLoading`. It runs startup (connectivity probe, then session restore),
  login, signup and logout, and a rule picks the rendered screen.
- `Dashboard.DashboardPage` (DashboardPage.jsx) loads data by role
  (`fetchData`), updates the driver's rover status with the record the
  server returns, and creates rovers from the admin form. The pure helpers
  (colour tables, selector labels, order rows) are in `DashboardView`.
- `Landing.LandingPage` (LandingPage.jsx) keeps the mode flag, the fields,
  the loading flag and the error text. Its submit handler calls the shell's
  `Login` or `Signup`.

Every SDK call goes through `Gateway.Gateway`. This class appends the call
(collection, filter, relations, limit, payload) to a trace. The answer is an
input: the `Backend` value is a function from the calls issued so far and
the new call to the settled result. Each handler has a pure specification
function (`Startup`, `LoginRun`, `FetchRun`, `CreateRoverRun`, ...). That
function returns the new state, the calls issued and how the run ended. The
class method is proved to produce exactly that state and to append exactly
those calls. The properties of the source are proved about the
specification functions.

Behaviour of the code that the model keeps:

- `logout` clears the user and returns to the landing screen only after the
  remote logout succeeds. A rejected logout propagates and changes nothing.
- The outposts are fetched for every role, not only for customers.
- A failed query stops the later queries. Lists stored by earlier steps of
  the same run keep their new values (for example, the outposts and the
  driver's rover).
- The rover-status update sends whatever status it is given. No local check
  happens; the selector offers only the three statuses.
- An incomplete rover form shows an alert and issues no call. A rejected
  creation propagates and leaves the form filled in.
- Order badges use `toUpperCase()` without the underscore replacement
  (`IN_TRANSIT`). Only the status-selector label replaces the first `_`.

## Model

| member | source | states |
|---|---|---|
| `Shell.SignupFields` | frontend/src/App.jsx:49 | signup sends exactly email, password, name and lunarAddress as given, with role fixed to 'customer' |
| `Shell.Render` | frontend/src/App.jsx:62-82 | loading screen iff isLoading; otherwise dashboard iff the screen is not 'landing' and a user is set, showing that user; the banner shows backendConnected |
| `Shell.Startup` | frontend/src/App.jsx:17-37 | probe first; on probe failure no `me`, not connected, user and screen unchanged; on success `me` follows, and its record becomes the user with the dashboard screen, or its rejection gives no user and the landing screen; always ends not loading and never throws |
| `Shell.LoginRun` | frontend/src/App.jsx:41-46 | login then `me`; when both are accepted the outcome is success, the user is the `me` record and the screen the dashboard; a rejected login throws its message after one call, a rejected `me` throws its message after two, and both leave the session unchanged |
| `Shell.SignupRun` | frontend/src/App.jsx:48-54 | signup (customer fields), login with the same credentials, `me`, in that order; each rejection throws its own message after exactly the calls made so far, with the session unchanged; when all three are accepted the outcome is success with the `me` record as user and the dashboard screen |
| `Shell.LogoutRun` | frontend/src/App.jsx:56-60 | one logout call; user cleared and landing screen only if it succeeds; a rejection propagates with the session unchanged |
| `Shell.SignupIsSignupThenLogin` | frontend/src/App.jsx:48-54 | after a successful signup call, signup behaves exactly as login with the same credentials |
| `Shell.StartupRendersNoLoadingScreen` | frontend/src/App.jsx:19-36 | after startup the loading screen is gone; a failed probe shows the landing page with the disconnected banner; the dashboard shows iff probe and restore succeed |
| `Shell.App.constructor` | frontend/src/App.jsx:10-14 | initial state: no user, landing screen, not connected, loading |
| `Shell.App.Initialize` | frontend/src/App.jsx:17-38 | new state and calls are those of `Startup` |
| `Shell.App.Login` | frontend/src/App.jsx:41-46 | new state, calls and outcome are those of `LoginRun` |
| `Shell.App.Signup` | frontend/src/App.jsx:48-54 | new state, calls and outcome are those of `SignupRun` |
| `Shell.App.Logout` | frontend/src/App.jsx:56-60 | new state, calls and outcome are those of `LogoutRun` |
| `DashboardView.StatusTablesCoverStatuses` | frontend/src/screens/DashboardPage.jsx:74-75 | the rover table covers exactly idle, delivering, charging; the order table exactly the five order statuses; distinct statuses get distinct classes |
| `DashboardView.ColorClass` | frontend/src/screens/DashboardPage.jsx:14 | a status in the table gets its classes; any other key not inherited by every JavaScript object gets the text "undefined" |
| `DashboardView.UpperChar` | frontend/src/screens/DashboardPage.jsx:16 | a-z map to A-Z, every other character is kept |
| `DashboardView.Upper` | frontend/src/screens/DashboardPage.jsx:16 | same length, every character upper-cased in place |
| `DashboardView.FirstIndex` | frontend/src/screens/DashboardPage.jsx:16 | the index of the first occurrence, or the length when there is none |
| `DashboardView.ReplaceFirst` | frontend/src/screens/DashboardPage.jsx:16 | same length; only the first occurrence is replaced, every other character kept |
| `DashboardView.ChoiceLabel` | frontend/src/screens/DashboardPage.jsx:16 | the first `_` becomes a space and every other character is upper-cased in place |
| `DashboardView.ChoiceLabelKeepsLaterUnderscores` | frontend/src/screens/DashboardPage.jsx:16 | underscores after the first survive in the label |
| `DashboardView.InTransitLabel` | frontend/src/screens/DashboardPage.jsx:16 | 'in_transit' is labelled 'IN TRANSIT' |
| `DashboardView.ChoiceButton` | frontend/src/screens/DashboardPage.jsx:11-17 | a button shows the option's label; the selected option takes the table's classes, the others the grey classes |
| `DashboardView.ChoiceButtons` | frontend/src/screens/DashboardPage.jsx:10-18 | one button per option, in the options' order |
| `DashboardView.IdPrefix` | frontend/src/screens/DashboardPage.jsx:172 | the order id's first min(8, length) characters, counted as whole characters |
| `DashboardView.FieldText` | frontend/src/screens/DashboardPage.jsx:173 | a field's value, or empty text when the record lacks it (a JSX child renders `undefined` as nothing) |
| `DashboardView.OrderRowOf` | frontend/src/screens/DashboardPage.jsx:170-176 | title 'Order #' plus the id prefix, 'Total: $' followed by the total price (nothing after the '$' when it is missing), the order table's classes and the upper-cased status |
| `DashboardView.OrderRows` | frontend/src/screens/DashboardPage.jsx:169-177 | one row per order, in the order returned |
| `DashboardView.UpperPlaced` | frontend/src/screens/DashboardPage.jsx:175 | the 'placed' badge reads 'PLACED' |
| `DashboardView.UpperDelivered` | frontend/src/screens/DashboardPage.jsx:175 | the 'delivered' badge reads 'DELIVERED' |
| `DashboardView.PlacedThenDeliveredRows` | frontend/src/screens/DashboardPage.jsx:169-177 | a placed and a delivered order give a blue 'PLACED' and a green 'DELIVERED' row, in that order |
| `Dashboard.FetchRun` | frontend/src/screens/DashboardPage.jsx:77-103 | the outpost query comes first for every role; a rejected query is the last one issued; the run never throws and ends not loading; the outposts are stored when their query succeeds; the rover form is untouched |
| `Dashboard.FetchForCustomer` | frontend/src/screens/DashboardPage.jsx:83-85 | a customer issues only the order query with filter customerId == user.id and relation rover; its list becomes myOrders; no other role's data changes |
| `Dashboard.FetchForDriver` | frontend/src/screens/DashboardPage.jsx:86-93 | a driver queries lunarRover with filter operatorId == user.id and limit 1; an empty or rejected answer means no order query and myRover and myDeliveries unchanged; otherwise myRover is the first rover and one order query with roverId and relation customer follows, whose list becomes myDeliveries (unchanged when it is rejected) |
| `Dashboard.FetchForAdmin` | frontend/src/screens/DashboardPage.jsx:94-97 | an admin issues only the user query with filter role == 'driver'; its list becomes drivers, which stay unchanged when it is rejected |
| `Dashboard.FetchForOtherRoles` | frontend/src/screens/DashboardPage.jsx:80-97 | any other role, or none, issues only the outpost query and changes only outposts and the loading flag |
| `Dashboard.UpdateStatusRun` | frontend/src/screens/DashboardPage.jsx:109-113 | no rover: no call, nothing changes; otherwise one update of {status} on the rover's id, and the returned record replaces myRover; a rejection propagates and changes nothing |
| `Dashboard.CreateRoverRun` | frontend/src/screens/DashboardPage.jsx:115-121 | empty name or missing/empty operator: alert, no call, nothing changes; otherwise one create with exactly {name, operatorId}, then the form is reset; a rejection propagates and leaves the form as it was; no list changes |
| `Dashboard.CreateRover01` | frontend/src/screens/DashboardPage.jsx:115-121 | 'Rover-01' for driver 7 creates exactly {name: 'Rover-01', operatorId: '7'} once and resets the form |
| `Dashboard.PanelOf` | frontend/src/screens/DashboardPage.jsx:147-224 | loading text iff loading; otherwise the customer, driver (only with a rover) or admin section by role, each showing exactly its own data |
| `Dashboard.DriverWithoutRoverSeesNoPanel` | frontend/src/screens/DashboardPage.jsx:184 | a driver whose rover query is empty sees no rover section after the load |
| `Dashboard.DashboardPage.constructor` | frontend/src/screens/DashboardPage.jsx:65-72 | initial state: empty lists, no rover, empty form, loading |
| `Dashboard.DashboardPage.FetchData` | frontend/src/screens/DashboardPage.jsx:77-103 | new state and calls are those of `FetchRun` |
| `Dashboard.DashboardPage.HandleUpdateRoverStatus` | frontend/src/screens/DashboardPage.jsx:109-113 | new state, calls and outcome are those of `UpdateStatusRun` |
| `Dashboard.DashboardPage.HandleCreateRover` | frontend/src/screens/DashboardPage.jsx:115-121 | new state, calls and outcome are those of `CreateRoverRun` |
| `Dashboard.DashboardPage.SetRoverName` | frontend/src/screens/DashboardPage.jsx:217 | only the form's name changes |
| `Dashboard.DashboardPage.SetRoverOperator` | frontend/src/screens/DashboardPage.jsx:219 | only the form's operator changes, to the picked id |
| `Landing.ErrorText` | frontend/src/screens/LandingPage.jsx:26 | the thrown message when non-empty, otherwise the fixed default text; never empty |
| `Landing.Dispatch` | frontend/src/screens/LandingPage.jsx:20-24 | login mode runs login with email and password; otherwise signup with email, password, name and address |
| `Landing.DispatchCallsExactlyOne` | frontend/src/screens/LandingPage.jsx:20-24 | the first call is the login iff in login mode and the customer signup iff not, so exactly one of the two runs |
| `Landing.AfterSubmit` | frontend/src/screens/LandingPage.jsx:25-29 | loading ends false; the error is the shown message after a rejection and empty otherwise; mode and fields are kept |
| `Landing.SubmitErrorIffRejected` | frontend/src/screens/LandingPage.jsx:14-30 | the form shows an error iff the login or signup was rejected, and a rejection leaves the session unchanged |
| `Landing.LandingPage.constructor` | frontend/src/screens/LandingPage.jsx:6-12 | login mode, empty fields, not loading, no error |
| `Landing.LandingPage.HandleSubmit` | frontend/src/screens/LandingPage.jsx:14-30 | callable only when not loading (the button is disabled while loading); the form becomes `AfterSubmit` of the dispatched run; the shell's state and the calls are those of `Dispatch` |
| `Landing.LandingPage.SelectLogin` | frontend/src/screens/LandingPage.jsx:45 | only isLogin changes, to true; email and password are kept |
| `Landing.LandingPage.SelectSignup` | frontend/src/screens/LandingPage.jsx:51 | only isLogin changes, to false; email and password are kept |
| `Landing.LandingPage.SetEmail` | frontend/src/screens/LandingPage.jsx:74 | only the email changes |
| `Landing.LandingPage.SetPassword` | frontend/src/screens/LandingPage.jsx:79 | only the password changes |
| `Landing.LandingPage.SetName` | frontend/src/screens/LandingPage.jsx:63 | only the name changes |
| `Landing.LandingPage.SetLunarAddress` | frontend/src/screens/LandingPage.jsx:67 | only the address changes |

## Left out

- Layout, CSS classes other than the status tables, icons, the image uploader, the rendering of the operator picker, image fallback URLs, the admin-panel link, `console` output and the `alert` dialog. The alert appears only as the `Alerted` outcome.
- The Manifest SDK and `testBackendConnection`: services/apiService.js is not part of this model. They are the abstract `Backend`, which settles each call. The probe's `success` flag is an acknowledged or rejected `Probe` call. A probe that throws is not modelled.
- Asynchronous interleaving and React scheduling. Each handler is one sequential run. The mount effects and the `[user]` effect that call `fetchData` are not modelled, and neither is re-creating the client on each render. Flags set only for the duration of a run are not observable after it: `isLoading` during `fetchData`, `loading` during a submit.
- Relations the SDK attaches (an order's rover, a delivery's customer) are not modelled. Records are flat. So the driver's delivery rows (customer name and address) and the outpost cards are not modelled.
- `DashboardView.UpperChar`: upper-cases ASCII letters only, not the full Unicode mapping of `toUpperCase`.
- `DashboardView.Upper`: built on `UpperChar`, so its same-length promise holds for the ASCII mapping only; JavaScript turns 'ß' into 'SS'.
- `DashboardView.ChoiceLabel`: built on `Upper`, with the same ASCII-only limit and the same-length promise only for that mapping.
- `DashboardView.ColorClass`: the tables are plain JavaScript objects, so a lookup of a key every object inherits ("constructor", "toString", "__proto__") yields that member's text in the source; the model gives "undefined" for it. The badge classes of `OrderRowOf` inherit this limit.
- `DashboardView.IdPrefix`: counts whole Unicode characters, where `slice(0, 8)` counts UTF-16 code units, so an id with characters outside the Basic Multilingual Plane (emoji, say) gets a different prefix in the source. The title of `OrderRowOf` inherits this limit.
- `DashboardView.OrderRowOf`: requires a `status` field. Without one, the source's rendering would throw.
- `DashboardView.OrderRows`: requires a `status` field on every order, for the same reason.
