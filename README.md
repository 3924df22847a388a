# bookit-dashboard: a verified model of the dashboard's logic

bookit-dashboard is a React front end for a booking service. This project models the parts
of it that decide something, and proves what they promise:

- `Routes` (`routes.dfy`) is the application shell:
  - the two route guards, `ProtectedRoute` and `RedirectAuthenticatedUser`, as functions from a
    session to a screen;
  - the loading gate;
  - the route table with its catch-all, as a first-match lookup from a path to a guarded page.

  A session is what the auth store hands the guards: `isAuthenticated` and a user that may be
  missing. A path is the location already split into its segments. The screen is one of a
  spinner, a redirect, a page, or a crash: reading `isVerified` of a missing user throws while
  rendering. `Navigate` follows a redirect by resolving its target path again, and
  `RedirectsSettle` proves that redirects end.
- `Bookings` (`bookings.dfy`) is the owner's list of bookings:
  - confirming and cancelling, which replace the status of every booking with the given id;
  - the split into upcoming and past bookings at the current time;
  - the Confirm/Cancel buttons each status gets.

  The page's single state cell is the class `BookingsPage`.
- `ProfileEditor` (`profile.dfy`) is the draft profile:
  - the text-field setter;
  - the weekly grid of open slots, kept as a map from "{day}_{slot}" to a flag;
  - appending, removing and editing service rows;
  - appending picture references;
  - the two preview projections: the listed services with their "No services added yet."
    notice, and the open-slot labels.

  The page's state cell is the class `ProfilePage`.
- `Support` (`support.dfy`) is the ticket form:
  - JavaScript's `trim` and the whitespace it strips;
  - the unanchored address pattern `\S+@\S+\.\S+`, as a compiled check proved equal to a
    literal reading of the regular expression;
  - the class `SupportPage` with its four state cells and the step-by-step `HandleSubmit`.
- `Wrappers` (`wrappers.dfy`) holds the `Option` type.

Values chosen outside the core are parameters:
- the current time, as an integer timestamp;
- the ticket id and its creation text;
- the object URLs of uploaded pictures;
- the session.

Ticking a schedule box twice does not give back the same map. It restores only whether each
box is ticked, and a slot that was never ticked keeps an explicit `false` entry afterwards.
`ToggleTwice` proves the first; `ToggleTwiceLeavesFalseEntry` shows the map differs.

## Model

| member | source | states |
|---|---|---|
| Routes.ProtectedRoute | frontend/src/App.jsx:24-36 | the guard only ever redirects to "/login" or "/verify-email" |
| Routes.ProtectedRouteOutcomes | frontend/src/App.jsx:27-35 | "/login" exactly when unauthenticated, whatever the user; "/verify-email" exactly when authenticated with an unverified user; the children exactly when authenticated and verified; a crash exactly when authenticated with no user |
| Routes.RedirectAuthenticatedUser | frontend/src/App.jsx:39-47 | the guard only ever redirects to "/" |
| Routes.RedirectAuthenticatedUserOutcomes | frontend/src/App.jsx:42-46 | redirect to "/" exactly when authenticated and verified; otherwise the children, or a crash when authenticated with no user |
| Routes.GuardsComplementary | frontend/src/App.jsx:24-47 | for every session whose authenticated state has a user, exactly one of the two guards shows its children |
| Routes.App | frontend/src/App.jsx:56 | the spinner is shown exactly while the auth check runs; no route is resolved then |
| Routes.FindRoute | frontend/src/App.jsx:87-149 | the route a path resolves to; which one each path gets is stated by `RouteTableMatches`, and no route exactly for the paths the catch-all takes |
| Routes.Guarded | frontend/src/App.jsx:88-138 | the wrapper a route's element is rendered in; `RouteGuards` states which wrapper each path gets |
| Routes.SegmentMatches | frontend/src/App.jsx:89-132 | a literal segment matches only itself and `:token` any non-empty segment; `ParamMatch` states the parameter case |
| Routes.PatternMatches | frontend/src/App.jsx:89-132 | a route's `path` matches a path segment by segment, lengths equal; `RouteTableMatches` states which paths each pattern of the table takes |
| Routes.FindFrom | frontend/src/App.jsx:87-150 | the result is the first position from `k` on whose pattern matches the path, and no position matches when there is none |
| Routes.ParamMatch | frontend/src/App.jsx:122-123 | "/reset-password/:token" matches exactly the two-segment paths starting "reset-password" with a non-empty token |
| Routes.RouteTableMatches | frontend/src/App.jsx:87-146 | which of the ten routes each path resolves to, and that no route matches exactly the paths not listed |
| Routes.RouteGuards | frontend/src/App.jsx:88-138 | "/verify-email" is the only unguarded route; "/", "/dashboard" and its three children are protected; "/signup", "/login", "/forgot-password" and "/reset-password/:token" are guest-only, each as an iff |
| Routes.DashboardIndexIsProfile | frontend/src/App.jsx:131-145 | "/dashboard" shows DashboardHome with Profile in its outlet, behind ProtectedRoute |
| Routes.CatchAllRedirectsHome | frontend/src/App.jsx:149 | a path no route matches is redirected to "/" for every session |
| Routes.Navigate | frontend/src/App.jsx:28-43 | following a `<Navigate replace>` by resolving its target path again, a bounded number of times; `RedirectsSettle` states that two hops always reach a page |
| Routes.LoginTarget | frontend/src/App.jsx:104-111 | "/login" sends a verified user to "/" and shows the login page to everybody else |
| Routes.VerifyEmailTarget | frontend/src/App.jsx:112 | "/verify-email" always shows the verification page |
| Routes.HomeTarget | frontend/src/App.jsx:88-95 | "/" is DashboardHome behind ProtectedRoute |
| Routes.TableGuards | frontend/src/App.jsx:87-146 | every route to DashboardHome is protected and every route to a guest page is guest-only |
| Routes.AppStep | frontend/src/App.jsx:24-149 | one resolution gives a page or a redirect to "/", "/login" or "/verify-email"; DashboardHome only for an authenticated session; never a guest page for a verified user |
| Routes.HomeSettles | frontend/src/App.jsx:24-36 | from "/" a page is reached after at most one more redirect: the login page when unauthenticated, the dashboard when verified |
| Routes.LoginSettles | frontend/src/App.jsx:39-47 | from "/login" a page is reached after at most one more redirect |
| Routes.VerifyEmailSettles | frontend/src/App.jsx:112 | "/verify-email" is shown without a redirect |
| Routes.RedirectsSettle | frontend/src/App.jsx:24-149 | for every well-formed session and path, a page is reached after at most two redirects; an unauthenticated session never reaches DashboardHome and a verified user never reaches a guest-only page |
| Bookings.SetStatus | frontend/src/pages/dashboard/bookings.jsx:48-58 | the status replacement keeps the length of the list |
| Bookings.SetStatusAt | frontend/src/pages/dashboard/bookings.jsx:50 | position by position: a booking with the id gets the new status, any other booking is kept |
| Bookings.SetStatusSpec | frontend/src/pages/dashboard/bookings.jsx:48-58 | confirm and cancel keep length and order and every field but the status; every booking with the id gets the new status whatever it had before; bookings with another id are unchanged |
| Bookings.SetStatusAbsent | frontend/src/pages/dashboard/bookings.jsx:50 | an id no booking has leaves the list unchanged |
| Bookings.LastStatusWins | frontend/src/pages/dashboard/bookings.jsx:48-58 | of two status changes to one id the later wins: there is no guard on the prior status, so Confirmed to Cancelled and back both go through |
| Bookings.SetStatusIdempotent | frontend/src/pages/dashboard/bookings.jsx:48-58 | confirming (or cancelling) twice equals doing it once |
| Bookings.Upcoming | frontend/src/pages/dashboard/bookings.jsx:44 | a booking is upcoming exactly when it is in the list and dated at or after now |
| Bookings.Past | frontend/src/pages/dashboard/bookings.jsx:45 | a booking is past exactly when it is in the list and dated before now |
| Bookings.PartitionInterleaves | frontend/src/pages/dashboard/bookings.jsx:44-45 | the list is an interleaving of the two lists, so each keeps the list's relative order |
| Bookings.PartitionCounts | frontend/src/pages/dashboard/bookings.jsx:44-45 | together the two lists hold every booking exactly as often as the list does |
| Bookings.PartitionSplits | frontend/src/pages/dashboard/bookings.jsx:44-45 | order kept, multiset split, and the lengths add up to the total |
| Bookings.BoundaryIsUpcoming | frontend/src/pages/dashboard/bookings.jsx:44-45 | a booking dated exactly now is upcoming and not past |
| Bookings.StatusButtons | frontend/src/pages/dashboard/bookings.jsx:227-258 | the buttons an upcoming booking of a status gets; stated by `ButtonPolicy` |
| Bookings.ActionButtons | frontend/src/pages/dashboard/bookings.jsx:227-258 | the buttons a booking gets at the current time; stated by `ButtonPolicy` |
| Bookings.Click | frontend/src/pages/dashboard/bookings.jsx:227-258 | a click on a button: a disabled one does nothing, an enabled one confirms or cancels; `EnabledButtonsChangeStatus` states its effect |
| Bookings.Target | frontend/src/pages/dashboard/bookings.jsx:230-246 | Confirm runs `confirmBooking` and both Cancel buttons run `cancelBooking`; `EnabledButtonsChangeStatus` states that the status written is a new one |
| Bookings.ButtonPolicy | frontend/src/pages/dashboard/bookings.jsx:227-258 | past bookings get no buttons; an upcoming booking gets two buttons, Confirm then Cancel, when its status is neither Confirmed nor Cancelled, and exactly one Cancel button otherwise; a button is disabled exactly when the status is Cancelled; Confirm is captioned "Confirm Booking", Cancel "Cancelled" for a cancelled booking and "Cancel Booking" otherwise |
| Bookings.EnabledButtonsChangeStatus | frontend/src/pages/dashboard/bookings.jsx:227-258 | clicking an enabled button always changes its booking's status, and a cancelled booking has no enabled button |
| Bookings.BookingsPage.constructor | frontend/src/pages/dashboard/bookings.jsx:5-39 | the page starts with the three sample bookings |
| Bookings.BookingsPage.ConfirmBooking | frontend/src/pages/dashboard/bookings.jsx:48-52 | the new list is the old one with every booking of the id Confirmed |
| Bookings.BookingsPage.CancelBooking | frontend/src/pages/dashboard/bookings.jsx:55-59 | the new list is the old one with every booking of the id Cancelled |
| ProfileEditor.WithField | frontend/src/pages/dashboard/profile.jsx:26-29 | the named text field gets the value; every other text field, the services, the schedule and the pictures are unchanged |
| ProfileEditor.SlotKey | frontend/src/pages/dashboard/profile.jsx:33 | the key `${day}_${slot}`, the same one the grid builds at profile.jsx:213; `GridKeysDistinct` states that it determines the cell |
| ProfileEditor.IsOpen | frontend/src/pages/dashboard/profile.jsx:222 | `!!profile.schedule[key]`, a missing key counting as unticked; `Toggled` and `ToggleTwice` state how toggling changes it |
| ProfileEditor.Toggled | frontend/src/pages/dashboard/profile.jsx:32-41 | the key "{day}_{slot}" is set to the negation of its truthiness, a missing key counting as unticked; every other key and every other field is unchanged |
| ProfileEditor.ToggleTwice | frontend/src/pages/dashboard/profile.jsx:32-41 | ticking the same box twice restores whether every key is ticked, and every other field |
| ProfileEditor.ToggleTwiceLeavesFalseEntry | frontend/src/pages/dashboard/profile.jsx:36-39 | ticking a never-ticked box twice leaves an explicit false entry, so the profile differs from the one before |
| ProfileEditor.DaysHaveNoSeparators | frontend/src/pages/dashboard/profile.jsx:3 | no day name contains "_" or " " |
| ProfileEditor.GridKeysDistinct | frontend/src/pages/dashboard/profile.jsx:33 | two grid cells with the same key are the same cell |
| ProfileEditor.ToggleIsLocal | frontend/src/pages/dashboard/profile.jsx:32-41 | ticking one cell of the grid leaves every other cell as it was |
| ProfileEditor.ToggleKeepsGridKeys | frontend/src/pages/dashboard/profile.jsx:211-223 | a schedule holding only grid keys still does after a toggle from the grid |
| ProfileEditor.OpenSlotLabels | frontend/src/pages/dashboard/profile.jsx:306-315 | the open-slot labels of the preview, as a set; `OpenSlotListed` states which labels are listed |
| ProfileEditor.ReplaceFirst | frontend/src/pages/dashboard/profile.jsx:314 | replacing the first "_" keeps the length |
| ProfileEditor.SlotLabel | frontend/src/pages/dashboard/profile.jsx:314 | for a day without "_", the preview label of "{day}_{slot}" is "{day} {slot}" |
| ProfileEditor.OpenSlotListed | frontend/src/pages/dashboard/profile.jsx:306-315 | for a schedule filled from the grid, "{day} {slot}" is listed exactly when that cell is ticked |
| ProfileEditor.ListedIsGridLabel | frontend/src/pages/dashboard/profile.jsx:306-315 | for a schedule filled from the grid, every listed label is "{day} {slot}" of a ticked cell |
| ProfileEditor.GridLabelIsListed | frontend/src/pages/dashboard/profile.jsx:306-315 | for a schedule filled from the grid, the label of every ticked cell is listed |
| ProfileEditor.OpenSlotPreview | frontend/src/pages/dashboard/profile.jsx:306-315 | for a schedule filled from the grid, the listed labels are exactly the labels "{day} {slot}" of the ticked cells, and nothing else |
| ProfileEditor.ListedServices | frontend/src/pages/dashboard/profile.jsx:292-299 | a service is listed exactly when it is in the list and has a non-empty name |
| ProfileEditor.ListedServicesAppend | frontend/src/pages/dashboard/profile.jsx:292-299 | listing keeps the rows' order: the listed rows of two lists joined are those of the first, then those of the second |
| ProfileEditor.ShowsNoServices | frontend/src/pages/dashboard/profile.jsx:287-288 | the notice condition, no rows or every row unnamed; `NoServicesNotice` states it is the same as no row being listed |
| ProfileEditor.NoServicesNotice | frontend/src/pages/dashboard/profile.jsx:287-288 | "No services added yet." is shown exactly when no service is listed |
| ProfileEditor.InitialProfileShowsNoServices | frontend/src/pages/dashboard/profile.jsx:14-23 | the initial draft has one service row, an empty one, so the notice is shown |
| ProfileEditor.WithServiceAdded | frontend/src/pages/dashboard/profile.jsx:51-56 | one empty row is appended at the end; the earlier rows and every other field are unchanged |
| ProfileEditor.Without | frontend/src/pages/dashboard/profile.jsx:60 | the `filter` that keeps every row but the one at the index; `WithoutSpec` states its result |
| ProfileEditor.WithoutSpec | frontend/src/pages/dashboard/profile.jsx:60 | the position filter drops exactly the row at an index in range, and nothing for an index out of range |
| ProfileEditor.WithServiceRemoved | frontend/src/pages/dashboard/profile.jsx:59-62 | with the index in range the list loses exactly that row, the others keeping their order; out of range it is a no-op; other fields are unchanged |
| ProfileEditor.RemoveUndoesAdd | frontend/src/pages/dashboard/profile.jsx:51-62 | removing the row just added gives back the profile from before |
| ProfileEditor.WithPictures | frontend/src/pages/dashboard/profile.jsx:65-72 | the new references follow the existing pictures in file order; every other field is unchanged |
| ProfileEditor.ProfilePage.constructor | frontend/src/pages/dashboard/profile.jsx:14-23 | the page starts with the initial draft |
| ProfileEditor.ProfilePage.HandleChange | frontend/src/pages/dashboard/profile.jsx:26-29 | the new profile is the old one with the named field set |
| ProfileEditor.ProfilePage.ToggleSchedule | frontend/src/pages/dashboard/profile.jsx:32-41 | the new profile is the old one with the slot toggled |
| ProfileEditor.WithServiceField | frontend/src/pages/dashboard/profile.jsx:46 | the row with the named field set; `ProfilePage.HandleServiceChange` states that only that field of that row changes |
| ProfileEditor.ProfilePage.HandleServiceChange | frontend/src/pages/dashboard/profile.jsx:44-48 | with the index in range only that field of that row changes, the length and the other rows are kept; with no row at the index the handler fails and the profile is unchanged |
| ProfileEditor.ProfilePage.AddService | frontend/src/pages/dashboard/profile.jsx:51-56 | the new profile has the empty row appended |
| ProfileEditor.ProfilePage.RemoveService | frontend/src/pages/dashboard/profile.jsx:59-62 | the new profile has the row removed |
| ProfileEditor.ProfilePage.HandleImageUpload | frontend/src/pages/dashboard/profile.jsx:65-72 | the new profile has the references appended |
| Support.IsSpace | frontend/src/pages/dashboard/support.jsx:24-33 | the whitespace set that `trim` strips and `\S` excludes; `BlankIffAllSpace` and `EmailPatternIsRegex` state what the form's checks decide with it |
| Support.TrimStart | frontend/src/pages/dashboard/support.jsx:24-26 | drops the leading whitespace; `TrimStartSpec` states that a suffix starting with a non-space remains and only whitespace is dropped |
| Support.TrimEnd | frontend/src/pages/dashboard/support.jsx:24-26 | drops the trailing whitespace; `TrimEndSpec` states that a prefix ending with a non-space remains and only whitespace is dropped |
| Support.Trim | frontend/src/pages/dashboard/support.jsx:24-26 | JavaScript's `trim`: whitespace dropped from both ends; `TrimStartSpec` and `TrimEndSpec` state what each half keeps |
| Support.IsBlank | frontend/src/pages/dashboard/support.jsx:24-26 | `!s.trim()`: the trimmed field is empty; `BlankIffAllSpace` states it is the same as holding only whitespace |
| Support.HasBlankField | frontend/src/pages/dashboard/support.jsx:23-27 | some form field is blank; `SupportPage.HandleSubmit` states that this alone sets "Please fill all fields." |
| Support.TrimStartSpec | frontend/src/pages/dashboard/support.jsx:24-26 | trimming the front leaves a suffix that starts with a non-space and drops only whitespace |
| Support.TrimEndSpec | frontend/src/pages/dashboard/support.jsx:24-26 | trimming the end leaves a prefix that ends with a non-space and drops only whitespace |
| Support.BlankIffAllSpace | frontend/src/pages/dashboard/support.jsx:23-30 | a field is empty after trimming exactly when it holds only whitespace |
| Support.MatchesEmailPattern | frontend/src/pages/dashboard/support.jsx:33 | the address check `HandleSubmit` runs: an '@' with a non-space before it and a later '.' with a non-space after it, with at least one character between them and no whitespace there; `EmailPatternIsRegex` states it equals the regular expression |
| Support.WitnessGivesRegexMatch | frontend/src/pages/dashboard/support.jsx:33 | witnesses of the compiled check give a substring that `\S+@\S+\.\S+` matches whole |
| Support.RegexMatchGivesWitness | frontend/src/pages/dashboard/support.jsx:33 | a substring the pattern matches whole gives witnesses of the compiled check |
| Support.EmailPatternIsRegex | frontend/src/pages/dashboard/support.jsx:33 | the compiled check accepts exactly the strings in which some substring matches the pattern |
| Support.PatternUnanchored | frontend/src/pages/dashboard/support.jsx:33 | text before and after an accepted address keeps it accepted |
| Support.EmailPatternExamples | frontend/src/pages/dashboard/support.jsx:33 | "a@b.com" is accepted; "a@b", "@b.com" and "a@.c" are refused |
| Support.WithFormField | frontend/src/pages/dashboard/support.jsx:13-15 | the named form field gets the value and the other two are unchanged |
| Support.SupportPage.constructor | frontend/src/pages/dashboard/support.jsx:4-11 | no tickets, an empty form and no messages |
| Support.SupportPage.HandleChange | frontend/src/pages/dashboard/support.jsx:13-15 | the form field is set; tickets and messages are unchanged |
| Support.SupportPage.HandleSubmit | frontend/src/pages/dashboard/support.jsx:17-57 | both messages are cleared first; a blank field sets "Please fill all fields." and wins over the address check; a refused address sets "Please enter a valid email address."; either failure leaves tickets and form alone with no success message; otherwise one open ticket with the fields as typed is prepended to the old tickets, the form is reset and the success message set |
| Support.SubmitTwice | frontend/src/pages/dashboard/support.jsx:17-53 | submitting an acceptable form gives exactly one ticket, and submitting again at once is refused as incomplete because the form was reset |

## Left out

- Rendering, styling and the print feature (`window.open`, `document.write`) are not modelled. The print page and the lists show "No upcoming/past bookings." when a partition is empty; when that happens follows from the membership clauses of `Upcoming` and `Past`, and is not stated separately.
- The auth store (`checkAuth`, `login`, `logout`, the `useEffect` that starts the check): an asynchronous network collaborator. The session is an input.
- Clocks and locale text: `Date.now()`, `new Date()`, `toLocaleString` and `formatDate`. The current time and the ticket id are integers and the creation time is a string, all supplied by the caller. The sample booking dates are the ISO local times read as UTC.
- `URL.createObjectURL`: picture references are opaque strings supplied by the caller.
- Router internals are not modelled: path normalisation, trailing slashes, case-insensitive matching, route ranking, `useParams`, `Outlet`, and the history handling of `Navigate` (`replace`). The model follows a redirect by resolving its target path again. The lookup is first match over patterns that never overlap, so it picks the route react-router ranks first. The `:token` value is not passed to the page.
- ProfileEditor.OpenSlotLabels: the preview lists entries in `Object.entries` order; the model gives the labels as a set.
- handleChange with a `name` other than the page's inputs, which would add a new key to the record: only the five profile inputs and the three form inputs are modelled.
- ProfileEditor.ProfilePage.HandleServiceChange: the source copies the list but mutates the shared row object in place. The new state agrees with the model, but the mutation also reaches the previous state's row, which nobody reads afterwards; that aliasing is not modelled.
- React's snapshot semantics are not modelled: batching of state updates and handlers that read a stale `profile`, as handleServiceChange and removeService do.
- ProfileEditor.OpenSlotListed: stated for schedules whose keys all come from the grid, which is every schedule the page can produce; `ToggleKeepsGridKeys` proves toggling keeps that true.
- ProfileEditor.OpenSlotPreview: stated for schedules whose keys all come from the grid, for the same reason.
- Routes.GuardsComplementary: stated for well-formed sessions; with an authenticated session and no user, both guards crash, as `ProtectedRouteOutcomes` and `RedirectAuthenticatedUserOutcomes` state.
- Strings are sequences of Unicode scalar values; JavaScript strings are UTF-16 code units, and trimming and `\S` agree on the whitespace set used here.
- Header, Footer, Input, main, DashboardHome's `isActive` test and the mail-sending wrappers are layout or foreign calls; they are not part of this model.
- `console.log` of the new ticket is not modelled.
