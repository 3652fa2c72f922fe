# Born Angel booking client — decision logic in Dafny

Born Angel is a studio booking platform. Its web client is a React application. Customers browse
classes, book and pay for them, and review them afterwards. Instructors see their classes and
reviews. Administrators manage users, services, instructors, schedules and bookings, and a super
administrator also manages the administrator accounts.

Most of the client is markup and HTTP calls. This project models the part that decides things:
- the pagination window;
- the session and the role checks;
- the route guards, the route table and the role-based redirects;
- the filters, sorts and counts each page computes over a fetched list;
- the small state machines of the forms and confirmation dialogs;
- the shared helpers: duration text, payment status, truncation, initials, and the e-mail and
  phone validators.

Conventions of the model:
- Instants are integers in milliseconds. `now` and the start of today are parameters.
- A time stamp that is absent (`undefined`) or unparsable is `None`. It stands for JavaScript's
  invalid date, so every comparison with it is false (`Records.AtOrAfter` and its siblings).
- A field the back end sends as JSON `null` is passed to the model as `Some(0)`: `new Date(null)`
  is the valid instant 0, and `null` in arithmetic (`capacity - null`) counts as 0.
- A relation the back end may omit (`service`, `instructor.user`, `schedule`, `review`) is an
  `Option`.
- Case-insensitive search is ASCII lower-casing plus a substring test (`Text.MatchesTerm`).
- A list filter is `Seqs.Filter`. Each page proves three things about its filter: the result is
  an order-preserving subsequence of the input, every kept element passes the page's test, and
  every passing element is kept.
- A sort is the stable insertion sort `Seqs.SortByKey`, proved sorted and a permutation of its
  input.
- Where the source mutates state, the model is a class whose methods say what every field
  becomes: `AuthProvider`, `AdminsPage`, `UsersPage`, `HistoryPage`, `BookingsTabs`,
  `BrowseFilters`, `ScheduleForm` and `BookingPage`.
- The page-number loop of the pagination bar is a method with loop invariants, proved against a
  function (`Pagination.Render`).
- The booking history narrows its list by reassigning it through up to three `.filter` calls.
  The model is a method with the same straight-line reassignments, proved equal to one filter
  by the combined test (`UserHistory.FilteredBookings`).
- The two in-place sorts are array methods proved equal to `Seqs.SortByKey`:
  - the bookings page sorts its fetched array in place (`MyBookings.SortNewestFirst`);
  - the instructor dashboard sorts a copy of its reviews (`InstructorDashboard.SortedReviews`).

Behaviour of the code that the proofs make explicit:
- A booking whose class ends exactly at `now` is listed under the bookings page's 'finished'
  tab but badged "Scheduled" (`MyBookings.BadgeAgreesWithTabs`). The tab tests `end <= now`;
  the badge tests `end < now`.
- The dashboard's "Confirmed" counter counts every confirmed booking, including finished ones,
  but links to the 'confirmed' tab, which lists only those not yet ended. The counter is at
  least the tab's length (`UserDashboard.CountersMatchTabs`). Exactly, it is the 'confirmed'
  tab plus the 'finished' tab plus the confirmed bookings without a valid end
  (`UserDashboard.ConfirmedCounterValue`).
- The instructor dashboard counts a class as upcoming only if it starts strictly after `now`,
  but lists it under 'upcoming' if it starts at or after `now`
  (`InstructorDashboard.UpcomingCounterWithinList`). The list is longer than the counter by
  exactly the classes starting at `now` (`InstructorDashboard.UpcomingCounterValue`).
- The 'this-week' and 'next-week' buckets of the class browser share one instant: exactly seven
  days after the start of today (`BrowseClasses.WeeksOverlapAtOneInstant`).
- Logging out clears the stored token even when the server call fails. In that case the
  exception skips the provider's `setUser(null)`, so the user stays in state, unauthenticated
  (`Auth.AuthProvider.Logout`).
- The schedule form labels a service by its `duration` field but computes the end time from
  `duration_minutes` (`CreateSchedule.ServiceTitle`, `CreateSchedule.EndFor`).
- A service without `duration_minutes` makes the end NaN, and formatting it throws. Choosing
  such a service still sets it but leaves the end; typing a start then stores nothing, not even
  the start (`CreateSchedule.ScheduleForm.ServiceChanged`, `StartTimeChanged`).
- The form does not reject an empty start time: the resulting invalid date is not before `now`
  (`CreateSchedule.ScheduleForm.Submit`).
- A duration of 0 or a service id of 0 is falsy in JavaScript. Such a service gets no
  "(N mins)" label, and choosing it does not narrow the instructor list.

## Model

| member | source | states |
|---|---|---|
| Pagination.View | src/components/Pagination.jsx:5-79 | no view at all exactly when the total is missing or zero |
| Pagination.Render | src/components/Pagination.jsx:7-79 | the imperative window computation and page loop produce exactly the view the specification function describes |
| Pagination.Range | src/components/Pagination.jsx:16-18 | the loop's output: `max(0, hi-lo+1)` numbers, the i-th being `lo+i` |
| Pagination.Buttons | src/components/Pagination.jsx:47-58 | one button per page in order, highlighted exactly when it is the current page |
| Pagination.PagesInBounds | src/components/Pagination.jsx:9-18 | every page button lies in `[1, lastPage]` |
| Pagination.PagesAscending | src/components/Pagination.jsx:16-18 | the page run is strictly ascending |
| Pagination.PagesLength | src/components/Pagination.jsx:7-18 | for `1 <= current <= last` the run has `min(5, last)` pages |
| Pagination.PagesContainCurrent | src/components/Pagination.jsx:9-14 | the current page is in the run |
| Pagination.ExactlyOneHighlighted | src/components/Pagination.jsx:47-58 | exactly one button is highlighted |
| Pagination.FirstPageShownOnce | src/components/Pagination.jsx:35-45 | the page-1 shortcut shows only when page 1 is not in the run, and the ellipsis only when a gap remains |
| Pagination.LastPageShownOnce | src/components/Pagination.jsx:61-71 | the last-page shortcut shows only when the last page is not in the run, and the ellipsis only when a gap remains |
| Pagination.ArrowsStayInRange | src/components/Pagination.jsx:27-79 | prev is disabled only on page 1 and next only on the last page; an enabled arrow requests the neighbouring page, within `[1, lastPage]` |
| Pagination.WindowExamples | src/components/Pagination.jsx:7-18 | (1,10) gives 1..5, (5,10) gives 3..7, (10,10) gives 6..10, (2,3) gives 1..3 |
| Helpers.TruncMod | src/utils/helpers.js:68 | JavaScript's `%`: for a non-negative dividend the usual remainder in [0, b); for a negative one a value in (-b, 0]; in both cases the dividend minus it is a multiple of b |
| Helpers.FormatDuration | src/utils/helpers.js:66-73 | under an hour gives "r menit", a whole number of hours gives "h jam", otherwise "h jam r menit"; a negative count gives the texts JavaScript's truncating `/` and signed `%` produce |
| Helpers.ParseFormatDuration | src/utils/helpers.js:66-73 | reading the text back gives the original number of minutes, so the three shapes never collide |
| Helpers.HasRole | src/utils/helpers.js:81-86 | with a list of roles it is membership, with a single role it is equality |
| Helpers.HasRoleSingleAsList | src/utils/helpers.js:81-86 | a single role behaves as the one-element list |
| Helpers.IsAdminRole | src/utils/helpers.js:93-95 | true exactly for 'admin' and 'super_admin' |
| Helpers.IsAdminIsHasRole | src/utils/helpers.js:93-95 | the admin check is role membership in [admin, super_admin] |
| Helpers.StatusColor | src/utils/helpers.js:102-113 | the five known statuses get their colours, anything else gray |
| Helpers.PaymentStatus | src/utils/helpers.js:120-130 | always pending, paid or failed: capture/settlement paid, deny/expire/cancel failed, anything else pending |
| Helpers.PaymentStatusColor | src/utils/helpers.js:102-130 | the colour of a mapped payment status is green, red or the pending colour, never gray |
| Helpers.TruncateText | src/utils/helpers.js:138-142 | missing or empty text gives ""; text within the limit is unchanged; longer text is its first `max` characters plus "..." |
| Helpers.TruncateTextBounded | src/utils/helpers.js:138-142 | the result is never longer than `max + 3`, and its first min(`max`, length) characters are those of the input |
| Helpers.FirstLettersAreWordStarts | src/utils/helpers.js:171-174 | the first letters of the space-split words are the characters that follow a space or begin the text |
| Helpers.GetInitials | src/utils/helpers.js:169-177 | at most two characters, none lower-case: the upper-cased word starts, cut to two |
| Helpers.IsValidEmailCorrect | src/utils/helpers.js:149-152 | the validator accepts exactly the strings of the shape `a@b.c` with non-empty parts free of white space and '@' |
| Helpers.IsValidPhoneCorrect | src/utils/helpers.js:159-162 | the validator accepts exactly '+62', '62' or '0' followed by 9 to 12 digits |
| Auth.IsAuthenticated | src/contexts/AuthContext.jsx:76-78 | authenticated exactly when a user is in state and a token is stored |
| Auth.HasRole | src/contexts/AuthContext.jsx:81-87 | false without a user; otherwise membership for a list and equality for a single role |
| Auth.IsAdmin | src/contexts/AuthContext.jsx:90-92 | a user whose role is admin or super_admin |
| Auth.IsSuperAdmin | src/contexts/AuthContext.jsx:95-97 | a user whose role is super_admin |
| Auth.IsInstructor | src/contexts/AuthContext.jsx:100-102 | a user whose role is instructor |
| Auth.IsUser | src/contexts/AuthContext.jsx:105-107 | a user whose role is user |
| Auth.SuperAdminIsAdmin | src/contexts/AuthContext.jsx:90-97 | a super administrator passes the admin check |
| Auth.RoleChecksExclusive | src/contexts/AuthContext.jsx:90-107 | super admin, instructor and user are pairwise exclusive, and an admin is neither instructor nor user |
| Auth.RoleChecksAreHasRole | src/contexts/AuthContext.jsx:81-107 | each role check is `hasRole` with its role or roles |
| Auth.AuthProvider.constructor | src/contexts/AuthContext.jsx:8-9 | the provider starts loading with no user |
| Auth.AuthProvider.Init | src/contexts/AuthContext.jsx:12-28 | a stored user is restored, otherwise the user is unchanged; loading ends either way |
| Auth.AuthProvider.ForceLogout | src/contexts/AuthContext.jsx:32-37 | token, stored user and user are cleared, the browser goes to /login, and the session is no longer authenticated |
| Auth.AuthProvider.Login | src/contexts/AuthContext.jsx:44-48 | a successful sign-in stores the token and user and sets the user; a failed one changes nothing |
| Auth.AuthProvider.Logout | src/contexts/AuthContext.jsx:57-60 | the token is cleared even when the server fails, so the session is unauthenticated; the user is cleared only on success |
| Auth.AuthProvider.DeleteAccount | src/contexts/AuthContext.jsx:63-66 | on success the user and stored data are cleared; on failure nothing changes |
| Auth.AuthProvider.UpdateProfile | src/contexts/AuthContext.jsx:69-73 | on success the returned user replaces the user in state and storage |
| Auth.LoginAuthenticates | src/contexts/AuthContext.jsx:44-78 | after `AuthProvider.Login` with a non-empty token, whatever the prior state, the provider's session is authenticated and the admin check follows the returned role |
| Routes.ProtectedRoute | src/routes/ProtectedRoute.jsx:13-25 | spinner while loading; without an authenticated session, /login remembering the location; otherwise the page |
| Routes.RoleFallback | src/routes/RoleRoute.jsx:26-36 | super_admin and admin go to /admin/dashboard, instructor and user to their dashboards, any other role to / |
| Routes.RoleRoute | src/routes/RoleRoute.jsx:11-39 | spinner while loading; /login without a user; the role's fallback for a role not allowed; otherwise the page |
| Routes.DashboardTarget | src/routes/AppRoutes.jsx:63-74 | each known role's own dashboard; / for any other role |
| Routes.DashboardRedirect | src/routes/AppRoutes.jsx:56-75 | always a redirect: /login without a user, the role's dashboard otherwise |
| Routes.Match | src/routes/AppRoutes.jsx:84-409 | a found route fits the path, and no route fits when none is found |
| Routes.ResolveIsFirstMatch | src/routes/AppRoutes.jsx:84-404 | looking the path up group by group is taking the first fitting route of the whole table |
| Routes.Navigate | src/routes/AppRoutes.jsx:84-409 | the path is matched ignoring ASCII case; an unmatched path redirects to /, a public route renders, and a redirect to sign in carries the path asked for |
| Routes.FitsFolded | src/routes/AppRoutes.jsx:84-409 | against a lower-case pattern, fitting while ignoring case is the same as fitting the lower-cased path |
| Routes.TableLowerCase | src/routes/AppRoutes.jsx:84-409 | every pattern of the route table is lower case, so the folded lookup is React Router's case-insensitive one |
| Routes.CaseDoesNotMatter | src/routes/AppRoutes.jsx:84-409 | two paths that differ only in case get the same decision, up to the path a sign-in redirect carries |
| Routes.CapitalisedLoginRenders | src/routes/AppRoutes.jsx:84-86 | /Login renders the sign-in page, as /login does |
| Routes.HomeIsOpen | src/routes/AppRoutes.jsx:84 | / is a public page |
| Routes.LoginIsOpen | src/routes/AppRoutes.jsx:93 | /login is a public page |
| Routes.DashboardIsRedirect | src/routes/AppRoutes.jsx:97-104 | /dashboard is the dashboard redirect behind the authentication guard |
| Routes.UserArea | src/routes/AppRoutes.jsx:109-178 | every route under /user admits only user |
| Routes.InstructorArea | src/routes/AppRoutes.jsx:183-202 | every route under /instructor admits only instructor |
| Routes.SuperAdminArea | src/routes/AppRoutes.jsx:209-218 | /super-admin/dashboard admits only super_admin |
| Routes.AdminAccountsArea | src/routes/AppRoutes.jsx:235-264 | every /admin/admins route admits only super_admin |
| Routes.AdminArea | src/routes/AppRoutes.jsx:221-404 | every other /admin route admits exactly admin and super_admin |
| Routes.ManagementPage | src/routes/AppRoutes.jsx:267-404 | the users, services, instructors, schedules and bookings lists admit admin and super_admin |
| Routes.AccountsPage | src/routes/AppRoutes.jsx:235-244 | /admin/admins admits only super_admin |
| Routes.Dashboards | src/routes/AppRoutes.jsx:109-232 | each dashboard route admits exactly its roles |
| Routes.LandingAdmitsRole | src/routes/RoleRoute.jsx:26-36 | for each known role, both the fallback and the dashboard redirect lead to a route that admits that role |
| Routes.GuardedPagesNeedSession | src/routes/AppRoutes.jsx:97-404 | every non-public route shows a spinner while loading and sends an unauthenticated visitor to /login, remembering the path |
| Routes.NoBounce | src/routes/RoleRoute.jsx:26-36 | for a signed-in known role, wherever a visit redirects, the target renders |
| Routes.AfterLogin | src/pages/auth/LoginPage.jsx:27-28 | the sign-in page continues to the remembered page, or to /dashboard |
| Routes.LoginRoundTrip | src/pages/auth/LoginPage.jsx:27-28 | a guarded page sends a visitor to sign in; once signed in with an allowed role, the sign-in page returns there and it renders |
| Routes.LoginWithoutOrigin | src/pages/auth/LoginPage.jsx:27-28 | without a remembered page, /dashboard sends a known role to its own dashboard, which renders |
| Layouts.LayoutGuard | src/components/layout/AdminLayout.jsx:10-23 | spinner exactly while loading; the layout exactly for an allowed role; otherwise /login |
| Layouts.AdminLayout | src/components/layout/AdminLayout.jsx:10-35 | renders exactly for admin and super_admin; any other case goes to /login |
| Layouts.UserLayout | src/components/layout/UserLayout.jsx:10-36 | renders exactly for user; any other case goes to /login |
| Layouts.InstructorLayout | src/components/layout/InstructorLayout.jsx:13-23 | renders exactly for instructor; any other case goes to /login |
| Layouts.LayoutsAgreeWithRoleGuards | src/components/layout/AdminLayout.jsx:19-21 | each layout renders exactly when the role guard with the same roles renders |
| Layouts.ActiveLinks | src/components/layout/InstructorLayout.jsx:59-60 | a navigation entry is active exactly when the path equals its target |
| Layouts.AtMostOneActive | src/components/layout/InstructorLayout.jsx:59-60 | with distinct targets at most one entry is active |
| Layouts.InstructorDashboardHighlight | src/components/layout/InstructorLayout.jsx:25-60 | the Dashboard entry is active on /instructor/dashboard only, not on /instructor/schedules |
| Layouts.MenuItems | src/components/layout/AdminSidebar.jsx:20-39 | Dashboard first, aimed at the viewer's own dashboard; Manage Admins present exactly for super_admin; the five sections last; 7 items or 6 |
| Layouts.SectionItemsAdmitAdmins | src/components/layout/AdminSidebar.jsx:34-38 | each section entry resolves to a route for admin and super_admin |
| Layouts.MenuAdmitsViewer | src/components/layout/AdminSidebar.jsx:22-39 | every menu entry leads to a route that admits the viewer's role |
| Records.TimeSplit | src/pages/admin/schedules/SchedulesListPage.jsx:77-85 | a valid instant is on exactly one side of `now`; an invalid one is on neither |
| Records.TimeFiltersSplit | src/pages/admin/schedules/SchedulesListPage.jsx:77-85 | 'upcoming' and 'past' split valid starts, miss invalid ones, and any other value keeps everything |
| Records.SearchPeople | src/pages/admin/admins/AdminsListPage.jsx:50-53 | the accounts whose name or e-mail contains the term, ignoring case, in order |
| Records.EmptySearchShowsEveryone | src/pages/admin/users/UsersListPage.jsx:63-66 | the empty search lists every account in order |
| Records.IdSelectedById | src/pages/admin/schedules/SchedulesListPage.jsx:74 | comparing a numeric selection as text is comparing the ids |
| SchedulesList.Filtered | src/pages/admin/schedules/SchedulesListPage.jsx:67-88 | the schedules matching search, service and time, in fetched order |
| SchedulesList.InitialShowsUpcoming | src/pages/admin/schedules/SchedulesListPage.jsx:18-88 | with the initial filters a schedule is listed iff it starts at or after `now` and has a service or instructor name; one with neither is never found |
| SchedulesList.UpcomingAndPastSplitAll | src/pages/admin/schedules/SchedulesListPage.jsx:77-85 | for valid starts, 'upcoming' and 'past' partition the 'all' result |
| SchedulesList.Occupied | src/pages/admin/schedules/SchedulesListPage.jsx:181-183 | taken plus remaining seats is the capacity, missing values read as 0 |
| SchedulesList.SeatsConsistent | src/pages/admin/schedules/SchedulesListPage.jsx:181-222 | "Available" shows exactly while seats are free; without a remaining count the class shows full |
| BookingsList.Filtered | src/pages/admin/bookings/BookingsListPage.jsx:66-76 | the bookings matching search, status and service, in fetched order |
| BookingsList.NarrowingNeverEnlarges | src/pages/admin/bookings/BookingsListPage.jsx:72-75 | narrowing status or service from 'all' keeps a subsequence of the wider result |
| BookingsList.StatusColor | src/pages/admin/bookings/BookingsListPage.jsx:78-85 | confirmed, pending and cancelled get their colours, anything else gray |
| BookingsList.StatusColorsDistinct | src/pages/admin/bookings/BookingsListPage.jsx:78-85 | the three known statuses get three different non-gray colours |
| BookingsList.CanCancel | src/pages/admin/bookings/BookingsListPage.jsx:199 | the cancel button shows exactly on the rows whose badge is not the cancelled (red) one |
| InstructorsList.Filtered | src/pages/admin/instructors/InstructorsListPage.jsx:64-72 | the instructors matching search and service, in fetched order |
| InstructorsList.UnassignedOnlyUnderAll | src/pages/admin/instructors/InstructorsListPage.jsx:69-71 | an instructor without a service is listed only under the 'all' service filter |
| InstructorsList.SpecialisationLabel | src/pages/admin/instructors/InstructorsListPage.jsx:162 | the service name when it is non-empty; 'Unassigned' without a service or with an empty name |
| ServicesList.Filtered | src/pages/admin/services/ServicesListPage.jsx:56-58 | the services whose name contains the term ignoring case, in order |
| ServicesList.EmptySearchKeepsAll | src/pages/admin/services/ServicesListPage.jsx:57 | the empty term keeps every service |
| ServicesList.SearchIdempotent | src/pages/admin/services/ServicesListPage.jsx:56-58 | filtering twice by the same term is filtering once |
| ServicesList.SearchIgnoresCase | src/pages/admin/services/ServicesListPage.jsx:57 | an upper-cased term finds the same services |
| AdminsList.Administrators | src/pages/admin/admins/AdminsListPage.jsx:25-26 | exactly the admin and super_admin accounts of the listing, envelope or bare, in order |
| AdminsList.WithoutId | src/pages/admin/admins/AdminsListPage.jsx:40 | no entry with the id remains and every other entry remains, in order |
| AdminsList.EmptyTitle | src/pages/admin/admins/AdminsListPage.jsx:96-98 | 'No admins found' for a search, 'No admins yet' otherwise |
| AdminsList.OffersCreate | src/pages/admin/admins/AdminsListPage.jsx:102-110 | the create link is offered exactly when the empty state reads 'No admins yet' |
| AdminsList.RoleBadge | src/pages/admin/admins/AdminsListPage.jsx:143-148 | 'Super Admin' exactly for super_admin, 'Admin' otherwise |
| AdminsList.AdminsPage.constructor | src/pages/admin/admins/AdminsListPage.jsx:12-15 | no administrators, an empty search and no pending delete |
| AdminsList.AdminsPage.Shown | src/pages/admin/admins/AdminsListPage.jsx:50-53 | the loaded administrators matching the search, in order |
| AdminsList.AdminsPage.Loaded | src/pages/admin/admins/AdminsListPage.jsx:25-27 | the page holds the listing's administrators |
| AdminsList.AdminsPage.AskDelete | src/pages/admin/admins/AdminsListPage.jsx:36-38 | the account awaiting deletion is recorded |
| AdminsList.AdminsPage.HandleDelete | src/pages/admin/admins/AdminsListPage.jsx:36-48 | a successful delete removes exactly that id; a failed one keeps the list; the pending id is cleared either way; only administrators remain |
| UsersList.UsersPage.Shown | src/pages/admin/users/UsersListPage.jsx:63-66 | exactly the loaded users matching the search, in order |
| UsersList.UsersPage.constructor | src/pages/admin/users/UsersListPage.jsx:11-15 | no users, an empty search, the dialog closed and nobody selected |
| UsersList.UsersPage.ConfirmDelete | src/pages/admin/users/UsersListPage.jsx:42-45 | the user is selected and the dialog shown |
| UsersList.UsersPage.HandleDelete | src/pages/admin/users/UsersListPage.jsx:47-60 | nothing happens without a selection; success closes the dialog and clears the selection; failure leaves both |
| UsersList.UsersPage.Cancel | src/pages/admin/users/UsersListPage.jsx:193 | the dialog closes but the selection stays |
| UserHistory.FilteredBookings | src/pages/admin/users/UserHistoryPage.jsx:65-86 | the step-by-step filter equals the bookings with a schedule, the chosen class and the chosen time, in order |
| UserHistory.UpcomingAndPastSplit | src/pages/admin/users/UserHistoryPage.jsx:77-83 | for valid starts, 'upcoming' and 'past' partition the 'all' result |
| UserHistory.OtherTimeFilterIsPast | src/pages/admin/users/UserHistoryPage.jsx:81 | any time filter other than 'all' and 'upcoming' acts as 'past' |
| UserHistory.Reviews | src/pages/admin/users/UserHistoryPage.jsx:88-98 | one entry per booking with a review, schedule, service, instructor and instructor user, carrying their fields |
| UserHistory.BookedClasses | src/pages/admin/users/UserHistoryPage.jsx:101-103 | every class is drawn from a booking that has a service, and every such booking's class is there |
| UserHistory.ReviewsInBookingOrder | src/pages/admin/users/UserHistoryPage.jsx:88-98 | the reviews tab is exactly the reviewable bookings' entries, one each, in booking order |
| UserHistory.BookedClassesInBookingOrder | src/pages/admin/users/UserHistoryPage.jsx:101-103 | the class options are exactly the classes of the bookings with a service, one each, in booking order |
| UserHistory.UniqueClasses | src/pages/admin/users/UserHistoryPage.jsx:101-104 | the same classes, each once |
| UserHistory.ClassOptions | src/pages/admin/users/UserHistoryPage.jsx:106-109 | 'All Classes' first, then one option per unique class valued by its id as text |
| UserHistory.ClassOptionsNeverEmpty | src/pages/admin/users/UserHistoryPage.jsx:72-109 | choosing any offered class lists at least one booking |
| UserHistory.WithoutReview | src/pages/admin/users/UserHistoryPage.jsx:49 | same length; the review is removed exactly on bookings whose review has the id |
| UserHistory.ReviewsAfterDelete | src/pages/admin/users/UserHistoryPage.jsx:49-98 | after the delete the review list is the old one minus that review |
| UserHistory.HistoryPage.constructor | src/pages/admin/users/UserHistoryPage.jsx:18-33 | the fetched bookings, no review awaiting deletion |
| UserHistory.HistoryPage.AskDelete | src/pages/admin/users/UserHistoryPage.jsx:276 | the review awaiting deletion is recorded, the bookings unchanged |
| UserHistory.HistoryPage.HandleDeleteReview | src/pages/admin/users/UserHistoryPage.jsx:45-55 | success removes that review from the bookings; failure keeps them; the pending id is cleared either way |
| MyBookings.PageItems | src/pages/user/MyBookingsPage.jsx:47 | the page's items, or none when the response has none |
| MyBookings.SortNewestFirst | src/pages/user/MyBookingsPage.jsx:48 | the in-place sort leaves the array ordered by the newest-first key |
| MyBookings.NewestFirstOrder | src/pages/user/MyBookingsPage.jsx:48 | that order is a permutation with valid starts descending |
| MyBookings.Filtered | src/pages/user/MyBookingsPage.jsx:117-124 | the bookings in the tab, in order |
| MyBookings.UnknownTabListsAll | src/pages/user/MyBookingsPage.jsx:118-123 | 'all' and any unknown tab list every booking |
| MyBookings.ConfirmedAndFinishedSplit | src/pages/user/MyBookingsPage.jsx:120-121 | 'confirmed' and 'finished' partition the confirmed bookings that have an end time |
| MyBookings.StatusBadge | src/pages/user/MyBookingsPage.jsx:126-143 | Cancelled, Waiting Payment, Completed (ended before now), Scheduled (other confirmed) or none, each exactly in its case |
| MyBookings.BadgeAgreesWithTabs | src/pages/user/MyBookingsPage.jsx:120-141 | the 'confirmed' tab shows Scheduled, Completed ones are 'finished', and at end == now a finished booking is badged Scheduled |
| MyBookings.ActionsFollowBadge | src/pages/user/MyBookingsPage.jsx:248-263 | Pay exactly on Waiting Payment, Review only on Completed, Cancel never on Cancelled, never Pay with Review |
| MyBookings.BookingsTabs.constructor | src/pages/user/MyBookingsPage.jsx:29 | the tab starts from the query's filter, or 'all' |
| MyBookings.BookingsTabs.AddressChanged | src/pages/user/MyBookingsPage.jsx:36-41 | a non-empty query filter replaces the tab; an absent one leaves it |
| MyBookings.BookingsTabs.ChangeTab | src/pages/user/MyBookingsPage.jsx:145-148 | the tab and the query both become the chosen filter |
| MyBookings.BookingsTabs.AskCancel | src/pages/user/MyBookingsPage.jsx:265 | the booking awaiting cancellation is recorded |
| MyBookings.BookingsTabs.CancelFinished | src/pages/user/MyBookingsPage.jsx:64-74 | the pending cancellation is cleared, success or failure |
| MyBookings.TabRoundTrip | src/pages/user/MyBookingsPage.jsx:29-148 | choosing a non-empty tab writes the query; reading the query back, or reopening the page from it, shows the same tab |
| BrowseClasses.TodayWithinThisWeek | src/pages/user/BrowseClassesPage.jsx:76-86 | a class shown under 'today' is shown under 'this-week' |
| BrowseClasses.InDateRange | src/pages/user/BrowseClassesPage.jsx:71-96 | 'today' is [midnight, midnight + one day), 'this-week' [midnight, midnight + 7 days], 'next-week' [midnight + 7 days, midnight + 14 days]; a missing start is in none; any other value keeps everything |
| BrowseClasses.Shown | src/pages/user/BrowseClassesPage.jsx:65-96 | under 'all' classes a class is shown exactly when its start is in the date range; a shown class is always in range |
| BrowseClasses.ShownById | src/pages/user/BrowseClassesPage.jsx:67-69 | a numeric class choice shows exactly the schedules of that service id in the date range |
| BrowseClasses.ListedExactlyWhenShown | src/pages/user/BrowseClassesPage.jsx:64-104 | a class is listed exactly when it was fetched and passes both filters, whatever the sort |
| BrowseClasses.WeeksOverlapAtOneInstant | src/pages/user/BrowseClassesPage.jsx:82-94 | the two week buckets share exactly the instant seven days after the start of today |
| BrowseClasses.OtherDateFilterKeepsAll | src/pages/user/BrowseClassesPage.jsx:96 | 'all' or any other date value keeps the class, past ones included |
| BrowseClasses.Listing | src/pages/user/BrowseClassesPage.jsx:64-104 | a permutation of the filtered classes, sorted by the chosen order's key |
| BrowseClasses.ListingStable | src/pages/user/BrowseClassesPage.jsx:89-104 | classes sharing a sort key keep their fetched order |
| BrowseClasses.StartOrders | src/pages/user/BrowseClassesPage.jsx:99-100 | 'soonest' lists valid starts ascending, 'latest' descending |
| BrowseClasses.PriceOrders | src/pages/user/BrowseClassesPage.jsx:101-102 | 'price-low' lists known prices ascending, 'price-high' descending |
| BrowseClasses.UnknownOrderKeepsOrder | src/pages/user/BrowseClassesPage.jsx:103 | an unknown order leaves the filtered classes in fetched order |
| BrowseClasses.BrowseFilters.constructor | src/pages/user/BrowseClassesPage.jsx:31-33 | service 'all', date 'all', order 'soonest' |
| BrowseClasses.BrowseFilters.Choose | src/pages/user/BrowseClassesPage.jsx:31-33 | the three selections take the chosen values |
| BrowseClasses.BrowseFilters.Reset | src/pages/user/BrowseClassesPage.jsx:253-257 | the filters return to service 'all', date 'all', order 'soonest' |
| BrowseClasses.DefaultListsEverything | src/pages/user/BrowseClassesPage.jsx:31-104 | the default filters list every class |
| UserDashboard.FetchedBookings | src/pages/user/DashboardPage.jsx:29-30 | the response's list, or none when it is missing or not a list |
| UserDashboard.NextClass | src/pages/user/DashboardPage.jsx:42-44 | none exactly when no confirmed class starts after `now`; otherwise such a booking with the earliest start, the first of them in fetched order |
| UserDashboard.FirstEarliest | src/pages/user/DashboardPage.jsx:42-44 | the head of the stably sorted upcoming list is an upcoming booking of the fetched list, and every upcoming booking fetched before it starts strictly later |
| UserDashboard.PendingReviews | src/pages/user/DashboardPage.jsx:46-50 | exactly the confirmed bookings ended before `now` without a review, in order |
| UserDashboard.ShownReviews | src/pages/user/DashboardPage.jsx:188 | the first two waiting reviews, or all if fewer |
| UserDashboard.ViewAllIffCardsTruncate | src/pages/user/DashboardPage.jsx:188-207 | the "view all" link appears exactly when some waiting review is not shown |
| UserDashboard.PendingReviewsAreFinished | src/pages/user/DashboardPage.jsx:46-50 | every waiting review is a Completed booking listed under 'finished' |
| UserDashboard.Counters | src/pages/user/DashboardPage.jsx:52-74 | Total is the booking count, and Need Payment plus Confirmed never exceed it |
| UserDashboard.CountersMatchTabs | src/pages/user/DashboardPage.jsx:58-72 | Total and Need Payment equal the tabs they link to; Confirmed is at least the 'confirmed' tab |
| UserDashboard.ConfirmedCounterValue | src/pages/user/DashboardPage.jsx:58-72 | Confirmed is the 'confirmed' tab plus the 'finished' tab plus the confirmed bookings without a valid end |
| InstructorDashboard.FilteredSchedules | src/pages/instructor/DashboardPage.jsx:69-77 | 'all' returns the schedules unchanged; otherwise those in the time window, in order |
| InstructorDashboard.BadgesFollowFilter | src/pages/instructor/DashboardPage.jsx:75-198 | no 'upcoming' card is badged Completed and every 'past' card is |
| InstructorDashboard.Booked | src/pages/instructor/DashboardPage.jsx:190 | booked plus remaining is the capacity; no number when either is missing |
| InstructorDashboard.BookedAgreesWithScheduleList | src/pages/instructor/DashboardPage.jsx:190 | with both numbers present it is the schedule list's occupied count |
| InstructorDashboard.Counters | src/pages/instructor/DashboardPage.jsx:44-54 | classes and reviews are the list lengths, upcoming never exceeds classes, there is no average without reviews, and the average's sum is the sum of the ratings |
| InstructorDashboard.UpcomingCounterValue | src/pages/instructor/DashboardPage.jsx:44-54 | the upcoming counter plus the classes starting exactly at `now` is the 'upcoming' list's length |
| InstructorDashboard.UpcomingCounterWithinList | src/pages/instructor/DashboardPage.jsx:44-75 | the counter never exceeds the 'upcoming' list, and a class at exactly `now` is listed but not counted |
| InstructorDashboard.RatingSumBounds | src/pages/instructor/DashboardPage.jsx:46 | with ratings 1 to 5 the sum lies between the count and five times the count |
| InstructorDashboard.SortedReviews | src/pages/instructor/DashboardPage.jsx:80 | sorting a copy gives the newest-first order and leaves the input alone |
| InstructorDashboard.SortedReviewsNewestFirst | src/pages/instructor/DashboardPage.jsx:80 | that order is a permutation with valid creation times descending |
| AdminDashboard.VisibleCards | src/pages/admin/DashboardPage.jsx:27-91 | all four cards for super_admin; otherwise the three without revenue, in order |
| AdminDashboard.CardsFiltered | src/pages/admin/DashboardPage.jsx:91 | filtering on super-only drops exactly the revenue card |
| AdminDashboard.GridColumns | src/pages/admin/DashboardPage.jsx:110 | the grid has one column per visible card |
| AdminDashboard.RevenueGoesWithBestPerformers | src/pages/admin/DashboardPage.jsx:57-189 | the revenue card shows exactly when the Best Performers panel does |
| CreateSchedule.ServiceTitle | src/pages/admin/schedules/CreateSchedulePage.jsx:47 | the name followed by " (N mins)" when the service has a non-zero duration N, the bare name otherwise |
| CreateSchedule.ServiceChoices | src/pages/admin/schedules/CreateSchedulePage.jsx:45-50 | one choice per service in order, valued by its id, titled by `ServiceTitle`, so with "(N mins)" exactly when a duration is present |
| CreateSchedule.InstructorChoices | src/pages/admin/schedules/CreateSchedulePage.jsx:53-68 | no service chosen: every instructor, titled "name - service"; otherwise exactly the instructors of that service, titled by name |
| CreateSchedule.ChoosingServiceNarrows | src/pages/admin/schedules/CreateSchedulePage.jsx:53-68 | every instructor offered for a service is also offered with none chosen |
| CreateSchedule.FindService | src/pages/admin/schedules/CreateSchedulePage.jsx:76-100 | the first service with the id if there is one, none exactly when no service has it |
| CreateSchedule.EndFor | src/pages/admin/schedules/CreateSchedulePage.jsx:84-104 | the end lies `duration_minutes` minutes after the start; none (the RangeError of an invalid date) exactly when the service lacks `duration_minutes` |
| CreateSchedule.ScheduleForm.constructor | src/pages/admin/schedules/CreateSchedulePage.jsx:17-24 | capacity 10, location 'Born Angel Studio', the other fields empty |
| CreateSchedule.ScheduleForm.ServiceChanged | src/pages/admin/schedules/CreateSchedulePage.jsx:75-92 | the service is set and the instructor cleared; the end follows the start when both the service and a start exist; it fails, keeping the end, exactly when that service lacks `duration_minutes` |
| CreateSchedule.ScheduleForm.InstructorChanged | src/pages/admin/schedules/CreateSchedulePage.jsx:94-96 | only the instructor changes |
| CreateSchedule.ScheduleForm.StartTimeChanged | src/pages/admin/schedules/CreateSchedulePage.jsx:98-112 | the start is set; the end follows it when the service is found, otherwise only the start changes; with a found service lacking `duration_minutes` it fails and nothing changes, not even the start |
| CreateSchedule.ScheduleForm.FieldsChanged | src/pages/admin/schedules/CreateSchedulePage.jsx:70-73 | the edited fields change and nothing else |
| CreateSchedule.ScheduleForm.Submit | src/pages/admin/schedules/CreateSchedulePage.jsx:117-123 | rejected exactly when the start is before `now`; an empty start is not rejected |
| CreateSchedule.ServiceThenStart | src/pages/admin/schedules/CreateSchedulePage.jsx:75-112 | choosing a known service and then a start sets the end to start plus its duration, and fails exactly when the service lacks `duration_minutes` |
| CreateBooking.Dispatch | src/pages/user/CreateBookingPage.jsx:34-65 | back to browsing exactly when neither id is given; schedule_id takes precedence over service_id |
| CreateBooking.UpcomingAvailable | src/pages/user/CreateBookingPage.jsx:61-63 | exactly the schedules starting after `now` with free seats, in order |
| CreateBooking.BookingPage.constructor | src/pages/user/CreateBookingPage.jsx:28-30 | no schedules, nothing selected, not submitting |
| CreateBooking.BookingPage.LoadedOne | src/pages/user/CreateBookingPage.jsx:47-51 | exactly that schedule is listed and preselected |
| CreateBooking.BookingPage.LoadedForService | src/pages/user/CreateBookingPage.jsx:54-64 | the upcoming available schedules are listed, none selected |
| CreateBooking.BookingPage.Select | src/pages/user/CreateBookingPage.jsx:138-143 | the clicked schedule becomes the selection, and exactly the cards with its id are highlighted |
| CreateBooking.BookingPage.Highlighted | src/pages/user/CreateBookingPage.jsx:133-143 | the selected card is highlighted and nothing is without a selection; after a click exactly the cards with the clicked id are (`Select`), and a request is for a highlighted card (`HandleBooking`) |
| CreateBooking.BookingPage.HandleBooking | src/pages/user/CreateBookingPage.jsx:74-90 | no request exactly when nothing is selected; otherwise a request for a listed, highlighted schedule; an enabled confirm button always requests |
| CreateBooking.BookFromService | src/pages/user/CreateBookingPage.jsx:54-90 | booking a schedule picked from the service list requests it, and it was bookable |

## Left out

- HTTP calls, the axios interceptors and browser storage are not modelled. The model takes fetched
  data, server success or failure, and the stored token as inputs.
- The payment popup of the bookings page is not modelled. It is a call into a script loaded
  from the payment provider.
- Asynchrony is not modelled: minimum-delay loading, debounce, effect ordering, `Promise.all`,
  and the loading and submitting flags while a request is in flight. Each handler is one atomic
  step.
- Floating point is not modelled: the average rating's division and `toFixed`, fill
  percentages, and chart shares. `InstructorDashboard.Counters` keeps the average as a sum and a
  count.
- CreateSchedule.EndFor: an end beyond the range of JavaScript dates (more than 8.64e15 ms from
  the epoch) also makes `toISOString` throw; such instants are not modelled.
- Locale and time-zone formatting is not modelled (`Intl`, `toLocale*String`, the
  datetime-local string slicing). Instants stay integers.
- BrowseClasses.InDateRange: local-time `setHours`/`setDate` are modelled as fixed
  day and week lengths. Days with a daylight-saving change differ.
- Each filter reads `new Date()` per element. The model takes one `now` per evaluation, so a
  list that straddles a clock tick is not modelled.
- MyBookings.SortNewestFirst: a booking without a start gives the source's comparator NaN,
  which leaves the engine's order unspecified. The model files such a booking under key 0.
- BrowseClasses.Listing: a missing start or price gives the comparator NaN. The model files such
  a schedule under key 0, as with the bookings sort.
- Routes.Match: React Router ranks routes by specificity; the model takes the first match in
  declaration order. The table's patterns never overlap, so the two agree on this table. Case is
  ignored by folding the path to lower case (`Routes.Navigate`); as everywhere, only ASCII letters
  fold.
- Routes.LoginRoundTrip: the sign-in page returns to `from.pathname` and drops the query string
  and hash; a path in the model has no query, so that loss is not represented.
- Helpers.TruncateText: JavaScript strings are UTF-16 code units; the model's characters are
  Unicode scalars, so a cut inside a surrogate pair (which leaves a lone surrogate) is not modelled.
- Helpers.GetInitials: `charAt(0)` takes a UTF-16 code unit, so a word starting with a character
  outside the basic plane gives half a surrogate pair in the source and the whole character here.
- Helpers.StatusColor: the lookup table is a plain object, so a key inherited from
  `Object.prototype` (`toString`, `constructor`, `__proto__`) yields a function or object in the
  source; the model treats such a status as unknown and gives gray.
- Helpers.PaymentStatus: the same inherited keys are treated as unknown statuses (pending).
- Helpers.PaymentStatusColor: the same inherited keys are treated as unknown statuses.
- UsersList.UsersPage.HandleDelete: the list refresh after a delete is a fetch and is not
  modelled. The method leaves the loaded users unchanged.
- Form inputs are typed values: a capacity is an integer and a service id a number, not the
  strings the inputs hold.
- Unicode case mapping is not modelled. Lower- and upper-casing are ASCII only.
- Loose `==` comparisons of ids are not modelled. Ids compare as integers, or as decimal text
  where the source calls `toString()`.
- The create and edit forms for services, instructors, administrators and reviews are not
  modelled. Neither are the sign-up page or the public catalogue pages: each binds fields and
  makes one call.
- The super-admin analytics dashboard is not modelled: it is charts and lazy loading.
- The `showDropdown` and sidebar toggles of the layouts are not modelled: they only affect
  what is visible.
