# Verified model of the Vilarbucks web client's session, order-book filter and task completion

This project models, in Dafny, the three pieces of client logic in the
Vilarbucks task-reward and P2P trading web client that carry behaviour of
their own. Everything else in that client is page rendering or one-shot
calls to the server.

- **Session provider** (`AuthProvider` in `src/contexts/AuthContext.tsx`).
  It keeps the signed-in user in memory, a `loading` flag, and two
  browser-storage keys: `vilarbucks_token` and `vilarbucks_user`.
  - Modelled as the class `Session.AuthSession`. Its fields are `user`,
    `loading` and `store`, a `map<string, Entry>` standing in for
    `localStorage`. A ghost field `requests` logs every request sent to
    the authentication service; each method appends to it where it obtains
    a reply, so the contracts say which requests an operation sends.
  - Its methods are `InitializeAuth`, `Login`, `Register`, `Logout` and
    `UpdateBalance`.
  - Each remote call to the authentication service is a function
    parameter from the request the client builds to a `Reply`
    (`Ok(response)` or `Failed`).
  - The three ways of building the client's `User` from a server record are
    the functions `HydratedUser`, `LoggedInUser` and `RegisteredUser`. The
    balance step is `Adjusted`. Lemmas compare the three projections and
    sum up any sequence of balance adjustments.
- **Order-book filter** (`filteredOrders` in `src/pages/P2P.tsx`). This is a
  pure filter over a fixed list of orders. The orders shown must be:
  - on the opposite side to the selected tab;
  - accepting the chosen payment method, where `"all"` accepts any;
  - from a trader whose name contains the search term, ignoring ASCII case;
  - active.

  It is modelled on a shared `Seqs.Filter`. Lemmas cover order
  preservation, idempotence, case-insensitivity, the payment wildcard and
  the empty search.
- **Task list** (`src/pages/Tasks.tsx`). `FilteredTasks` is the category
  filter, with `"all"` as a wildcard. The page state is the class
  `Tasks.TasksPage`, which holds a reference to the session. Its
  `HandleCompleteTask` does three things:
  - rewrites the list through `MarkCompleted`;
  - credits the reward of the first matching task once, through
    `AuthSession.UpdateBalance`;
  - closes the modal.

Money is in integer cents, and order prices are in thousandths. Wall-clock
values (`joinedAt`, `completedAt`) are a `now: Timestamp` parameter.

The model follows the code, including three places where a reader might
expect otherwise:
- login's name falls back from `username` straight to `"User"`, never to
  `firstName`;
- register's name falls back to the name the user typed;
- a failed hydration leaves the in-memory user as it was, and does not
  reset it. At start-up the user is `None`, so the result is the same.

## Model

| member | source | states |
|---|---|---|
| `Text.Or` | src/contexts/AuthContext.tsx:55 | JavaScript's or-operator on strings: the result is `s` when `s` is non-empty and the fallback otherwise, and it is empty only if both are |
| `Text.Lower` | src/pages/P2P.tsx:77 | `toLowerCase`: same length, and each character is lower-cased on its own (ASCII letters only) |
| `Text.Contains` | src/pages/P2P.tsx:77 | `includes`: a needle the hay starts with is found, and a found needle is never longer than the hay |
| `Text.ContainsIffOccurs` | src/pages/P2P.tsx:77 | `includes` is true exactly when the needle occurs at some index of the hay |
| `Text.ContainsEmpty` | src/pages/P2P.tsx:77 | the empty search term is contained in every string |
| `Text.LowerIdempotent` | src/pages/P2P.tsx:77 | lower-casing twice is lower-casing once |
| `Text.LowerOfUpper` | src/pages/P2P.tsx:77 | a string and its upper-cased form lower-case alike (ASCII) |
| `Text.IntToString` | src/contexts/AuthContext.tsx:53 | `id.toString()` for an integer: non-empty, a minus sign exactly for negatives, digits otherwise, and no leading zero |
| `Text.IntToStringRoundTrip` | src/contexts/AuthContext.tsx:53 | the decimal `id.toString()` can be read back to the server's id |
| `Text.IntToStringInjective` | src/contexts/AuthContext.tsx:53 | distinct server ids give distinct client id strings |
| `Session.WalletOrZero` | src/contexts/AuthContext.tsx:56-57 | `walletBalance || 0`: the wallet when present, and 0 exactly when it is missing or zero |
| `Session.HydratedUser` | src/contexts/AuthContext.tsx:52-62 | hydration's user: the id is the canonical decimal `id.toString()` (digits, no leading zero) and reads back to the server id; name is username, else firstName, else "User", and never empty; balance = totalEarned = wallet or 0; zero counters; referral code = "VLAR" + id |
| `Session.LoggedInUser` | src/contexts/AuthContext.tsx:86-96 | login's user: the id is the canonical decimal of the server id and reads back to it; the name is username, else "User", with no firstName step; balance = totalEarned = wallet or 0; zero counters; referral code = "VLAR" + id |
| `Session.RegisteredUser` | src/contexts/AuthContext.tsx:122-132 | register's user: the id is the canonical decimal of the server id and reads back to it; name is username, else the typed name (empty only if both are); totalEarned = 0 whatever the wallet; referral code = "VLAR" + id |
| `Session.LoginDiffersFromHydrationOnlyInName` | src/contexts/AuthContext.tsx:52-62 | login and hydration build the same user from the same account except for the firstName fallback, and are equal when it is not used |
| `Session.RegisterDiffersFromLogin` | src/contexts/AuthContext.tsx:122-132 | register's user is login's user with the typed-name fallback and totalEarned reset to 0 |
| `Session.ReferralCodesDistinct` | src/contexts/AuthContext.tsx:94 | different server ids never share a referral code |
| `Session.Adjusted` | src/contexts/AuthContext.tsx:151-156 | `updatedUser`: balance + amount; totalEarned + amount and tasksCompleted + 1 only for amount > 0; every other field unchanged |
| `Session.AfterUpdate` | src/contexts/AuthContext.tsx:149-159 | signed-out stays signed-out; a signed-in user's balance moves by exactly the amount |
| `Session.LedgerAfterAdjustments` | src/contexts/AuthContext.tsx:149-159 | over any sequence of adjustments: balance = start + sum, totalEarned = start + sum of credits, tasksCompleted = start + number of credits, other fields unchanged |
| `Session.EarningsNeverDecrease` | src/contexts/AuthContext.tsx:154-155 | totalEarned and tasksCompleted never go down, whatever the amounts |
| `Session.AdjustedAllAppend` | src/contexts/AuthContext.tsx:149-159 | one more `updateBalance` call extends the sequence: folding `amounts + [a]` is adjusting the fold of `amounts` by `a` |
| `Session.StoredToken` | src/contexts/AuthContext.tsx:45-46 | a token is seen exactly when the token key holds a non-empty string (an empty one is falsy) |
| `Session.ClearCredentials` | src/services/authService.ts:64-67 | both session keys are absent afterwards and every other key keeps its value |
| `Session.AuthSession.constructor` | src/contexts/AuthContext.tsx:40-41 | a new provider has no user, is loading, sees the persisted store, and has sent no request |
| `Session.AuthSession.InitializeAuth` | src/contexts/AuthContext.tsx:44-73 | no token: no request is logged and nothing changes; with a token exactly one profile fetch carrying it is logged; a fetched profile becomes the user and its persisted copy; a failed fetch removes both keys; loading always ends false |
| `Session.Mount` | src/contexts/AuthContext.tsx:39-76 | after mounting and hydrating, no user is signed in exactly when no token was stored or the server rejected it; a signed-in user is mirrored in storage; the only request sent is the profile fetch with the stored token, and none without one |
| `Session.AuthSession.Login` | src/contexts/AuthContext.tsx:78-106 | logs exactly one sign-in request with the typed credentials; returns true exactly when the server accepts; then the token and the mirrored user are stored; on failure user and store are unchanged |
| `Session.AuthSession.Register` | src/contexts/AuthContext.tsx:108-142 | logs exactly one sign-up request, which carries the name as username and firstName with role customer; success stores the token and the mirrored user; failure changes nothing |
| `Session.AuthSession.Logout` | src/contexts/AuthContext.tsx:144-147 | afterwards there is no user and both keys are gone, whatever the state before; no request is sent |
| `Session.AuthSession.UpdateBalance` | src/contexts/AuthContext.tsx:149-160 | no effect when signed out; otherwise the user becomes `Adjusted(user, amount)` and the persisted copy equals it |
| `Session.LoginExample` | src/contexts/AuthContext.tsx:86-96 | account 42 "Ann" with wallet 12.50 signs in as user "42", balance = earnings = 12.50, referral code "VLAR42" |
| `Session.LedgerExample` | src/contexts/AuthContext.tsx:149-159 | from 10.00/10.00/2, a credit of 5.00 then a debit of 3.00 ends at balance 12.00, earnings 15.00, 3 tasks |
| `Seqs.Filter` | src/pages/P2P.tsx:73 | `Array.filter`: every kept element passes; an element is kept iff it is in the input and passes; never longer than the input |
| `Seqs.FilterCounts` | src/pages/P2P.tsx:73 | `Array.filter` keeps every passing element as many times as it occurs in the input, and no failing element |
| `Seqs.FilterIsSubsequence` | src/pages/P2P.tsx:73-80 | a filter result is a subsequence of its input (original order kept) |
| `Seqs.FilterAllPass` | src/pages/P2P.tsx:73-80 | filtering a list whose every element passes returns it unchanged |
| `Seqs.FilterIdempotent` | src/pages/P2P.tsx:73-80 | filtering twice with one predicate is filtering once |
| `Seqs.FilterCongruent` | src/pages/P2P.tsx:77 | predicates that agree on every element filter alike |
| `Seqs.FilterMonotone` | src/pages/P2P.tsx:75-76 | a predicate implying another keeps a subsequence of what the other keeps |
| `P2P.CounterSide` | src/pages/P2P.tsx:74 | the tab shows the opposite side |
| `P2P.Shown` | src/pages/P2P.tsx:74-79 | the filter callback: a shown order is active, on the other side and takes the payment method; with an empty search only those tests decide |
| `P2P.FilteredOrders` | src/pages/P2P.tsx:73-80 | the shown orders: a subsequence of the book, all active, all on the opposite side, all accepting the chosen method unless "all", all matching the search; an order is shown iff it is in the book and passes all four tests, and as many times as it occurs in the book |
| `P2P.FilterOrdersIdempotent` | src/pages/P2P.tsx:73-80 | applying the same settings to the filtered list returns it unchanged |
| `P2P.SearchIgnoresCase` | src/pages/P2P.tsx:77 | search terms that lower-case alike show the same orders |
| `P2P.UpperCaseSearchSame` | src/pages/P2P.tsx:77 | typing the search term in capitals shows the same orders |
| `P2P.EmptySearchAdmitsAll` | src/pages/P2P.tsx:77 | with an empty search, only tab, payment method and activity decide |
| `P2P.WildcardShowsMore` | src/pages/P2P.tsx:75-76 | any specific payment method shows a subsequence of what "all" shows |
| `P2P.TabsDisjoint` | src/pages/P2P.tsx:74 | no order is shown on both tabs |
| `P2P.DemoTabs` | src/pages/P2P.tsx:15-55 | on the demonstration book the buy tab lists the two sellers and the sell tab the one buyer |
| `Tasks.FilteredTasks` | src/pages/Tasks.tsx:44-46 | "all" returns the list unchanged; any other category returns a subsequence holding exactly the tasks of that category, each as many times as it occurs in the list |
| `Tasks.FindTask` | src/pages/Tasks.tsx:49 | `find`: a task is found iff some task carries the id, and then it is the first such task |
| `Tasks.FirstIndex` | src/pages/Tasks.tsx:49 | the position of the first task carrying the id, or the list length when no task carries it |
| `Tasks.Completed` | src/pages/Tasks.tsx:53 | the task is completed at `now`, and all its other fields are unchanged |
| `Tasks.MarkCompleted` | src/pages/Tasks.tsx:51-55 | the length and order of the list are kept; every task with the id is completed; every other task is identical |
| `Tasks.MarkCompletedKeepsIdentity` | src/pages/Tasks.tsx:51-55 | completion keeps each task's id, category and reward |
| `Tasks.MarkCompletedAbsent` | src/pages/Tasks.tsx:49-50 | completing an id that no task carries leaves the list as it was |
| `Tasks.MarkCompletedTwice` | src/pages/Tasks.tsx:51-55 | completing the same id again changes only the completion time |
| `Tasks.MarkCompletedCons` | src/pages/Tasks.tsx:51-55 | completion maps over the list element by element: it distributes over putting a task in front |
| `Tasks.FilterCommutesWithCompletion` | src/pages/Tasks.tsx:44-55 | filtering by category and marking completed commute |
| `Tasks.FindAfterCompletion` | src/pages/Tasks.tsx:49-56 | after completion the first task with the id is the same task, completed, with the same reward |
| `Tasks.CanStart` | src/pages/Tasks.tsx:207-219 | "Start Task" is offered for an id exactly when an uncompleted task with it is in the list and, unless the category is "all", in the selected category |
| `Tasks.CompletedCannotRestart` | src/pages/Tasks.tsx:207-219 | once an id is completed, no shown task with that id offers "Start Task" |
| `Tasks.TasksPage.constructor` | src/pages/Tasks.tsx:16-19 | the page starts on the given tasks, category "all", no selected task, bound to the session |
| `Tasks.TasksPage.SelectCategory` | src/pages/Tasks.tsx:158 | a category button changes the filter and nothing else |
| `Tasks.TasksPage.StartTask` | src/pages/Tasks.tsx:213-217 | only offered for a shown, uncompleted task; it selects that id and changes nothing else |
| `Tasks.TasksPage.HandleCompleteTask` | src/pages/Tasks.tsx:48-59 | for a present id: the list becomes `MarkCompleted`, the first match's reward goes through `updateBalance` exactly once, and the modal closes; for an absent id, tasks, selection, user and store are all untouched; no request is sent either way |
| `Tasks.CompleteTwice` | src/pages/Tasks.tsx:48-59 | the handler has no guard of its own: completing an id twice credits its reward twice |

## Left out

- Rendering is not modelled: JSX, styling, icons, the filter drop-down toggle, and the modal's cancel and close buttons.
- The HTTP service wrappers are not modelled. Login, register and the profile fetch appear only as request → reply functions. `api.ts` is not part of this model. The model assumes that the profile fetch depends on the stored token alone, so it takes that token as its argument.
- `authService.updateProfile` and the other service classes (orders, wallet, KYC, messages, tasks, payments, subscriptions, currency) are not modelled: they are one-shot server calls.
- Server-record fields the client never reads are dropped: `role`, `isActive`, `isVerified`, `lastName`, `subscriptionId`, and `message` of the auth response.
- JSON serialization and `Date` round-tripping are abstracted. The persisted user is a copy of the `User` value.
- `console.error` logging is not modelled.
- Server ids are integers in the model, while the source types them as JavaScript numbers. `toString()` is plain decimal only for integers below 1e21; larger ids print in exponent form and fractional ids print a fraction. Ids are assumed to be such integers.
- Floating point is not modelled: amounts are integer cents, so `toFixed` display and rounding are left out.
- React scheduling is not modelled. Each operation runs sequentially and atomically. The stale `user` captured by `updateBalance` is not modelled. `Mount` hydrates once, but nothing in the model prevents a second `InitializeAuth` call on the same session.
- The `useAuth` error raised outside a provider is not modelled.
- Case mapping is ASCII only. Unicode `toLowerCase` is not modelled.
- Only the P2P demonstration book is modelled as data. The mock tasks, achievements and transactions are fixed display data.
- Order `type` is the two-valued `Side`. An order whose type is neither "buy" nor "sell" cannot be represented; no tab would show it.
- Session.AuthSession.Login: a reply is either a full success or a failure before anything is written. In the code the token is stored first. Building the user can then throw, e.g. a reply without `user` at `response.user.id`, and so can storing the user. The catch then returns false with the new token already stored, and after a failed user write also with the user set in memory. The model does not capture these partial writes.
- Session.AuthSession.Register: the same partial writes as login are not modelled: the token is stored before building and storing the user, and a throw in between returns false with the token (and possibly the user) left in place.
- Session.AuthSession.InitializeAuth: a throw from storing the user after it is set in memory is not modelled. In the code the catch then removes both keys while the user stays signed in, so `Mount`'s "a signed-in user is mirrored in storage" holds only when storage writes succeed.
- The task record's type declaration (`src/types`) is not part of this model. The task shape is taken from the mock task data.
