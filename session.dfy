/** The session provider of the client (`AuthProvider`): the signed-in user
    held in memory, the `loading` flag, and the two browser-storage keys that
    persist the session across reloads. Remote calls to the authentication
    service are parameters of type `request -> Reply<response>`: whatever the
    server answers for the request the client builds. */
module Session {
  import opened Wrappers
  import opened Text

  /** Wall-clock time, as given by `new Date()`. */
  type Timestamp = int

  /** The client-side user record (`interface User`). Money is in cents. */
  datatype User = User(
    id: string,
    email: string,
    name: string,
    balance: int,
    totalEarned: int,
    tasksCompleted: nat,
    joinedAt: Timestamp,
    referralCode: string,
    referralCount: nat)

  /** The profile returned by `GET /auth/me` (`UserProfile`); `None` stands
      for a missing field, which JavaScript's `||` treats as falsy. */
  datatype Profile = Profile(
    id: int,
    email: string,
    username: string,
    firstName: Option<string>,
    walletBalance: Option<int>)

  /** The user part of the login and register answers (`AuthResponse.user`). */
  datatype Account = Account(
    id: int,
    email: string,
    username: string,
    walletBalance: Option<int>)

  datatype AuthResponse = AuthResponse(token: string, user: Account)

  datatype LoginRequest = LoginRequest(email: string, password: string)

  datatype Role = Customer | Agent

  datatype RegisterRequest = RegisterRequest(
    email: string,
    username: string,
    password: string,
    firstName: Option<string>,
    role: Option<Role>)

  /** The outcome of a remote call; the client does not distinguish errors. */
  datatype Reply<T> = Ok(value: T) | Failed

  /** A request sent to the authentication service, as the session records it. */
  datatype Request =
    | ProfileFetch(token: string)
    | SignIn(login: LoginRequest)
    | SignUp(registration: RegisterRequest)

  /** A browser-storage value: the bearer token, or the serialized user. */
  datatype Entry = Token(token: string) | UserRecord(user: User)

  const TokenKey: string := "vilarbucks_token"
  const UserKey: string := "vilarbucks_user"
  const ReferralPrefix: string := "VLAR"
  const FallbackName: string := "User"

  // ---------------------------------------------------------------------
  // Projections from the server's records to the client's User

  /** `walletBalance || 0`. */
  function WalletOrZero(w: Option<int>): (r: int)
    ensures w.Some? ==> r == w.value
    ensures r == 0 <==> w.None? || w.value == 0
  {
    if w.Some? then w.value else 0
  }

  /** `firstName` as a string, the empty string when it is missing. */
  function FirstNameText(f: Option<string>): string
  {
    if f.Some? then f.value else ""
  }

  /** Hydration's projection: name falls back to firstName, then to "User". */
  function HydratedUser(p: Profile, now: Timestamp): (u: User)
    ensures u.id == IntToString(p.id) && ParseInt(u.id) == Some(p.id)
    ensures u.email == p.email
    ensures u.name != ""
    ensures p.username != "" ==> u.name == p.username
    ensures p.username == "" && FirstNameText(p.firstName) != "" ==> u.name == p.firstName.value
    ensures p.username == "" && FirstNameText(p.firstName) == "" ==> u.name == FallbackName
    ensures u.balance == u.totalEarned == WalletOrZero(p.walletBalance)
    ensures u.tasksCompleted == 0 && u.referralCount == 0 && u.joinedAt == now
    ensures u.referralCode == ReferralPrefix + u.id
  {
    IntToStringRoundTrip(p.id);
    User(IntToString(p.id), p.email, Or(p.username, Or(FirstNameText(p.firstName), FallbackName)),
         WalletOrZero(p.walletBalance), WalletOrZero(p.walletBalance), 0, now,
         ReferralPrefix + IntToString(p.id), 0)
  }

  /** Login's projection: name falls back to "User" directly (no firstName). */
  function LoggedInUser(a: Account, now: Timestamp): (u: User)
    ensures u.id == IntToString(a.id) && ParseInt(u.id) == Some(a.id)
    ensures u.email == a.email
    ensures u.name != ""
    ensures u.name == (if a.username != "" then a.username else FallbackName)
    ensures u.balance == u.totalEarned == WalletOrZero(a.walletBalance)
    ensures u.tasksCompleted == 0 && u.referralCount == 0 && u.joinedAt == now
    ensures u.referralCode == ReferralPrefix + u.id
  {
    IntToStringRoundTrip(a.id);
    User(IntToString(a.id), a.email, Or(a.username, FallbackName),
         WalletOrZero(a.walletBalance), WalletOrZero(a.walletBalance), 0, now,
         ReferralPrefix + IntToString(a.id), 0)
  }

  /** Registration's projection: name falls back to the name the user typed,
      and nothing counts as earned yet whatever the wallet holds. */
  function RegisteredUser(a: Account, displayName: string, now: Timestamp): (u: User)
    ensures u.id == IntToString(a.id) && ParseInt(u.id) == Some(a.id)
    ensures u.email == a.email
    ensures u.name == (if a.username != "" then a.username else displayName)
    ensures u.name == "" <==> a.username == "" && displayName == ""
    ensures u.balance == WalletOrZero(a.walletBalance) && u.totalEarned == 0
    ensures u.tasksCompleted == 0 && u.referralCount == 0 && u.joinedAt == now
    ensures u.referralCode == ReferralPrefix + u.id
  {
    IntToStringRoundTrip(a.id);
    User(IntToString(a.id), a.email, Or(a.username, displayName),
         WalletOrZero(a.walletBalance), 0, 0, now,
         ReferralPrefix + IntToString(a.id), 0)
  }

  /** The account part of a profile, as login would have returned it. */
  function AccountOf(p: Profile): Account
  {
    Account(p.id, p.email, p.username, p.walletBalance)
  }

  /** Login and hydration build the same user from the same account, except
      that login never falls back to the first name. */
  lemma LoginDiffersFromHydrationOnlyInName(p: Profile, now: Timestamp)
    ensures LoggedInUser(AccountOf(p), now) == HydratedUser(p, now).(name := Or(p.username, FallbackName))
    ensures p.username != "" || FirstNameText(p.firstName) == "" ==>
              LoggedInUser(AccountOf(p), now) == HydratedUser(p, now)
  {
  }

  /** Registration differs from login only in the name fallback and in
      starting `totalEarned` at zero. */
  lemma RegisterDiffersFromLogin(a: Account, displayName: string, now: Timestamp)
    ensures RegisteredUser(a, displayName, now) ==
              LoggedInUser(a, now).(name := Or(a.username, displayName), totalEarned := 0)
  {
  }

  /** Two users built from different server ids get different referral codes. */
  lemma ReferralCodesDistinct(a: Account, b: Account, now: Timestamp, later: Timestamp)
    requires a.id != b.id
    ensures LoggedInUser(a, now).referralCode != LoggedInUser(b, later).referralCode
  {
    var ua, ub := LoggedInUser(a, now), LoggedInUser(b, later);
    assert ua.referralCode[|ReferralPrefix|..] == ua.id;
    assert ub.referralCode[|ReferralPrefix|..] == ub.id;
  }

  // ---------------------------------------------------------------------
  // The local balance ledger (`updateBalance`)

  /** The `updatedUser` record: the balance moves by `amount`; earnings and
      the completed-task count move only for a credit. */
  function Adjusted(u: User, amount: int): (r: User)
    ensures r.balance == u.balance + amount
    ensures amount > 0 ==> r.totalEarned == u.totalEarned + amount && r.tasksCompleted == u.tasksCompleted + 1
    ensures amount <= 0 ==> r.totalEarned == u.totalEarned && r.tasksCompleted == u.tasksCompleted
    ensures r.(balance := u.balance, totalEarned := u.totalEarned, tasksCompleted := u.tasksCompleted) == u
  {
    u.(balance := u.balance + amount,
       totalEarned := if amount > 0 then u.totalEarned + amount else u.totalEarned,
       tasksCompleted := if amount > 0 then u.tasksCompleted + 1 else u.tasksCompleted)
  }

  /** The in-memory user after `updateBalance(amount)`: unchanged when nobody
      is signed in. */
  function AfterUpdate(user: Option<User>, amount: int): (r: Option<User>)
    ensures r.Some? <==> user.Some?
    ensures user.Some? ==> r.value.balance == user.value.balance + amount
  {
    if user.Some? then Some(Adjusted(user.value, amount)) else None
  }

  /** The user after `updateBalance(a)` for each `a` of `amounts`, in order. */
  function AdjustedAll(u: User, amounts: seq<int>): User
    decreases |amounts|
  {
    if amounts == [] then u else AdjustedAll(Adjusted(u, amounts[0]), amounts[1..])
  }

  function Sum(xs: seq<int>): int
  {
    if xs == [] then 0 else xs[0] + Sum(xs[1..])
  }

  function PositiveSum(xs: seq<int>): (r: int)
    ensures r >= 0
  {
    if xs == [] then 0 else (if xs[0] > 0 then xs[0] else 0) + PositiveSum(xs[1..])
  }

  function PositiveCount(xs: seq<int>): (r: nat)
    ensures r <= |xs|
  {
    if xs == [] then 0 else (if xs[0] > 0 then 1 else 0) + PositiveCount(xs[1..])
  }

  /** Over any sequence of adjustments the balance moves by their sum,
      earnings by the sum of the credits, the task count by the number of
      credits, and every other field stays as it was. */
  lemma {:induction false} LedgerAfterAdjustments(u: User, amounts: seq<int>)
    ensures AdjustedAll(u, amounts).balance == u.balance + Sum(amounts)
    ensures AdjustedAll(u, amounts).totalEarned == u.totalEarned + PositiveSum(amounts)
    ensures AdjustedAll(u, amounts).tasksCompleted == u.tasksCompleted + PositiveCount(amounts)
    ensures AdjustedAll(u, amounts).(balance := u.balance, totalEarned := u.totalEarned,
                                     tasksCompleted := u.tasksCompleted) == u
    decreases |amounts|
  {
    if amounts != [] {
      LedgerAfterAdjustments(Adjusted(u, amounts[0]), amounts[1..]);
    }
  }

  /** Earnings and the completed-task count never go down, whatever the
      adjustments; the balance may. */
  lemma EarningsNeverDecrease(u: User, amounts: seq<int>)
    ensures AdjustedAll(u, amounts).totalEarned >= u.totalEarned
    ensures AdjustedAll(u, amounts).tasksCompleted >= u.tasksCompleted
  {
    LedgerAfterAdjustments(u, amounts);
  }

  /** One more `updateBalance` call extends the sequence of adjustments. */
  lemma {:induction false} AdjustedAllAppend(u: User, amounts: seq<int>, a: int)
    ensures AdjustedAll(u, amounts + [a]) == Adjusted(AdjustedAll(u, amounts), a)
    decreases |amounts|
  {
    if amounts != [] {
      assert (amounts + [a])[1..] == amounts[1..] + [a];
      AdjustedAllAppend(Adjusted(u, amounts[0]), amounts[1..], a);
    }
  }

  // ---------------------------------------------------------------------
  // Browser storage

  /** Each of the two keys holds the kind of value this session writes there. */
  predicate StoreWellFormed(store: map<string, Entry>)
  {
    && (TokenKey in store ==> store[TokenKey].Token?)
    && (UserKey in store ==> store[UserKey].UserRecord?)
  }

  /** `localStorage.getItem(TokenKey)` when it is truthy (present and non-empty). */
  function StoredToken(store: map<string, Entry>): (t: Option<string>)
    requires StoreWellFormed(store)
    ensures t.Some? <==> TokenKey in store && store[TokenKey] != Token("")
    ensures t.Some? ==> store[TokenKey] == Token(t.value) && t.value != ""
  {
    if TokenKey in store && store[TokenKey].token != "" then Some(store[TokenKey].token) else None
  }

  /** `authService.logout()`: both session keys removed, every other key kept. */
  function ClearCredentials(store: map<string, Entry>): (r: map<string, Entry>)
    ensures TokenKey !in r && UserKey !in r
    ensures forall k :: k in store && k != TokenKey && k != UserKey ==> k in r && r[k] == store[k]
    ensures forall k :: k in r ==> k in store
    ensures StoreWellFormed(r)
  {
    store - {TokenKey, UserKey}
  }

  /** The session provider's state. */
  class AuthSession {
    var user: Option<User>
    var loading: bool
    var store: map<string, Entry>
    /** Every request sent to the authentication service, oldest first. */
    ghost var requests: seq<Request>

    ghost predicate Valid()
      reads this
    {
      StoreWellFormed(store)
    }

    /** The persisted user is a copy of the in-memory user. */
    ghost predicate Mirrored()
      reads this
    {
      user.Some? && UserKey in store && store[UserKey] == UserRecord(user.value)
    }

    /** A fresh provider over whatever the browser kept from earlier visits. */
    constructor (persisted: map<string, Entry>)
      requires StoreWellFormed(persisted)
      ensures Valid()
      ensures user == None && loading && store == persisted && requests == []
    {
      user := None;
      loading := true;
      store := persisted;
      requests := [];
    }

    /** `initializeAuth`: with no stored token no request is sent; otherwise
        exactly one profile fetch carries the token, and its reply either
        becomes the user (and is persisted) or, on failure, both keys are
        dropped. Loading always ends. */
    method InitializeAuth(fetchProfile: string -> Reply<Profile>, now: Timestamp) returns (requested: bool)
      requires Valid()
      modifies this
      ensures Valid()
      ensures !loading
      ensures requested <==> StoredToken(old(store)).Some?
      ensures requests == old(requests) + (if requested then [ProfileFetch(StoredToken(old(store)).value)] else [])
      ensures !requested ==> user == old(user) && store == old(store)
      ensures requested && fetchProfile(StoredToken(old(store)).value).Ok? ==>
                && user == Some(HydratedUser(fetchProfile(StoredToken(old(store)).value).value, now))
                && store == old(store)[UserKey := UserRecord(user.value)]
                && Mirrored()
      ensures requested && fetchProfile(StoredToken(old(store)).value).Failed? ==>
                user == old(user) && store == ClearCredentials(old(store))
    {
      var token := StoredToken(store);
      requested := token.Some?;
      if token.Some? {
        requests := requests + [ProfileFetch(token.value)];
        var reply := fetchProfile(token.value);
        match reply {
          case Ok(profile) =>
            var u := HydratedUser(profile, now);
            user := Some(u);
            store := store[UserKey := UserRecord(u)];
          case Failed =>
            store := ClearCredentials(store);
        }
      }
      loading := false;
    }

    /** `login`: on success the token and the projected user are stored and
        mirrored; on failure nothing at all changes. */
    method Login(email: string, password: string, authLogin: LoginRequest -> Reply<AuthResponse>, now: Timestamp)
      returns (ok: bool)
      requires Valid()
      modifies this
      ensures Valid() && loading == old(loading)
      ensures requests == old(requests) + [SignIn(LoginRequest(email, password))]
      ensures ok <==> authLogin(LoginRequest(email, password)).Ok?
      ensures !ok ==> user == old(user) && store == old(store)
      ensures ok ==>
                var response := authLogin(LoginRequest(email, password)).value;
                && user == Some(LoggedInUser(response.user, now))
                && store == old(store)[TokenKey := Token(response.token)][UserKey := UserRecord(user.value)]
                && Mirrored()
    {
      requests := requests + [SignIn(LoginRequest(email, password))];
      var reply := authLogin(LoginRequest(email, password));
      match reply {
        case Failed =>
          ok := false;
        case Ok(response) =>
          store := store[TokenKey := Token(response.token)];
          var u := LoggedInUser(response.user, now);
          user := Some(u);
          store := store[UserKey := UserRecord(u)];
          ok := true;
      }
    }

    /** `register`: the typed name is sent as both username and first name,
        with the customer role; success stores and mirrors as login does,
        failure changes nothing. */
    method Register(email: string, password: string, name: string,
                    authRegister: RegisterRequest -> Reply<AuthResponse>, now: Timestamp)
      returns (ok: bool)
      requires Valid()
      modifies this
      ensures Valid() && loading == old(loading)
      ensures requests == old(requests) + [SignUp(RegisterRequest(email, name, password, Some(name), Some(Customer)))]
      ensures ok <==> authRegister(RegisterRequest(email, name, password, Some(name), Some(Customer))).Ok?
      ensures !ok ==> user == old(user) && store == old(store)
      ensures ok ==>
                var response := authRegister(RegisterRequest(email, name, password, Some(name), Some(Customer))).value;
                && user == Some(RegisteredUser(response.user, name, now))
                && store == old(store)[TokenKey := Token(response.token)][UserKey := UserRecord(user.value)]
                && Mirrored()
    {
      var request := RegisterRequest(email, name, password, Some(name), Some(Customer));
      requests := requests + [SignUp(request)];
      var reply := authRegister(request);
      match reply {
        case Failed =>
          ok := false;
        case Ok(response) =>
          store := store[TokenKey := Token(response.token)];
          var u := RegisteredUser(response.user, name, now);
          user := Some(u);
          store := store[UserKey := UserRecord(u)];
          ok := true;
      }
    }

    /** `logout`: both keys gone and no user, whatever the state before. */
    method Logout()
      requires Valid()
      modifies this
      ensures Valid() && loading == old(loading)
      ensures user == None && requests == old(requests)
      ensures store == ClearCredentials(old(store))
    {
      store := ClearCredentials(store);
      user := None;
    }

    /** `updateBalance`: no effect when signed out; otherwise the user becomes
        `Adjusted(user, amount)` and the persisted copy is rewritten. */
    method UpdateBalance(amount: int)
      requires Valid()
      modifies this
      ensures Valid() && loading == old(loading)
      ensures user == AfterUpdate(old(user), amount) && requests == old(requests)
      ensures old(user).None? ==> store == old(store)
      ensures old(user).Some? ==> store == old(store)[UserKey := UserRecord(user.value)] && Mirrored()
    {
      if user.Some? {
        var updated := Adjusted(user.value, amount);
        user := Some(updated);
        store := store[UserKey := UserRecord(updated)];
      }
    }
  }

  /** Mounting the provider: a fresh session over the persisted store, then
      the one hydration its effect runs. Afterwards nobody is signed in
      exactly when no token was stored or the server rejected it. */
  method Mount(persisted: map<string, Entry>, fetchProfile: string -> Reply<Profile>, now: Timestamp)
    returns (session: AuthSession)
    requires StoreWellFormed(persisted)
    ensures fresh(session) && session.Valid() && !session.loading
    ensures session.user.None? <==>
              StoredToken(persisted).None? || fetchProfile(StoredToken(persisted).value).Failed?
    ensures session.user.Some? ==> session.Mirrored()
    ensures session.requests ==
              if StoredToken(persisted).Some? then [ProfileFetch(StoredToken(persisted).value)] else []
  {
    session := new AuthSession(persisted);
    var _ := session.InitializeAuth(fetchProfile, now);
  }

  // ---------------------------------------------------------------------
  // Worked examples

  /** Signing in as account 42 ("Ann", wallet 12.50) gives user "42" with
      referral code "VLAR42" and earnings equal to the wallet. */
  lemma LoginExample(now: Timestamp)
    ensures LoggedInUser(Account(42, "a@b.com", "Ann", Some(1250)), now)
            == User("42", "a@b.com", "Ann", 1250, 1250, 0, now, "VLAR42", 0)
  {
    assert IntToString(42) == NatToString(4) + [DigitChar(2)];
  }

  /** A credit of 5.00 then a debit of 3.00 from balance 10.00. */
  lemma LedgerExample(u: User)
    requires u.balance == 1000 && u.totalEarned == 1000 && u.tasksCompleted == 2
    ensures AdjustedAll(u, [500, -300]).balance == 1200
    ensures AdjustedAll(u, [500, -300]).totalEarned == 1500
    ensures AdjustedAll(u, [500, -300]).tasksCompleted == 3
  {
    LedgerAfterAdjustments(u, [500, -300]);
  }
}
