/** The mock account and wallet backend: a table of users and a session slot kept in the browser's
    key-value store under `ech_users` and `ech_session`. The store is in memory here; each call
    reads the table, changes it and writes it back as one step. */
module MockBackend {
  import opened Wrappers
  import opened Lists
  import JsText

  /** Milliseconds in a day: `setDate(getDate() + d)` moves an instant `d` days on. */
  const DayMs: int := 86_400_000

  /** A stored user record. `password` is stored in clear beside the profile, as the mock does.
      `balance` is None for a record whose balance is not a number; `vipExpiry` is the instant
      (ms) the VIP period ends, None when the record has no expiry. */
  datatype User = User(id: string, email: string, name: string, password: string,
                       createdAt: int, balance: Option<int>, vipExpiry: Option<int>)

  datatype BackendError = InvalidCredentials | EmailInUse | UserNotFound | InsufficientBalance
  {
    /** The message each rejection carries. */
    function Message(): string
    {
      match this
      case InvalidCredentials => "Email hoặc mật khẩu không đúng."
      case EmailInUse => "Email này đã được sử dụng."
      case UserNotFound => "User not found"
      case InsufficientBalance => "Số dư không đủ"
    }
  }

  /** The balance the wallet operations start from: a non-number counts as 0. */
  function BalanceOf(u: User): int
  {
    u.balance.GetOr(0)
  }

  /** The first user matching both credentials (`users.find`). */
  function IndexOfCredentials(users: seq<User>, email: string, password: string): (r: Option<nat>)
    ensures r.Some? ==> r.value < |users| && users[r.value].email == email && users[r.value].password == password
    ensures r.Some? ==> forall j :: 0 <= j < r.value ==> !(users[j].email == email && users[j].password == password)
    ensures r.None? <==> forall j :: 0 <= j < |users| ==> !(users[j].email == email && users[j].password == password)
  {
    FirstIndex(users, (u: User) => u.email == email && u.password == password)
  }

  /** The first user with this email. */
  function IndexOfEmail(users: seq<User>, email: string): (r: Option<nat>)
    ensures r.Some? ==> r.value < |users| && users[r.value].email == email
    ensures r.Some? ==> forall j :: 0 <= j < r.value ==> users[j].email != email
    ensures r.None? <==> forall j :: 0 <= j < |users| ==> users[j].email != email
  {
    FirstIndex(users, (u: User) => u.email == email)
  }

  /** The first user with this id (`users.findIndex`). */
  function IndexOfId(users: seq<User>, id: string): (r: Option<nat>)
    ensures r.Some? ==> r.value < |users| && users[r.value].id == id
    ensures r.Some? ==> forall j :: 0 <= j < r.value ==> users[j].id != id
    ensures r.None? <==> forall j :: 0 <= j < |users| ==> users[j].id != id
  {
    FirstIndex(users, (u: User) => u.id == id)
  }

  /** No two stored users share an email: what registration maintains. */
  ghost predicate EmailsUnique(users: seq<User>)
  {
    forall i, j :: 0 <= i < j < |users| ==> users[i].email != users[j].email
  }

  /** The record `apiRegister` creates at instant `now`: id "user_" followed by the instant,
      zero balance, no VIP expiry. */
  function NewUser(email: string, password: string, name: string, now: nat): (u: User)
    ensures u.email == email && u.name == name && u.password == password
    ensures u.balance == Some(0) && u.vipExpiry.None? && u.createdAt == now
    ensures JsText.StartsWith(u.id, "user_")
  {
    User("user_" + JsText.NatToString(now), email, name, password, now, Some(0), None)
  }

  /** The record after a deposit of `amount` (no sign check on `amount`). */
  function Credited(u: User, amount: int): (v: User)
    ensures v.balance == Some(BalanceOf(u) + amount)
    ensures v == u.(balance := v.balance)
  {
    u.(balance := Some(BalanceOf(u) + amount))
  }

  /** The VIP expiry after buying `days` more days at instant `now`: the period starts at the
      current expiry when that is still in the future, and at `now` otherwise. */
  function NewExpiry(expiry: Option<int>, now: int, days: int): (e: int)
    ensures var start := e - days * DayMs;
      && start >= now
      && (expiry.Some? ==> start >= expiry.value)
      && (start == now || expiry == Some(start))
  {
    var current := expiry.GetOr(now);
    (if current > now then current else now) + days * DayMs
  }

  /** The record after a VIP purchase: `price` taken from the balance, expiry extended. */
  function Purchased(u: User, days: int, price: int, now: int): (v: User)
    ensures v.balance == Some(BalanceOf(u) - price)
    ensures v.vipExpiry == Some(NewExpiry(u.vipExpiry, now, days))
    ensures v == u.(balance := v.balance, vipExpiry := v.vipExpiry)
  {
    u.(balance := Some(BalanceOf(u) - price), vipExpiry := Some(NewExpiry(u.vipExpiry, now, days)))
  }

  /** The session after writing record `u` for user `userId`: the stored snapshot is replaced only
      when it belongs to `userId`. */
  function SessionAfterWrite(session: Option<User>, userId: string, u: User): (s: Option<User>)
    ensures session.Some? && session.value.id == userId ==> s == Some(u)
    ensures !(session.Some? && session.value.id == userId) ==> s == session
  {
    if session.Some? && session.value.id == userId then Some(u) else session
  }

  /** What `apiGetProfile` returns: the live stored record whose id is the session's
      (not the session snapshot itself), or nothing. */
  function ProfileOf(users: seq<User>, session: Option<User>): (r: Option<User>)
    ensures session.None? ==> r.None?
    ensures session.Some? ==>
      (r.Some? <==> exists j :: 0 <= j < |users| && users[j].id == session.value.id)
    ensures r.Some? ==> r.value in users && r.value.id == session.value.id
  {
    match session
    case None => None
    case Some(s) =>
      match IndexOfId(users, s.id)
      case None => None
      case Some(k) => Some(users[k])
  }

  /** What `apiTopUp(userId, amount, _)` does to the table and the session, and what it returns. */
  ghost predicate TopUpEffect(users: seq<User>, session: Option<User>, userId: string, amount: int,
                              users': seq<User>, session': Option<User>, r: Result<User, BackendError>)
  {
    match IndexOfId(users, userId)
    case None => r == Failure(UserNotFound) && users' == users && session' == session
    case Some(k) =>
      && users' == users[k := Credited(users[k], amount)]
      && r == Success(users'[k])
      && session' == SessionAfterWrite(session, userId, users'[k])
  }

  /** What `apiBuyVip(userId, durationDays, price, _)` at instant `now` does and returns. */
  ghost predicate BuyVipEffect(users: seq<User>, session: Option<User>, userId: string,
                               durationDays: int, price: int, now: int,
                               users': seq<User>, session': Option<User>, r: Result<User, BackendError>)
  {
    match IndexOfId(users, userId)
    case None => r == Failure(UserNotFound) && users' == users && session' == session
    case Some(k) =>
      if BalanceOf(users[k]) < price then
        r == Failure(InsufficientBalance) && users' == users && session' == session
      else
        && users' == users[k := Purchased(users[k], durationDays, price, now)]
        && r == Success(users'[k])
        && session' == SessionAfterWrite(session, userId, users'[k])
  }

  /** A purchase on an active plan stacks on its expiry: e.g. 10 days left and a 30-day plan
      end 40 days from now. */
  lemma VipStacksOnActivePlan(expiry: int, now: int, days: int)
    requires expiry > now
    ensures NewExpiry(Some(expiry), now, days) == expiry + days * DayMs
    ensures expiry == now + 10 * DayMs ==> NewExpiry(Some(expiry), now, 30) == now + 40 * DayMs
  {
  }

  /** A purchase with no plan or a lapsed one starts from now. */
  lemma VipRestartsWhenLapsed(expiry: Option<int>, now: int, days: int)
    requires expiry.None? || expiry.value <= now
    ensures NewExpiry(expiry, now, days) == now + days * DayMs
  {
  }

  /** The wallet facts of a purchase: on success only the buyer's record changes, its balance
      falls by exactly `price` and stays non-negative; on failure nothing changes. */
  lemma BuyVipWallet(users: seq<User>, session: Option<User>, userId: string,
                     durationDays: int, price: int, now: int,
                     users': seq<User>, session': Option<User>, r: Result<User, BackendError>)
    requires BuyVipEffect(users, session, userId, durationDays, price, now, users', session', r)
    ensures r.Failure? ==> users' == users && session' == session
    ensures r.Success? ==>
      && IndexOfId(users, userId).Some?
      && var k := IndexOfId(users, userId).value;
      && |users'| == |users|
      && (forall j :: 0 <= j < |users| && j != k ==> users'[j] == users[j])
      && r.value == users'[k] && r.value.id == userId
      && BalanceOf(users'[k]) == BalanceOf(users[k]) - price >= 0
      && users'[k].vipExpiry == Some(NewExpiry(users[k].vipExpiry, now, durationDays))
  {
  }

  /** The wallet facts of a deposit: only the target's balance changes, by `amount`. */
  lemma TopUpWallet(users: seq<User>, session: Option<User>, userId: string, amount: int,
                    users': seq<User>, session': Option<User>, r: Result<User, BackendError>)
    requires TopUpEffect(users, session, userId, amount, users', session', r)
    ensures r.Failure? <==> (forall j :: 0 <= j < |users| ==> users[j].id != userId)
    ensures r.Failure? ==> users' == users && session' == session
    ensures r.Success? ==>
      && var k := IndexOfId(users, userId).value;
      && |users'| == |users|
      && (forall j :: 0 <= j < |users| && j != k ==> users'[j] == users[j])
      && BalanceOf(users'[k]) == BalanceOf(users[k]) + amount
      && users'[k].email == users[k].email && users'[k].vipExpiry == users[k].vipExpiry
  {
  }

  /** After a successful deposit by the logged-in user, the profile the context fetches next is
      the credited record. */
  lemma TopUpSeenByProfile(users: seq<User>, session: Option<User>, userId: string, amount: int,
                           users': seq<User>, session': Option<User>, r: Result<User, BackendError>)
    requires TopUpEffect(users, session, userId, amount, users', session', r)
    requires r.Success? && session.Some? && session.value.id == userId
    ensures ProfileOf(users', session') == Some(r.value)
    ensures BalanceOf(ProfileOf(users', session').value) == BalanceOf(ProfileOf(users, session).value) + amount
  {
    var k := IndexOfId(users, userId).value;
    assert IndexOfId(users', userId) == Some(k);
  }

  /** After a successful purchase by the logged-in user, the profile fetched next is the record
      with the price taken and the new expiry. */
  lemma BuyVipSeenByProfile(users: seq<User>, session: Option<User>, userId: string,
                            durationDays: int, price: int, now: int,
                            users': seq<User>, session': Option<User>, r: Result<User, BackendError>)
    requires BuyVipEffect(users, session, userId, durationDays, price, now, users', session', r)
    requires r.Success? && session.Some? && session.value.id == userId
    ensures ProfileOf(users', session') == Some(r.value)
    ensures BalanceOf(ProfileOf(users', session').value) == BalanceOf(ProfileOf(users, session).value) - price
  {
    var k := IndexOfId(users, userId).value;
    assert IndexOfId(users', userId) == Some(k);
  }

  class Backend {
    var users: seq<User>
    var session: Option<User>

    /** Whatever the store held before the page loaded. */
    constructor (storedUsers: seq<User>, storedSession: Option<User>)
      ensures users == storedUsers && session == storedSession
    {
      users := storedUsers;
      session := storedSession;
    }

    /** `apiLogin`: succeeds exactly when a stored user matches email and password; the first
        such user is returned, and the session becomes (a snapshot of) it. */
    method Login(email: string, password: string) returns (r: Result<User, BackendError>)
      modifies this`session
      ensures r.Success? <==> exists j :: 0 <= j < |users| && users[j].email == email && users[j].password == password
      ensures r.Success? ==> r.value in users && r.value.email == email && r.value.password == password
      ensures r.Success? ==> r.value == users[IndexOfCredentials(users, email, password).value]
      ensures r.Success? ==> session == Some(r.value)
      ensures r.Failure? ==> r.error == InvalidCredentials && session == old(session)
    {
      match IndexOfCredentials(users, email, password)
      case None =>
        r := Failure(InvalidCredentials);
      case Some(k) =>
        session := Some(users[k]);
        r := Success(users[k]);
    }

    /** `apiRegister`: refused, with nothing written, when the email is taken; otherwise appends
        exactly one new user and logs it in. */
    method Register(email: string, password: string, name: string, now: nat) returns (r: Result<User, BackendError>)
      modifies this
      ensures (exists j :: 0 <= j < |old(users)| && old(users)[j].email == email) ==>
        r == Failure(EmailInUse) && users == old(users) && session == old(session)
      ensures (forall j :: 0 <= j < |old(users)| ==> old(users)[j].email != email) ==>
        && r == Success(NewUser(email, password, name, now))
        && users == old(users) + [r.value]
        && session == Some(r.value)
      ensures EmailsUnique(old(users)) ==> EmailsUnique(users)
    {
      if IndexOfEmail(users, email).Some? {
        r := Failure(EmailInUse);
        return;
      }
      var u := NewUser(email, password, name, now);
      users := users + [u];
      session := Some(u);
      r := Success(u);
    }

    /** `apiLogout`: removes the session. */
    method Logout()
      modifies this`session
      ensures session == None
      ensures ProfileOf(users, session) == None
    {
      session := None;
    }

    /** `apiGetProfile`. */
    method GetProfile() returns (r: Option<User>)
      ensures r == ProfileOf(users, session)
    {
      match session
      case None =>
        r := None;
      case Some(s) =>
        match IndexOfId(users, s.id)
        case None =>
          r := None;
        case Some(k) =>
          r := Some(users[k]);
    }

    /** `apiTopUp`: an unknown id is refused with nothing written; otherwise only the target's
        balance changes, by `amount`, and the session follows when it is that user's. */
    method TopUp(userId: string, amount: int, payMethod: string) returns (r: Result<User, BackendError>)
      modifies this
      ensures TopUpEffect(old(users), old(session), userId, amount, users, session, r)
      ensures EmailsUnique(old(users)) ==> EmailsUnique(users)
    {
      var found := IndexOfId(users, userId);
      if found.None? {
        r := Failure(UserNotFound);
        return;
      }
      var k := found.value;
      users := users[k := Credited(users[k], amount)];
      session := SessionAfterWrite(session, userId, users[k]);
      r := Success(users[k]);
    }

    /** `apiBuyVip`: refused with nothing written for an unknown id or a balance below `price`;
        otherwise the balance drops by exactly `price` and the expiry is extended. */
    method BuyVip(userId: string, durationDays: int, price: int, planName: string, now: int)
      returns (r: Result<User, BackendError>)
      modifies this
      ensures BuyVipEffect(old(users), old(session), userId, durationDays, price, now, users, session, r)
      ensures EmailsUnique(old(users)) ==> EmailsUnique(users)
    {
      var found := IndexOfId(users, userId);
      if found.None? {
        r := Failure(UserNotFound);
        return;
      }
      var k := found.value;
      if BalanceOf(users[k]) < price {
        r := Failure(InsufficientBalance);
        return;
      }
      users := users[k := Purchased(users[k], durationDays, price, now)];
      session := SessionAfterWrite(session, userId, users[k]);
      r := Success(users[k]);
    }
  }
}
