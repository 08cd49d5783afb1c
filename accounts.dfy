/**
  User accounts: registration with a system-generated first password, the expiry
  of accounts of the WITH_EXPIRATION type, the status gates of login and of the
  session cookie, the password reset that activates a new account, and the
  lifecycle relabelling behind soft deletion.
 */
module Accounts {
  import opened Values
  import opened Failures
  import opened AccountPolicy

  type AccountId = string

  /** The ACCOUNT_LIFECYCLE lookups. */
  datatype AccountState = Created | Active | Disabled | Expired | Deleted

  function StateCode(s: AccountState): string
  {
    match s
    case Created => "CREATED"
    case Active => "ACTIVE"
    case Disabled => "DISABLED"
    case Expired => "EXPIRED"
    case Deleted => "DELETED"
  }

  /** `resolveLifecycle(code)`: the seeded lifecycle with that code, if any. */
  function StateOfCode(code: string): (r: Option<AccountState>)
    ensures r.Some? ==> StateCode(r.value) == code
    ensures forall s :: StateCode(s) == code ==> r == Some(s)
  {
    if code == "CREATED" then Some(Created)
    else if code == "ACTIVE" then Some(Active)
    else if code == "DISABLED" then Some(Disabled)
    else if code == "EXPIRED" then Some(Expired)
    else if code == "DELETED" then Some(Deleted)
    else None
  }

  const WithExpiration: string := "WITH_EXPIRATION"
  const Permanent: string := "PERMANENT"

  /** A stored account; `password` is the hash of the password. */
  datatype Account = Account(
    id: AccountId,
    username: string,
    password: string,
    fullName: string,
    phoneNumber: Option<string>,
    email: Option<string>,
    accountType: int,
    accountRole: Option<int>,
    expiry: Option<int>,
    mustChangePassword: bool,
    passwordLastChanged: Option<int>,
    lastLoginTime: Option<int>,
    lifecycle: AccountState)

  /** A registration body: None is an absent key. On the optional fields, which the
      schema does not make nullable, `Some(None)` is an explicit null; on the required
      ones null is refused as missing, exactly as absence is, and folded into None.
      The type and role are lookup ids. */
  datatype AccountInput = AccountInput(
    username: Option<string>,
    fullName: Option<string>,
    phoneNumber: Option<Option<string>>,
    email: Option<Option<string>>,
    accountType: Option<int>,
    accountRole: Option<int>,
    expiry: Option<Option<BodyDate>>)

  /** What registration answers: the account and its first password in clear. */
  datatype Registered = Registered(account: Account, initialPassword: string)

  // ---------------------------------------------------------------------------
  // Registration

  /** A required string is present and not empty. */
  predicate Given(s: Option<string>)
  {
    s.Some? && s.value != ""
  }

  /** `x || null` on an optional string field: the string when it is present and
      not empty. */
  function OrNull(s: Option<Option<string>>): (r: Option<string>)
    ensures r.Some? <==> s.Some? && s.value.Some? && s.value.value != ""
    ensures r.Some? ==> r.value == s.value.value
  {
    if s.Some? && s.value.Some? && s.value.value != "" then s.value else None
  }

  /** The registration schema: None exactly when the body meets every rule. For a
      body that breaks several rules the model reports the first one in its own
      order below, which need not be the one the schema library reports first. */
  function SchemaIssue(d: AccountInput, isEmail: string -> bool): (r: Option<string>)
    ensures r.None? <==>
      && Given(d.username) && UsernameOk(d.username.value) && Given(d.fullName)
      && d.phoneNumber != Some(None) && d.email != Some(None) && d.expiry != Some(None)
      && (OrNull(d.email).Some? ==> isEmail(OrNull(d.email).value))
      && d.accountType.Some? && d.accountRole.Some?
  {
    UsernamePolicy(if d.username.Some? then d.username.value else "");
    if !Given(d.username) then Some("username is a required field")
    else if !MatchesUsername(d.username.value) then Some("username must match the following: \"/^[a-z][a-z0-9_]{3,19}$/\"")
    else if !Given(d.fullName) then Some("full_name is a required field")
    else if d.phoneNumber == Some(None) then Some("phone_number must be a `string` type")
    else if d.email == Some(None) then Some("email must be a `string` type")
    else if OrNull(d.email).Some? && !isEmail(OrNull(d.email).value) then Some("email must be a valid email")
    else if d.accountType.None? then Some("account_type is a required field")
    else if d.accountRole.None? then Some("account_role is a required field")
    else if d.expiry == Some(None) then Some("account_expiry_date must be a `date` type")
    else None
  }

  /** `data.account_expiry_date` as a condition: present and truthy. */
  predicate ExpiryGiven(e: Option<Option<BodyDate>>)
  {
    e.Some? && e.value.Some? && e.value.value.truthy
  }

  /** The date the new account stores: `account_expiry_date ? new Date(...) : null`. */
  function StoredExpiry(e: Option<Option<BodyDate>>): Option<int>
  {
    if ExpiryGiven(e) then Some(e.value.value.time) else None
  }

  /** What the expiry rule demands of an account's stored date: an account of the
      WITH_EXPIRATION type has one and a PERMANENT one has none. */
  predicate ExpiryKept(code: string, expiry: Option<int>)
  {
    (code == WithExpiration ==> expiry.Some?) && (code == Permanent ==> expiry.None?)
  }

  /** The expiry-date rule of the account type with code `code`, on the body's value
      as a condition: an account that expires needs a truthy date, a permanent one
      must not have one (a falsy date such as 0 passes, and is stored as null), and
      any other type takes either. It holds exactly when the date the account would
      store keeps the rule. */
  function ExpiryRule(code: string, expiry: Option<Option<BodyDate>>): (r: Result<()>)
    ensures r.Ok? <==> (code == WithExpiration ==> ExpiryGiven(expiry)) && (code == Permanent ==> !ExpiryGiven(expiry))
    ensures r.Ok? <==> ExpiryKept(code, StoredExpiry(expiry))
  {
    if code == WithExpiration && !ExpiryGiven(expiry) then
      Fail(Rejected("account_expiry_date is required for WITH_EXPIRATION accounts"))
    else if code == Permanent && ExpiryGiven(expiry) then
      Fail(Rejected("account_expiry_date must be null for PERMANENT accounts"))
    else Ok(())
  }

  /** The new account: the body's values, the hash of the generated password, a
      password that must be changed and has never been, and lifecycle CREATED. */
  function NewAccount(id: AccountId, d: AccountInput, hashed: string): Account
    requires d.username.Some? && d.fullName.Some? && d.accountType.Some? && d.accountRole.Some?
  {
    Account(
      id := id,
      username := d.username.value,
      password := hashed,
      fullName := d.fullName.value,
      phoneNumber := OrNull(d.phoneNumber),
      email := OrNull(d.email),
      accountType := d.accountType.value,
      accountRole := if d.accountRole.value != 0 then d.accountRole else None,
      expiry := StoredExpiry(d.expiry),
      mustChangePassword := true,
      passwordLastChanged := None,
      lastLoginTime := None,
      lifecycle := Created)
  }

  const UsernameTaken: Failure := Rejected("Username already exists")
  const TypeMissing: Failure := Rejected("account_type lookup not found")
  const BadGeneratedPassword: Failure := Rejected("Failed to generate a valid initial password")
  const AccountIdInUse: Failure := StorageError("Account id already in use")

  /** `add`, with `id` the id the table mints and `generated` the generated
      password: the schema, the free username, the type lookup, the expiry rule of
      the type, the password rule on the generated password, and the write. */
  function Register(accounts: map<AccountId, Account>, byUsername: map<string, AccountId>,
                    typeCodes: map<int, string>, hash: string -> string, isEmail: string -> bool,
                    d: AccountInput, id: AccountId, generated: string): Result<Registered>
  {
    match SchemaIssue(d, isEmail)
    case Some(m) => Fail(Rejected(m))
    case None =>
      if d.username.value in byUsername then Fail(UsernameTaken)
      else if d.accountType.value !in typeCodes then Fail(TypeMissing)
      else
        match ExpiryRule(typeCodes[d.accountType.value], d.expiry)
        case Fail(f) => Fail(f)
        case Ok(_) =>
          if !PasswordOk(generated) then Fail(BadGeneratedPassword)
          else if id in accounts then Fail(AccountIdInUse)
          else Ok(Registered(NewAccount(id, d, hash(generated)), generated))
  }

  /** Registration succeeds exactly when the body meets the schema, the username
      is free, the type exists and its expiry rule holds, the generated password
      meets the password rule and the id is new; the account is then CREATED,
      must change its password, has never changed it, and keeps the body's
      username and type. */
  lemma RegisterSucceeds(accounts: map<AccountId, Account>, byUsername: map<string, AccountId>,
                         typeCodes: map<int, string>, hash: string -> string, isEmail: string -> bool,
                         d: AccountInput, id: AccountId, generated: string)
    ensures var r := Register(accounts, byUsername, typeCodes, hash, isEmail, d, id, generated);
      && (r.Ok? <==>
            && SchemaIssue(d, isEmail).None?
            && d.username.value !in byUsername && d.accountType.value in typeCodes
            && ExpiryRule(typeCodes[d.accountType.value], d.expiry).Ok?
            && PasswordOk(generated) && id !in accounts)
      && (r.Ok? ==>
            && r.value.account.id == id && r.value.initialPassword == generated
            && r.value.account.username == d.username.value && UsernameOk(r.value.account.username)
            && r.value.account.accountType == d.accountType.value
            && r.value.account.password == hash(generated)
            && r.value.account.lifecycle == Created
            && r.value.account.mustChangePassword && r.value.account.passwordLastChanged.None?
            && r.value.account.lastLoginTime.None?
            && (r.value.account.expiry.Some? <==> ExpiryGiven(d.expiry))
            && (r.value.account.email.Some? <==> d.email.Some? && d.email.value.Some? && d.email.value.value != "")
            && r.value.account.fullName == d.fullName.value
            && r.value.account.phoneNumber == OrNull(d.phoneNumber)
            && r.value.account.email == OrNull(d.email)
            && (ExpiryGiven(d.expiry) ==> r.value.account.expiry == Some(d.expiry.value.value.time))
            && (d.accountRole.value == 0 ==> r.value.account.accountRole.None?)
            && (d.accountRole.value != 0 ==> r.value.account.accountRole == Some(d.accountRole.value)))
      && (SchemaIssue(d, isEmail).None? && d.username.value in byUsername ==> r == Fail(UsernameTaken))
  {
  }

  /** The expiry rule, as the registration leaves it in the new account: an account
      of the WITH_EXPIRATION type has a date and a PERMANENT one has none. */
  lemma RegisteredKeepsExpiryRule(accounts: map<AccountId, Account>, byUsername: map<string, AccountId>,
                                  typeCodes: map<int, string>, hash: string -> string, isEmail: string -> bool,
                                  d: AccountInput, id: AccountId, generated: string)
    requires Register(accounts, byUsername, typeCodes, hash, isEmail, d, id, generated).Ok?
    ensures var a := Register(accounts, byUsername, typeCodes, hash, isEmail, d, id, generated).value.account;
      && a.accountType in typeCodes
      && (typeCodes[a.accountType] == WithExpiration ==> a.expiry.Some?)
      && (typeCodes[a.accountType] == Permanent ==> a.expiry.None?)
  {
  }

  // ---------------------------------------------------------------------------
  // Expiry and the status gates

  /** `expireIfNeeded` on one account, `code` being the code of its type: the
      account becomes EXPIRED when its type expires, it has a date and the date has
      come; otherwise it is returned as it was. */
  function Expire(a: Account, code: string, now: int): (r: Account)
    ensures r == a || r == a.(lifecycle := Expired)
    ensures r.lifecycle == Expired <==> a.lifecycle == Expired || (code == WithExpiration && a.expiry.Some? && a.expiry.value <= now)
  {
    if code == WithExpiration && a.expiry.Some? && a.expiry.value <= now then a.(lifecycle := Expired) else a
  }

  /** Expiring twice is expiring once, and an account expired at some time is still
      expired later. */
  lemma ExpireIsIdempotentAndMonotone(a: Account, code: string, now: int, later: int)
    requires now <= later
    ensures Expire(Expire(a, code, now), code, now) == Expire(a, code, now)
    ensures Expire(a, code, now).lifecycle == Expired ==> Expire(a, code, later).lifecycle == Expired
  {
  }

  /** The status gate of `login`, after expiry. */
  function LoginGate(s: AccountState): (r: Result<()>)
    ensures r.Ok? <==> s == Created || s == Active
  {
    match s
    case Deleted => Fail(NotFound("Account not found"))
    case Disabled => Fail(Forbidden("Account disabled"))
    case Expired => Fail(Forbidden("Account expired"))
    case _ => Ok(())
  }

  /** The status gate of `validateCookie`, after expiry. */
  function CookieGate(s: AccountState): (r: Result<()>)
    ensures r.Ok? <==> s == Created || s == Active
    ensures r.Fail? ==> r.failure == Unauthorized("Invalid cookie")
  {
    match s
    case Created => Ok(())
    case Active => Ok(())
    case _ => Fail(Unauthorized("Invalid cookie"))
  }

  /** The two gates let the same lifecycle states through. */
  lemma GatesAgree(s: AccountState)
    ensures LoginGate(s).Ok? <==> CookieGate(s).Ok?
  {
  }

  /** The code of an account's type, empty when the type is not a lookup. */
  function TypeCode(typeCodes: map<int, string>, a: Account): string
  {
    if a.accountType in typeCodes then typeCodes[a.accountType] else ""
  }

  const BadCredentials: Failure := Unauthorized("Invalid credentials")

  /** `login`: the answer and the table afterwards. The account found by username is
      expired if needed (and that is written whatever follows), then the status
      gate and the password are checked, and only a successful login stamps
      last_login_time. The account returned is the one read before the stamp. */
  function SignIn(accounts: map<AccountId, Account>, byUsername: map<string, AccountId>,
                  typeCodes: map<int, string>, hash: string -> string,
                  username: string, password: string, now: int): (Result<Account>, map<AccountId, Account>)
  {
    if username !in byUsername || byUsername[username] !in accounts then (Fail(BadCredentials), accounts)
    else
      var id := byUsername[username];
      var a := Expire(accounts[id], TypeCode(typeCodes, accounts[id]), now);
      var table := accounts[id := a];
      match LoginGate(a.lifecycle)
      case Fail(f) => (Fail(f), table)
      case Ok(_) =>
        if hash(password) != a.password then (Fail(BadCredentials), table)
        else (Ok(a), table[id := a.(lastLoginTime := Some(now))])
  }

  /** A login succeeds exactly when the username is known, the account is CREATED or
      ACTIVE once expired if needed, and the password hashes to the stored hash.
      Only the account logging in changes: its lifecycle by expiry, and its
      last_login_time, which is stamped on success only. */
  lemma SignInMeaning(accounts: map<AccountId, Account>, byUsername: map<string, AccountId>,
                      typeCodes: map<int, string>, hash: string -> string,
                      username: string, password: string, now: int)
    requires username in byUsername && byUsername[username] in accounts
    ensures var id := byUsername[username];
      var a := Expire(accounts[id], TypeCode(typeCodes, accounts[id]), now);
      var (r, table) := SignIn(accounts, byUsername, typeCodes, hash, username, password, now);
      && (r.Ok? <==> (a.lifecycle == Created || a.lifecycle == Active) && hash(password) == a.password)
      && (r.Ok? ==> table == accounts[id := a.(lastLoginTime := Some(now))] && r.value == a)
      && (r.Fail? ==> table == accounts[id := a])
      && (a.lifecycle == Deleted ==> r == Fail(NotFound("Account not found")))
      && (a.lifecycle == Disabled ==> r == Fail(Forbidden("Account disabled")))
      && (a.lifecycle == Expired ==> r == Fail(Forbidden("Account expired")))
  {
  }

  /** An account whose expiry date has come cannot log in, whatever the password:
      unless it is already deleted or disabled, the refusal is "Account expired". */
  lemma ExpiredCannotSignIn(accounts: map<AccountId, Account>, byUsername: map<string, AccountId>,
                            typeCodes: map<int, string>, hash: string -> string,
                            username: string, password: string, now: int)
    requires username in byUsername && byUsername[username] in accounts
    requires var a := accounts[byUsername[username]];
      TypeCode(typeCodes, a) == WithExpiration && a.expiry.Some? && a.expiry.value <= now
      && a.lifecycle != Deleted && a.lifecycle != Disabled
    ensures SignIn(accounts, byUsername, typeCodes, hash, username, password, now).0 == Fail(Forbidden("Account expired"))
  {
  }

  /** An unknown username is refused like a wrong password and writes nothing. */
  lemma UnknownUserCannotSignIn(accounts: map<AccountId, Account>, byUsername: map<string, AccountId>,
                                typeCodes: map<int, string>, hash: string -> string,
                                username: string, password: string, now: int)
    requires username !in byUsername
    ensures SignIn(accounts, byUsername, typeCodes, hash, username, password, now) == (Fail(BadCredentials), accounts)
  {
  }

  /** `validateCookie`: the answer and the table afterwards (expiry is written). */
  function CheckCookie(accounts: map<AccountId, Account>, typeCodes: map<int, string>, id: AccountId, now: int)
    : (Result<Account>, map<AccountId, Account>)
  {
    if id !in accounts then (Fail(Unauthorized("Invalid cookie")), accounts)
    else
      var a := Expire(accounts[id], TypeCode(typeCodes, accounts[id]), now);
      match CookieGate(a.lifecycle)
      case Fail(f) => (Fail(f), accounts[id := a])
      case Ok(_) => (Ok(a), accounts[id := a])
  }

  /** A cookie is accepted exactly when its account exists and, expired if needed,
      is CREATED or ACTIVE; it is then the account's. Every refusal is "Invalid
      cookie", and only expiry is written. */
  lemma CheckCookieMeaning(accounts: map<AccountId, Account>, typeCodes: map<int, string>, id: AccountId, now: int)
    ensures var (r, table) := CheckCookie(accounts, typeCodes, id, now);
      && (r.Ok? <==> id in accounts && Expire(accounts[id], TypeCode(typeCodes, accounts[id]), now).lifecycle in {Created, Active})
      && (r.Ok? ==> r.value == Expire(accounts[id], TypeCode(typeCodes, accounts[id]), now))
      && (r.Fail? ==> r.failure == Unauthorized("Invalid cookie"))
      && (id in accounts ==> table == accounts[id := Expire(accounts[id], TypeCode(typeCodes, accounts[id]), now)])
      && (id !in accounts ==> table == accounts)
  {
  }

  // ---------------------------------------------------------------------------
  // Password reset and lifecycle changes

  const WeakPassword: Failure := Rejected("Password does not meet complexity rules")
  const AccountNotFound: Failure := NotFound("Account not found")

  /** `resetPassword` at time `now`: a password that breaks the rule is refused, a
      missing or DELETED account is not found; otherwise the hash is replaced, the
      password no longer has to be changed, the change is dated, and a CREATED
      account becomes ACTIVE. */
  function Reset(accounts: map<AccountId, Account>, hash: string -> string, id: AccountId,
                 newPassword: string, now: int): Result<Account>
  {
    if !PasswordOk(newPassword) then Fail(WeakPassword)
    else if id !in accounts || accounts[id].lifecycle == Deleted then Fail(AccountNotFound)
    else
      var a := accounts[id];
      Ok(a.(password := hash(newPassword), mustChangePassword := false, passwordLastChanged := Some(now),
            lifecycle := if a.lifecycle == Created then Active else a.lifecycle))
  }

  lemma ResetMeaning(accounts: map<AccountId, Account>, hash: string -> string, id: AccountId,
                     newPassword: string, now: int)
    ensures var r := Reset(accounts, hash, id, newPassword, now);
      && (r.Ok? <==> PasswordOk(newPassword) && id in accounts && accounts[id].lifecycle != Deleted)
      && (!PasswordOk(newPassword) ==> r == Fail(WeakPassword))
      && (r.Ok? ==>
            && r.value.password == hash(newPassword) && !r.value.mustChangePassword
            && r.value.passwordLastChanged == Some(now)
            && (accounts[id].lifecycle == Created ==> r.value.lifecycle == Active)
            && (accounts[id].lifecycle != Created ==> r.value.lifecycle == accounts[id].lifecycle)
            && r.value.(password := accounts[id].password, mustChangePassword := accounts[id].mustChangePassword,
                        passwordLastChanged := accounts[id].passwordLastChanged,
                        lifecycle := accounts[id].lifecycle) == accounts[id])
  {
  }

  const RecordMissing: Failure := StorageError("Record to update not found")

  /** `setLifecycle`: a code no lifecycle has is refused; the update of a missing
      account fails in the database; otherwise only the lifecycle changes. */
  function Relabel(accounts: map<AccountId, Account>, id: AccountId, code: string): (r: Result<Account>)
  {
    match StateOfCode(code)
    case None => Fail(Rejected("ACCOUNT_LIFECYCLE " + code + " not seeded"))
    case Some(s) =>
      if id !in accounts then Fail(RecordMissing) else Ok(accounts[id].(lifecycle := s))
  }

  lemma RelabelMeaning(accounts: map<AccountId, Account>, id: AccountId, code: string)
    ensures var r := Relabel(accounts, id, code);
      && (r.Ok? <==> StateOfCode(code).Some? && id in accounts)
      && (r.Ok? ==> StateCode(r.value.lifecycle) == code && r.value == accounts[id].(lifecycle := r.value.lifecycle))
  {
  }

  /** A soft-deleted account can no longer log in or hold a session, and its
      password can no longer be reset. */
  lemma SoftDeleteLocksOut(accounts: map<AccountId, Account>, byUsername: map<string, AccountId>,
                           typeCodes: map<int, string>, hash: string -> string, id: AccountId,
                           password: string, now: int)
    requires id in accounts && accounts[id].username in byUsername && byUsername[accounts[id].username] == id
    ensures var after := accounts[id := Relabel(accounts, id, "DELETED").value];
      var r := SignIn(after, byUsername, typeCodes, hash, accounts[id].username, password, now).0;
      && (r == Fail(AccountNotFound) || r == Fail(Forbidden("Account expired")))
      && CheckCookie(after, typeCodes, id, now).0.Fail?
      && Reset(after, hash, id, password, now).Fail?
  {
    var after := accounts[id := Relabel(accounts, id, "DELETED").value];
    assert after[id].lifecycle == Deleted;
  }

  /** Expiry does not look at the lifecycle: a DELETED (or DISABLED) account of the
      WITH_EXPIRATION type whose date has come is rewritten to EXPIRED by any login
      attempt, and is then refused as expired rather than as not found. */
  lemma ExpiryOverridesDeletion(accounts: map<AccountId, Account>, byUsername: map<string, AccountId>,
                                typeCodes: map<int, string>, hash: string -> string,
                                username: string, password: string, now: int)
    requires username in byUsername && byUsername[username] in accounts
    requires var a := accounts[byUsername[username]];
      a.lifecycle == Deleted && TypeCode(typeCodes, a) == WithExpiration && a.expiry.Some? && a.expiry.value <= now
    ensures var (r, table) := SignIn(accounts, byUsername, typeCodes, hash, username, password, now);
      r == Fail(Forbidden("Account expired")) && table[byUsername[username]].lifecycle == Expired
  {
  }

  // ---------------------------------------------------------------------------
  // The store

  /** The username index of the table: each username names the account that has
      it, and each account is under its own username. */
  ghost predicate IndexAgrees(accounts: map<AccountId, Account>, byUsername: map<string, AccountId>)
  {
    && (forall u :: u in byUsername ==> byUsername[u] in accounts && accounts[byUsername[u]].username == u)
    && (forall id :: id in accounts ==> accounts[id].username in byUsername && byUsername[accounts[id].username] == id)
  }

  /** The table's invariant: ids match keys, usernames are unique (through the
      index), every type is a lookup and every account keeps the expiry rule of
      its type. */
  ghost predicate AccountsInvariant(accounts: map<AccountId, Account>, byUsername: map<string, AccountId>,
                                    typeCodes: map<int, string>)
  {
    && IndexAgrees(accounts, byUsername)
    && (forall id :: id in accounts ==> accounts[id].id == id)
    && (forall id :: id in accounts ==> accounts[id].accountType in typeCodes
                                        && ExpiryKept(typeCodes[accounts[id].accountType], accounts[id].expiry))
  }

  /** No two accounts share a username. */
  lemma UsernamesUnique(accounts: map<AccountId, Account>, byUsername: map<string, AccountId>,
                        typeCodes: map<int, string>, i: AccountId, j: AccountId)
    requires AccountsInvariant(accounts, byUsername, typeCodes)
    requires i in accounts && j in accounts && i != j
    ensures accounts[i].username != accounts[j].username
  {
  }

  /** Rewriting an account without touching its id, username, type or expiry date
      keeps the invariant. */
  lemma RewriteKeepsInvariant(accounts: map<AccountId, Account>, byUsername: map<string, AccountId>,
                              typeCodes: map<int, string>, a: Account)
    requires AccountsInvariant(accounts, byUsername, typeCodes)
    requires a.id in accounts && a.username == accounts[a.id].username
    requires a.accountType == accounts[a.id].accountType && a.expiry == accounts[a.id].expiry
    ensures AccountsInvariant(accounts[a.id := a], byUsername, typeCodes)
  {
  }

  /** Adding a registered account, with its username in the index, keeps the
      invariant. */
  lemma RegisterKeepsInvariant(accounts: map<AccountId, Account>, byUsername: map<string, AccountId>,
                               typeCodes: map<int, string>, hash: string -> string, isEmail: string -> bool,
                               d: AccountInput, id: AccountId, generated: string)
    requires AccountsInvariant(accounts, byUsername, typeCodes)
    requires Register(accounts, byUsername, typeCodes, hash, isEmail, d, id, generated).Ok?
    ensures var a := Register(accounts, byUsername, typeCodes, hash, isEmail, d, id, generated).value.account;
      AccountsInvariant(accounts[id := a], byUsername[a.username := id], typeCodes)
  {
    var a := Register(accounts, byUsername, typeCodes, hash, isEmail, d, id, generated).value.account;
    RegisteredKeepsExpiryRule(accounts, byUsername, typeCodes, hash, isEmail, d, id, generated);
    assert a.username !in byUsername;
  }

  class AccountStore {
    var accounts: map<AccountId, Account>
    var byUsername: map<string, AccountId>
    const typeCodes: map<int, string>
    const hash: string -> string
    const isEmail: string -> bool

    ghost predicate Valid()
      reads this
    {
      AccountsInvariant(accounts, byUsername, typeCodes)
    }

    constructor(codes: map<int, string>, h: string -> string, emailCheck: string -> bool)
      ensures Valid() && accounts == map[] && byUsername == map[]
      ensures typeCodes == codes && hash == h && isEmail == emailCheck
    {
      accounts := map[];
      byUsername := map[];
      typeCodes := codes;
      hash := h;
      isEmail := emailCheck;
    }

    /** `add`, with `id` the id the table mints and `generated` the password the
        generator produced. */
    method Add(d: AccountInput, id: AccountId, generated: string) returns (r: Result<Registered>)
      requires Valid()
      modifies this
      ensures Valid()
      ensures r == Register(old(accounts), old(byUsername), typeCodes, hash, isEmail, d, id, generated)
      ensures r.Ok? ==> accounts == old(accounts)[id := r.value.account]
                        && byUsername == old(byUsername)[r.value.account.username := id]
      ensures r.Fail? ==> accounts == old(accounts) && byUsername == old(byUsername)
    {
      var issue := SchemaIssue(d, isEmail);
      if issue.Some? {
        return Fail(Rejected(issue.value));
      }
      if d.username.value in byUsername {
        return Fail(UsernameTaken);
      }
      if d.accountType.value !in typeCodes {
        return Fail(TypeMissing);
      }
      var rule := ExpiryRule(typeCodes[d.accountType.value], d.expiry);
      if rule.Fail? {
        return Fail(rule.failure);
      }
      if !PasswordOk(generated) {
        return Fail(BadGeneratedPassword);
      }
      if id in accounts {
        return Fail(AccountIdInUse);
      }
      var account := NewAccount(id, d, hash(generated));
      RegisterKeepsInvariant(accounts, byUsername, typeCodes, hash, isEmail, d, id, generated);
      accounts := accounts[id := account];
      byUsername := byUsername[account.username := id];
      r := Ok(Registered(account, generated));
    }

    /** `expireIfNeeded` on the stored account `id` at time `now`. */
    method ExpireIfNeeded(id: AccountId, now: int) returns (a: Account)
      requires Valid() && id in accounts
      modifies this
      ensures Valid()
      ensures a == Expire(old(accounts)[id], TypeCode(typeCodes, old(accounts)[id]), now)
      ensures accounts == old(accounts)[id := a] && byUsername == old(byUsername)
    {
      a := accounts[id];
      if TypeCode(typeCodes, a) == WithExpiration && a.expiry.Some? && a.expiry.value <= now {
        a := a.(lifecycle := Expired);
        RewriteKeepsInvariant(accounts, byUsername, typeCodes, a);
        accounts := accounts[id := a];
      } else {
        assert accounts[id := a] == accounts;
      }
    }

    /** `login` at time `now`. */
    method Login(username: string, password: string, now: int) returns (r: Result<Account>)
      requires Valid()
      modifies this
      ensures Valid()
      ensures (r, accounts) == SignIn(old(accounts), old(byUsername), typeCodes, hash, username, password, now)
      ensures byUsername == old(byUsername)
    {
      if username !in byUsername {
        return Fail(BadCredentials);
      }
      var id := byUsername[username];
      var a := ExpireIfNeeded(id, now);
      var gate := LoginGate(a.lifecycle);
      if gate.Fail? {
        return Fail(gate.failure);
      }
      if hash(password) != a.password {
        return Fail(BadCredentials);
      }
      RewriteKeepsInvariant(accounts, byUsername, typeCodes, a.(lastLoginTime := Some(now)));
      accounts := accounts[id := a.(lastLoginTime := Some(now))];
      r := Ok(a);
    }

    /** `resetPassword` at time `now`. */
    method ResetPassword(id: AccountId, newPassword: string, now: int) returns (r: Result<Account>)
      requires Valid()
      modifies this
      ensures Valid()
      ensures r == Reset(old(accounts), hash, id, newPassword, now)
      ensures r.Ok? ==> accounts == old(accounts)[id := r.value]
      ensures r.Fail? ==> accounts == old(accounts)
      ensures byUsername == old(byUsername)
    {
      if !PasswordOk(newPassword) {
        return Fail(WeakPassword);
      }
      if id !in accounts || accounts[id].lifecycle == Deleted {
        return Fail(AccountNotFound);
      }
      var a := accounts[id];
      var updated := a.(password := hash(newPassword), mustChangePassword := false, passwordLastChanged := Some(now));
      if a.lifecycle == Created {
        updated := updated.(lifecycle := Active);
      }
      RewriteKeepsInvariant(accounts, byUsername, typeCodes, updated);
      accounts := accounts[id := updated];
      r := Ok(updated);
    }

    /** `setLifecycle`. */
    method SetLifecycle(id: AccountId, code: string) returns (r: Result<Account>)
      requires Valid()
      modifies this
      ensures Valid()
      ensures r == Relabel(old(accounts), id, code)
      ensures r.Ok? ==> accounts == old(accounts)[id := r.value]
      ensures r.Fail? ==> accounts == old(accounts)
      ensures byUsername == old(byUsername)
    {
      var s := StateOfCode(code);
      if s.None? {
        return Fail(Rejected("ACCOUNT_LIFECYCLE " + code + " not seeded"));
      }
      if id !in accounts {
        return Fail(RecordMissing);
      }
      var updated := accounts[id].(lifecycle := s.value);
      RewriteKeepsInvariant(accounts, byUsername, typeCodes, updated);
      accounts := accounts[id := updated];
      r := Ok(updated);
    }

    /** `softDelete`: the lifecycle becomes DELETED. */
    method SoftDelete(id: AccountId) returns (r: Result<Account>)
      requires Valid()
      modifies this
      ensures Valid()
      ensures r == Relabel(old(accounts), id, "DELETED")
      ensures r.Ok? ==> accounts == old(accounts)[id := old(accounts)[id].(lifecycle := Deleted)]
      ensures r.Fail? ==> accounts == old(accounts)
      ensures byUsername == old(byUsername)
    {
      r := SetLifecycle(id, "DELETED");
    }

    /** `validateCookie` at time `now`. */
    method ValidateCookie(id: AccountId, now: int) returns (r: Result<Account>)
      requires Valid()
      modifies this
      ensures Valid()
      ensures (r, accounts) == CheckCookie(old(accounts), typeCodes, id, now)
      ensures byUsername == old(byUsername)
    {
      if id !in accounts {
        return Fail(Unauthorized("Invalid cookie"));
      }
      var a := ExpireIfNeeded(id, now);
      var gate := CookieGate(a.lifecycle);
      if gate.Fail? {
        return Fail(gate.failure);
      }
      r := Ok(a);
    }
  }
}
