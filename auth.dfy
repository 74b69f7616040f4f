/**
  The registration and login endpoints of the backend (backend/core/auth_views.py).

  Registration strips the username and the email (never the password), checks
  each field with its own if/elif chain, collects a field-to-message error map,
  and only when that map is empty inserts a user into the user table. Login is
  a three-way decision: 400 when a field is missing, otherwise 200 or 401 as
  the authentication backend decides.
 */
module Auth {
  import opened Wrappers
  import opened Text

  /** The decoded request body: a missing key reads as the empty string. */
  type RequestData = map<string, string>

  function Field(data: RequestData, key: string): (value: string)
    ensures key in data ==> value == data[key]
    ensures key !in data ==> value == ""
  {
    if key in data then data[key] else ""
  }

  /** A row of the user table; the password stands for its stored (hashed) form. */
  datatype Account = Account(username: string, email: string, password: string)

  /** The keys of the registration endpoint's error map. */
  datatype FieldName = Username | Email | Password | ConfirmPassword {
    /** The key as it appears in the JSON body. */
    function Key(): string {
      match this
      case Username => "username"
      case Email => "email"
      case Password => "password"
      case ConfirmPassword => "confirm_password"
    }
  }

  const AllFields: set<FieldName> := {Username, Email, Password, ConfirmPassword}

  /** The messages of the registration endpoint's error map. */
  datatype Message =
    | UsernameRequired | UsernameTooShort | UsernameExists
    | EmailRequired | EmailInvalid | EmailRegistered
    | PasswordRequired | PasswordTooShort | PasswordMismatch
  {
    function Text(): string {
      match this
      case UsernameRequired => "Username is required"
      case UsernameTooShort => "Username must be at least 3 characters"
      case UsernameExists => "Username already exists"
      case EmailRequired => "Email is required"
      case EmailInvalid => "Invalid email format"
      case EmailRegistered => "Email already registered"
      case PasswordRequired => "Password is required"
      case PasswordTooShort => "Password must be at least 6 characters"
      case PasswordMismatch => "Passwords do not match"
    }
  }

  const CreatedMessage := "User created successfully"
  const CredentialsRequired := "Username and password are required"
  const LoginMessage := "Login successful"
  const InvalidCredentials := "Invalid username or password"

  /** `User.objects.filter(username=u).exists()` */
  predicate UsernameTaken(u: string, accounts: set<Account>) {
    exists a :: a in accounts && a.username == u
  }

  /** `User.objects.filter(email=e).exists()` */
  predicate EmailTaken(e: string, accounts: set<Account>) {
    exists a :: a in accounts && a.email == e
  }

  // The four per-field chains; each yields the message of its first failing test.

  function UsernameError(username: string, accounts: set<Account>): (r: Option<Message>)
    ensures r == None <==> |username| >= 3 && !UsernameTaken(username, accounts)
  {
    if username == [] then Some(UsernameRequired)
    else if |username| < 3 then Some(UsernameTooShort)
    else if UsernameTaken(username, accounts) then Some(UsernameExists)
    else None
  }

  function EmailError(email: string, accounts: set<Account>): (r: Option<Message>)
    ensures r == None <==> '@' in email && '.' in email && !EmailTaken(email, accounts)
  {
    if email == [] then Some(EmailRequired)
    else if '@' !in email || '.' !in email then Some(EmailInvalid)
    else if EmailTaken(email, accounts) then Some(EmailRegistered)
    else None
  }

  function PasswordError(password: string): (r: Option<Message>)
    ensures r == None <==> |password| >= 6
  {
    if password == [] then Some(PasswordRequired)
    else if |password| < 6 then Some(PasswordTooShort)
    else None
  }

  function ConfirmError(password: string, confirm: string): (r: Option<Message>)
    ensures r == None <==> password == confirm
  {
    if password != confirm then Some(PasswordMismatch) else None
  }

  /** The check whose result is stored under key `field`. */
  function FieldError(field: FieldName, username: string, email: string, password: string,
                      confirm: string, accounts: set<Account>): Option<Message>
  {
    match field
    case Username => UsernameError(username, accounts)
    case Email => EmailError(email, accounts)
    case Password => PasswordError(password)
    case ConfirmPassword => ConfirmError(password, confirm)
  }

  /**
    The error map the registration endpoint builds, defined key by key: a
    field is present exactly when its own check fails, whatever the others do.
   */
  function ValidationErrors(username: string, email: string, password: string,
                            confirm: string, accounts: set<Account>): (errors: map<FieldName, Message>)
    ensures errors.Keys <= AllFields
    ensures forall f :: f in AllFields ==>
              (f in errors <==> FieldError(f, username, email, password, confirm, accounts).Some?)
    ensures forall f :: f in errors ==>
              errors[f] == FieldError(f, username, email, password, confirm, accounts).value
  {
    map f | f in AllFields && FieldError(f, username, email, password, confirm, accounts).Some?
      :: FieldError(f, username, email, password, confirm, accounts).value
  }

  /** The error map is empty exactly when every field passes every one of its tests. */
  lemma NoErrorsIff(username: string, email: string, password: string, confirm: string, accounts: set<Account>)
    ensures ValidationErrors(username, email, password, confirm, accounts) == map[] <==>
              && |username| >= 3 && !UsernameTaken(username, accounts)
              && '@' in email && '.' in email && !EmailTaken(email, accounts)
              && |password| >= 6 && password == confirm
  {
    var errors := ValidationErrors(username, email, password, confirm, accounts);
    if errors == map[] {
      assert Username !in errors && Email !in errors;
      assert Password !in errors && ConfirmPassword !in errors;
    } else {
      var f :| f in errors;
      assert f in AllFields;
    }
  }

  /** The username message follows the order required, too short, already exists. */
  lemma UsernameMessageOrder(username: string, accounts: set<Account>)
    ensures UsernameError(username, accounts) == Some(UsernameRequired) <==> username == []
    ensures UsernameError(username, accounts) == Some(UsernameTooShort) <==> 1 <= |username| <= 2
    ensures UsernameError(username, accounts) == Some(UsernameExists) <==>
              |username| >= 3 && UsernameTaken(username, accounts)
  {
  }

  /** The email message follows the order required, bad format, already registered. */
  lemma EmailMessageOrder(email: string, accounts: set<Account>)
    ensures EmailError(email, accounts) == Some(EmailRequired) <==> email == []
    ensures EmailError(email, accounts) == Some(EmailInvalid) <==>
              email != [] && ('@' !in email || '.' !in email)
    ensures EmailError(email, accounts) == Some(EmailRegistered) <==>
              '@' in email && '.' in email && EmailTaken(email, accounts)
  {
  }

  /** The password message follows the order required, too short. */
  lemma PasswordMessageOrder(password: string)
    ensures PasswordError(password) == Some(PasswordRequired) <==> password == []
    ensures PasswordError(password) == Some(PasswordTooShort) <==> 1 <= |password| <= 5
  {
  }

  /**
    The checks do not short-circuit each other: changing the username changes
    no entry of the error map but the username's.
   */
  lemma ErrorsIndependentOfUsername(u1: string, u2: string, email: string, password: string,
                                    confirm: string, accounts: set<Account>)
    ensures var e1 := ValidationErrors(u1, email, password, confirm, accounts);
            var e2 := ValidationErrors(u2, email, password, confirm, accounts);
            e1 - {Username} == e2 - {Username}
  {
    var e1 := ValidationErrors(u1, email, password, confirm, accounts);
    var e2 := ValidationErrors(u2, email, password, confirm, accounts);
    assert forall f :: f in e1 - {Username} ==> f in e2 && e1[f] == e2[f];
  }

  /** The mismatch entry depends on the two passwords only, and two empty passwords are no mismatch. */
  lemma ConfirmIndependent(username: string, email: string, password: string,
                           confirm: string, accounts: set<Account>)
    ensures var errors := ValidationErrors(username, email, password, confirm, accounts);
            && (ConfirmPassword in errors <==> password != confirm)
            && (ConfirmPassword in errors ==> errors[ConfirmPassword] == PasswordMismatch)
            && (password == confirm == "" ==>
                  ConfirmPassword !in errors && errors[Password] == PasswordRequired)
  {
  }

  /** A raw username that is empty or only whitespace is reported as required. */
  lemma BlankUsernameIsRequired(raw: string, accounts: set<Account>)
    requires forall i :: 0 <= i < |raw| ==> IsSpace(raw[i])
    ensures UsernameError(Strip(raw), accounts) == Some(UsernameRequired)
  {
    StripEmptyIff(raw);
  }

  /**
    A raw username that strips to one or two characters is reported as too
    short, never as taken, even when the table holds an account with that name.
   */
  lemma ShortUsernameIsNeverTaken(raw: string, accounts: set<Account>)
    requires 1 <= |Strip(raw)| <= 2
    ensures UsernameError(Strip(raw), accounts) == Some(UsernameTooShort)
    ensures UsernameError(Strip(raw), accounts) != Some(UsernameExists)
  {
  }

  /** A map that agrees with every field's check is the error map. */
  lemma ErrorsFromFields(errors: map<FieldName, Message>, username: string, email: string,
                         password: string, confirm: string, accounts: set<Account>)
    requires errors.Keys <= AllFields
    requires Username in errors <==> UsernameError(username, accounts).Some?
    requires Username in errors ==> errors[Username] == UsernameError(username, accounts).value
    requires Email in errors <==> EmailError(email, accounts).Some?
    requires Email in errors ==> errors[Email] == EmailError(email, accounts).value
    requires Password in errors <==> PasswordError(password).Some?
    requires Password in errors ==> errors[Password] == PasswordError(password).value
    requires ConfirmPassword in errors <==> ConfirmError(password, confirm).Some?
    requires ConfirmPassword in errors ==> errors[ConfirmPassword] == ConfirmError(password, confirm).value
    ensures errors == ValidationErrors(username, email, password, confirm, accounts)
  {
    var v := ValidationErrors(username, email, password, confirm, accounts);
    assert errors.Keys == v.Keys;
  }

  /** Adding an account whose username is new keeps usernames unique. */
  lemma InsertKeepsUnique(accounts: set<Account>, account: Account)
    requires !UsernameTaken(account.username, accounts)
    ensures UniqueUsernames(accounts) ==> UniqueUsernames(accounts + {account})
  {
  }

  /** Response of `RegisterView.post`. */
  datatype RegisterOutcome =
    | Invalid(errors: map<FieldName, Message>)         // 400, `{"errors": errors}`
    | Registered(message: string, username: string) // 201
    | Failed(general: string)                          // 500, `{"errors": {"general": str(e)}}`
  {
    function Status(): int {
      match this
      case Invalid(_) => 400
      case Registered(_, _) => 201
      case Failed(_) => 500
    }
  }

  /** Response of `LoginView.post`. */
  datatype LoginOutcome =
    | MissingFields(error: string)                // 400
    | LoggedIn(message: string, username: string) // 200
    | Denied(error: string)                       // 401
  {
    function Status(): int {
      match this
      case MissingFields(_) => 400
      case LoggedIn(_, _) => 200
      case Denied(_) => 401
    }
  }

  /** No two accounts share a username (the table's unique constraint). */
  ghost predicate UniqueUsernames(accounts: set<Account>) {
    forall a, b :: a in accounts && b in accounts && a.username == b.username ==> a == b
  }

  /** The error map `RegisterView.post` builds from a request body. */
  function RequestErrors(data: RequestData, accounts: set<Account>): map<FieldName, Message> {
    ValidationErrors(Strip(Field(data, "username")), Strip(Field(data, "email")),
                     Field(data, "password"), Field(data, "confirm_password"), accounts)
  }

  /** The account `create_user` stores for a request body: normalised username and email, raw password. */
  function NewAccount(data: RequestData, normalizeUsername: string -> string,
                      normalizeEmail: string -> string): Account {
    Account(normalizeUsername(Strip(Field(data, "username"))), normalizeEmail(Strip(Field(data, "email"))),
            Field(data, "password"))
  }

  /** The user table that registration writes to. */
  class UserTable {
    var accounts: set<Account>

    constructor (initial: set<Account>)
      ensures accounts == initial
    {
      accounts := initial;
    }

    /**
      The validation half of `RegisterView.post`: one if/elif chain per
      field, each adding at most one entry to a map that starts empty.
     */
    method Validate(username: string, email: string, password: string, confirm: string)
      returns (errors: map<FieldName, Message>)
      ensures errors == ValidationErrors(username, email, password, confirm, accounts)
    {
      errors := map[];
      if username == [] {
        errors := errors[Username := UsernameRequired];
      } else if |username| < 3 {
        errors := errors[Username := UsernameTooShort];
      } else if UsernameTaken(username, accounts) {
        errors := errors[Username := UsernameExists];
      }
      if email == [] {
        errors := errors[Email := EmailRequired];
      } else if '@' !in email || '.' !in email {
        errors := errors[Email := EmailInvalid];
      } else if EmailTaken(email, accounts) {
        errors := errors[Email := EmailRegistered];
      }
      if password == [] {
        errors := errors[Password := PasswordRequired];
      } else if |password| < 6 {
        errors := errors[Password := PasswordTooShort];
      }
      if password != confirm {
        errors := errors[ConfirmPassword := PasswordMismatch];
      }
      ErrorsFromFields(errors, username, email, password, confirm, accounts);
    }

    /**
      `RegisterView.post`. The checks run on the stripped inputs, but
      `create_user` stores `normalizeUsername(username)` and
      `normalizeEmail(email)`: Django's `normalize_username` (NFKC) and
      `normalize_email` (lower-cased domain), which are parameters here.
      `failure` is what `create_user` raises, if it raises (the message
      `str(e)`); the table's unique constraint on the username makes it
      raise whenever the normalised username is already taken.
     */
    method Register(data: RequestData, normalizeUsername: string -> string, normalizeEmail: string -> string,
                    failure: Option<string>)
      returns (resp: RegisterOutcome)
      requires UsernameTaken(normalizeUsername(Strip(Field(data, "username"))), accounts) ==> failure.Some?
      modifies this
      ensures RequestErrors(data, old(accounts)) != map[] ==>
                resp == Invalid(RequestErrors(data, old(accounts))) && accounts == old(accounts)
      ensures RequestErrors(data, old(accounts)) == map[] && failure.Some? ==>
                resp == Failed(failure.value) && accounts == old(accounts)
      ensures var account := NewAccount(data, normalizeUsername, normalizeEmail);
              RequestErrors(data, old(accounts)) == map[] && failure.None? ==>
                && resp == Registered(CreatedMessage, account.username)
                && !UsernameTaken(Strip(Field(data, "username")), old(accounts))
                && !UsernameTaken(account.username, old(accounts))
                && accounts == old(accounts) + {account}
      ensures UniqueUsernames(old(accounts)) ==> UniqueUsernames(accounts)
    {
      var username := Strip(Field(data, "username"));
      var email := Strip(Field(data, "email"));
      var password := Field(data, "password");
      var confirm := Field(data, "confirm_password");

      var errors := Validate(username, email, password, confirm);
      if errors != map[] {
        return Invalid(errors);
      }
      if failure.Some? {
        return Failed(failure.value);
      }
      NoErrorsIff(username, email, password, confirm, accounts);
      var account := NewAccount(data, normalizeUsername, normalizeEmail);
      InsertKeepsUnique(accounts, account);
      accounts := accounts + {account};
      resp := Registered(CreatedMessage, account.username);
    }
  }

  /**
    `LoginView.post`. `authenticate` stands for Django's authentication
    backend: the username of the user it finds for the credentials, if any.
   */
  function Login(data: RequestData, authenticate: (string, string) -> Option<string>): (r: LoginOutcome)
    ensures var username := Strip(Field(data, "username"));
            var password := Field(data, "password");
            && (r.Status() == 400 <==> username == [] || password == [])
            && (r.Status() == 200 <==> username != [] && password != [] && authenticate(username, password).Some?)
            && (r.Status() == 401 <==> username != [] && password != [] && authenticate(username, password).None?)
            && (r.LoggedIn? ==> r == LoggedIn(LoginMessage, authenticate(username, password).value))
            && (r.MissingFields? ==> r.error == CredentialsRequired)
            && (r.Denied? ==> r.error == InvalidCredentials)
  {
    var username := Strip(Field(data, "username"));
    var password := Field(data, "password");
    if username == [] || password == [] then
      MissingFields(CredentialsRequired)
    else
      match authenticate(username, password)
      case Some(name) => LoggedIn(LoginMessage, name)
      case None => Denied(InvalidCredentials)
  }

  /** A request with a missing field gets its 400 whatever the authentication backend would say. */
  lemma MissingFieldsIgnoreBackend(data: RequestData, auth1: (string, string) -> Option<string>,
                                   auth2: (string, string) -> Option<string>)
    ensures Strip(Field(data, "username")) == [] || Field(data, "password") == [] ==>
              Login(data, auth1) == Login(data, auth2) == MissingFields(CredentialsRequired)
  {
  }

  /** The authentication backend over a user table: the account with that username and password. */
  function TableAuthenticate(accounts: set<Account>): (string, string) -> Option<string> {
    (u: string, p: string) =>
      if exists a :: a in accounts && a.username == u && a.password == p then Some(u) else None
  }

  /**
    A registered account can log in with the username the registration
    response echoed and the same password, with or without surrounding
    whitespace on the username.
   */
  lemma RegisteredAccountLogsIn(accounts: set<Account>, account: Account, data: RequestData)
    requires account in accounts
    requires account.username == Strip(account.username) && account.username != []
    requires account.password != []
    requires Strip(Field(data, "username")) == account.username
    requires Field(data, "password") == account.password
    ensures Login(data, TableAuthenticate(accounts)) == LoggedIn(LoginMessage, account.username)
  {
    assert account in accounts && account.username == Strip(Field(data, "username"))
           && account.password == Field(data, "password");
  }

  /**
    What the registration endpoint stores has a non-empty password, and it
    logs in with the username the response echoed whenever normalisation
    left that username stripped and non-empty (the identity does; NFKC can
    turn a leading U+00AF into a space).
   */
  lemma RegisteredAccountIsLoginReady(data: RequestData, accounts: set<Account>,
                                      normalizeUsername: string -> string, normalizeEmail: string -> string)
    ensures var account := NewAccount(data, normalizeUsername, normalizeEmail);
            RequestErrors(data, accounts) == map[] ==>
              && account.password != []
              && (account.username == Strip(account.username) && account.username != [] ==>
                    Login(map["username" := account.username, "password" := account.password],
                          TableAuthenticate(accounts + {account})) == LoggedIn(LoginMessage, account.username))
  {
    var account := NewAccount(data, normalizeUsername, normalizeEmail);
    if RequestErrors(data, accounts) == map[] {
      assert account.password != [] by {
        NoErrorsIff(Strip(Field(data, "username")), Strip(Field(data, "email")), account.password,
                    Field(data, "confirm_password"), accounts);
      }
      if account.username == Strip(account.username) && account.username != [] {
        EchoedUsernameLogsIn(accounts + {account}, account);
      }
    }
  }

  /** The login body made of an account's own username and password is accepted by the table. */
  lemma EchoedUsernameLogsIn(accounts: set<Account>, account: Account)
    requires account in accounts
    requires account.username == Strip(account.username) && account.username != []
    requires account.password != []
    ensures Login(map["username" := account.username, "password" := account.password],
                  TableAuthenticate(accounts)) == LoggedIn(LoginMessage, account.username)
  {
    var login := map["username" := account.username, "password" := account.password];
    assert Field(login, "username") == account.username && Field(login, "password") == account.password;
    RegisteredAccountLogsIn(accounts, account, login);
  }
}
