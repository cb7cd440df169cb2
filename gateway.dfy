/** The checkout gateway (src/pages/CheckoutGateway.tsx): the email check, the
    ordered validation and the register / login / guest transitions over the
    user list and the current-user slot; and the navigation bar's logout
    (src/components/Navbar.tsx), which empties that slot. */
module Gateway {
  import opened Store
  import opened Text

  const EmailAndPasswordRequired := "EMAIL AND PASSWORD ARE REQUIRED"
  const InvalidEmail := "PLEASE ENTER A VALID EMAIL ADDRESS"
  const PasswordTooShort := "PASSWORD MUST BE AT LEAST 6 CHARACTERS"
  const NameAndPhoneRequired := "NAME AND PHONE ARE REQUIRED FOR REGISTRATION"
  const EmailAlreadyRegistered := "EMAIL ALREADY REGISTERED"
  const InvalidCredentials := "INVALID EMAIL OR PASSWORD"
  const MinPasswordLength := 6

  /** A character the pattern's `[^\s@]` accepts. */
  predicate IsPlain(c: char)
  {
    !IsSpace(c) && c != '@'
  }

  /** Every character of `s` from `a` up to (not including) `b` is plain. */
  predicate PlainBetween(s: string, a: nat, b: nat)
    requires a <= b <= |s|
  {
    forall m :: a <= m < b ==> IsPlain(s[m])
  }

  /** The pattern `^[^\s@]+@[^\s@]+\.[^\s@]+$`, stated by positions: a '@' at
      `i` and a '.' at `j`, and the parts before, between and after them
      non-empty and free of white space and '@'. */
  ghost predicate MatchesEmailPattern(s: string)
  {
    exists i: nat, j: nat :: 0 < i && i + 1 < j && j + 1 < |s| && s[i] == '@' && s[j] == '.'
                   && PlainBetween(s, 0, i) && PlainBetween(s, i + 1, j) && PlainBetween(s, j + 1, |s|)
  }

  /** The position of the first '@', or the length when there is none. */
  function IndexOfAt(s: string): (k: nat)
    ensures k <= |s|
    ensures k < |s| ==> s[k] == '@'
    ensures forall j :: 0 <= j < k ==> s[j] != '@'
  {
    if s == [] then 0
    else if s[0] == '@' then 0
    else 1 + IndexOfAt(s[1..])
  }

  /** The matcher: split at the first '@'; the local part is non-empty and
      plain, the domain is plain and has a '.' with a character on each side. */
  predicate HasEmailShape(s: string)
  {
    var k := IndexOfAt(s);
    0 < k && k + 3 <= |s| && PlainBetween(s, 0, k) && PlainBetween(s, k + 1, |s|)
    && exists m | k + 2 <= m < |s| - 1 :: s[m] == '.'
  }

  /** `validateEmail`: the pattern tested on the lowercased address. */
  predicate ValidateEmail(email: string)
  {
    HasEmailShape(Lower(email))
  }

  lemma ShapeIsPattern(s: string)
    ensures HasEmailShape(s) <==> MatchesEmailPattern(s)
  {
    if HasEmailShape(s) {
      var k := IndexOfAt(s);
      var j :| k + 2 <= j < |s| - 1 && s[j] == '.';
      assert PlainBetween(s, k + 1, j) && PlainBetween(s, j + 1, |s|);
    }
    if MatchesEmailPattern(s) {
      var i: nat, j: nat :| 0 < i && i + 1 < j && j + 1 < |s| && s[i] == '@' && s[j] == '.'
                  && PlainBetween(s, 0, i) && PlainBetween(s, i + 1, j) && PlainBetween(s, j + 1, |s|);
      assert IndexOfAt(s) == i;
      assert IsPlain(s[j]);
      assert PlainBetween(s, i + 1, |s|);
    }
  }

  /** Lowercasing keeps each character's kind: white space, '@', '.' or plain. */
  lemma LowerCharKeepsKind(c: char)
    ensures IsPlain(LowerChar(c)) <==> IsPlain(c)
    ensures LowerChar(c) == '@' <==> c == '@'
    ensures LowerChar(c) == '.' <==> c == '.'
  {
  }

  lemma LowerKeepsPattern(s: string)
    ensures MatchesEmailPattern(Lower(s)) <==> MatchesEmailPattern(s)
  {
    var t := Lower(s);
    forall m | 0 <= m < |s| ensures (IsPlain(t[m]) <==> IsPlain(s[m])) && (t[m] == '@' <==> s[m] == '@')
                                    && (t[m] == '.' <==> s[m] == '.') {
      LowerCharKeepsKind(s[m]);
    }
    if MatchesEmailPattern(s) {
      var i: nat, j: nat :| 0 < i && i + 1 < j && j + 1 < |s| && s[i] == '@' && s[j] == '.'
                  && PlainBetween(s, 0, i) && PlainBetween(s, i + 1, j) && PlainBetween(s, j + 1, |s|);
      assert PlainBetween(t, 0, i) && PlainBetween(t, i + 1, j) && PlainBetween(t, j + 1, |t|);
    }
    if MatchesEmailPattern(t) {
      var i: nat, j: nat :| 0 < i && i + 1 < j && j + 1 < |t| && t[i] == '@' && t[j] == '.'
                  && PlainBetween(t, 0, i) && PlainBetween(t, i + 1, j) && PlainBetween(t, j + 1, |t|);
      assert PlainBetween(s, 0, i) && PlainBetween(s, i + 1, j) && PlainBetween(s, j + 1, |s|);
    }
  }

  /** `validateEmail` accepts exactly the addresses that match the pattern;
      lowercasing first changes nothing. */
  lemma ValidateEmailIsPattern(email: string)
    ensures ValidateEmail(email) <==> MatchesEmailPattern(email)
  {
    ShapeIsPattern(Lower(email));
    LowerKeepsPattern(email);
  }

  /** The gateway's form fields and mode. */
  datatype AuthForm = AuthForm(
    isRegistering: bool,
    email: string,
    password: string,
    fullName: string,
    phone: string)

  /** What `handleAuth` decides: an error message, or the user to make current
      (a new one appended by registration, or a stored one found by login). */
  datatype AuthResult = Rejected(message: string) | Registered(user: User) | LoggedIn(user: User)

  /** Some stored user has this email. */
  predicate EmailTaken(users: seq<User>, email: string)
  {
    exists i :: 0 <= i < |users| && users[i].email == email
  }

  /** No two stored users share an email. */
  predicate EmailsUnique(users: seq<User>)
  {
    forall i, j :: 0 <= i < j < |users| ==> users[i].email != users[j].email
  }

  predicate Matches(u: User, email: string, password: string)
  {
    u.email == email && u.password == password
  }

  /** The login `find`: the first stored user with both this email and this password. */
  function FindLogin(users: seq<User>, email: string, password: string): (r: Option<User>)
    ensures r.Some? <==> exists i :: 0 <= i < |users| && Matches(users[i], email, password)
    ensures r.Some? ==> exists k :: 0 <= k < |users| && users[k] == r.value && Matches(r.value, email, password)
                                    && forall j :: 0 <= j < k ==> !Matches(users[j], email, password)
  {
    if users == [] then None
    else if Matches(users[0], email, password) then Some(users[0])
    else
      var r := FindLogin(users[1..], email, password);
      if r.Some? then
        ghost var k :| 0 <= k < |users[1..]| && users[1..][k] == r.value && Matches(r.value, email, password)
                      && forall j :: 0 <= j < k ==> !Matches(users[1..][j], email, password);
        assert users[k + 1] == r.value;
        r
      else
        assert forall i :: 1 <= i < |users| ==> users[i] == users[1..][i - 1];
        r
  }

  /** The checks every attempt must pass, whatever the mode. */
  predicate CredentialsWellFormed(form: AuthForm)
  {
    form.email != "" && form.password != "" && ValidateEmail(form.email)
    && |form.password| >= MinPasswordLength
  }

  /** `handleAuth`'s decision: the checks in source order, the first failure
      giving its message. */
  function Authenticate(form: AuthForm, users: seq<User>): (r: AuthResult)
    ensures r.Registered? ==>
              form.isRegistering && CredentialsWellFormed(form)
              && form.fullName != "" && form.phone != ""
              && !EmailTaken(users, form.email)
              && r.user == User(form.email, form.password, form.fullName, form.phone, [])
    ensures r.LoggedIn? ==>
              !form.isRegistering && CredentialsWellFormed(form)
              && r.user in users && Matches(r.user, form.email, form.password)
    ensures !CredentialsWellFormed(form) ==> r.Rejected?
  {
    if form.email == "" || form.password == "" then Rejected(EmailAndPasswordRequired)
    else if !ValidateEmail(form.email) then Rejected(InvalidEmail)
    else if |form.password| < MinPasswordLength then Rejected(PasswordTooShort)
    else if form.isRegistering then
      if form.fullName == "" || form.phone == "" then Rejected(NameAndPhoneRequired)
      else if EmailTaken(users, form.email) then Rejected(EmailAlreadyRegistered)
      else Registered(User(form.email, form.password, form.fullName, form.phone, []))
    else
      match FindLogin(users, form.email, form.password)
      case Some(u) => LoggedIn(u)
      case None => Rejected(InvalidCredentials)
  }

  /** The first failing check decides the message: missing fields, then the
      email's shape, then the password's length, in both modes; a
      registration then needs a name and a phone. */
  lemma RejectionOrder(form: AuthForm, users: seq<User>)
    ensures form.email == "" || form.password == "" ==>
              Authenticate(form, users) == Rejected(EmailAndPasswordRequired)
    ensures form.email != "" && form.password != "" && !ValidateEmail(form.email) ==>
              Authenticate(form, users) == Rejected(InvalidEmail)
    ensures form.email != "" && ValidateEmail(form.email) && form.password != "" && |form.password| < MinPasswordLength ==>
              Authenticate(form, users) == Rejected(PasswordTooShort)
    ensures form.isRegistering && CredentialsWellFormed(form) && (form.fullName == "" || form.phone == "") ==>
              Authenticate(form, users) == Rejected(NameAndPhoneRequired)
  {
  }

  /** Registration with a name and a phone fails exactly when the email is already stored. */
  lemma RegistrationRejectsTakenEmail(form: AuthForm, users: seq<User>)
    requires form.isRegistering && CredentialsWellFormed(form)
    requires form.fullName != "" && form.phone != ""
    ensures Authenticate(form, users).Registered? <==> !EmailTaken(users, form.email)
    ensures EmailTaken(users, form.email) ==> Authenticate(form, users) == Rejected(EmailAlreadyRegistered)
  {
  }

  /** A successful registration keeps the stored emails unique. */
  lemma RegistrationKeepsEmailsUnique(form: AuthForm, users: seq<User>)
    requires EmailsUnique(users)
    requires Authenticate(form, users).Registered?
    ensures EmailsUnique(users + [Authenticate(form, users).user])
  {
    var u := Authenticate(form, users).user;
    var all := users + [u];
    forall i, j | 0 <= i < j < |all| ensures all[i].email != all[j].email {
      if j == |users| {
        assert all[i] == users[i];
      }
    }
  }

  /** A well-formed login succeeds exactly when some stored user has both the
      email and the password, and the first such user is the one logged in. */
  lemma LoginSucceedsIffStored(form: AuthForm, users: seq<User>)
    requires !form.isRegistering && CredentialsWellFormed(form)
    ensures Authenticate(form, users).LoggedIn? <==>
              exists i :: 0 <= i < |users| && Matches(users[i], form.email, form.password)
    ensures !Authenticate(form, users).LoggedIn? ==> Authenticate(form, users) == Rejected(InvalidCredentials)
    ensures Authenticate(form, users).LoggedIn? ==>
              exists k :: 0 <= k < |users| && users[k] == Authenticate(form, users).user
                          && forall j :: 0 <= j < k ==> !Matches(users[j], form.email, form.password)
  {
  }

  /** The gateway page's state. */
  class Gateway {
    var isRegistering: bool
    var error: string
    var email: string
    var password: string
    var fullName: string
    var phone: string

    constructor ()
      ensures !isRegistering && error == ""
      ensures email == "" && password == "" && fullName == "" && phone == ""
    {
      isRegistering := false;
      error := "";
      email := "";
      password := "";
      fullName := "";
      phone := "";
    }

    function Form(): AuthForm
      reads this
    {
      AuthForm(isRegistering, email, password, fullName, phone)
    }

    /** The link that switches between login and registration. */
    method ToggleMode()
      modifies this`isRegistering, this`error
      ensures isRegistering == !old(isRegistering) && error == ""
    {
      isRegistering := !isRegistering;
      error := "";
    }

    /** `handleAuth`: on a rejection, show the message and leave the store
        alone; on success, write the store and go on to the final step. */
    method HandleAuth(store: Store) returns (next: Option<Route>)
      modifies this`error, store
      ensures var r := Authenticate(Form(), OrEmpty(old(store.users)));
              && (r.Rejected? ==> error == r.message && next == None && unchanged(store))
              && (r.Registered? ==>
                    error == "" && next == Some(CheckoutFinal)
                    && store.users == Some(OrEmpty(old(store.users)) + [r.user])
                    && store.currentUser == Some(r.user))
              && (r.LoggedIn? ==>
                    error == "" && next == Some(CheckoutFinal)
                    && store.users == old(store.users)
                    && store.currentUser == Some(r.user))
      ensures store.products == old(store.products) && store.cart == old(store.cart)
    {
      error := "";
      var savedUsers := OrEmpty(store.users);
      var r := Authenticate(Form(), savedUsers);
      match r
      case Rejected(message) =>
        error := message;
        next := None;
      case Registered(user) =>
        store.users := Some(savedUsers + [user]);
        store.currentUser := Some(user);
        next := Some(CheckoutFinal);
      case LoggedIn(user) =>
        store.currentUser := Some(user);
        next := Some(CheckoutFinal);
    }

    /** "Continue as Guest": drop the current user and go on to the final step. */
    method ContinueAsGuest(store: Store) returns (next: Route)
      modifies store
      ensures store.currentUser == None && next == CheckoutFinal
      ensures store.users == old(store.users)
      ensures store.products == old(store.products) && store.cart == old(store.cart)
    {
      store.currentUser := None;
      next := CheckoutFinal;
    }
  }

  /** The navigation bar's logout: drop the current user and go home. */
  method Logout(store: Store) returns (next: Route)
    modifies store
    ensures store.currentUser == None && next == Home
    ensures store.users == old(store.users)
    ensures store.products == old(store.products) && store.cart == old(store.cart)
  {
    store.currentUser := None;
    next := Home;
  }
}
