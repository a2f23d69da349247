/** The registration and login modals of src/App.jsx: the form's change handler, `getInitials`,
    the ordered `validate` checks with the e-mail pattern `^\S+@\S+\.\S+$`, the register payload's
    avatar, the error-text fallbacks, and the `/home` guard. */
module Register {
  import opened Js
  import opened Entities
  import opened TokenStore
  import opened Auth

  const AllRequired := "Todos los campos son obligatorios"
  const BadEmail := "Correo inválido"
  const ShortPassword := "La contraseña debe tener al menos 6 caracteres"
  const PasswordMismatch := "Las contraseñas no coinciden"
  const RegisterFailed := "Error de registro"
  const LoginFailed := "Error de login"

  /** `form.avatar`: `null` at first, then the chosen File, or the raw input value when the
      avatar input changed without a file. */
  datatype FormAvatar = NoPick | Picked(file: FileRef) | Typed(value: string)

  datatype RegisterForm = RegisterForm(
    firstName: string, lastName: string, nickname: string,
    email: string, password: string, repeatPassword: string,
    avatar: FormAvatar)

  const EmptyForm := RegisterForm("", "", "", "", "", "", NoPick)

  /** The `name` attribute of the input that changed. */
  datatype Field = FirstName | LastName | Nickname | Email | Password | RepeatPassword | AvatarField

  /** The text held by a text field. */
  function Text(form: RegisterForm, f: Field): string {
    match f
    case FirstName => form.firstName
    case LastName => form.lastName
    case Nickname => form.nickname
    case Email => form.email
    case Password => form.password
    case RepeatPassword => form.repeatPassword
    case AvatarField => ""
  }

  /** `handleChange`: a chosen file on the avatar input sets only `avatar`; any other change
      sets only the named field to the input's value. */
  function Changed(form: RegisterForm, name: Field, value: string, file: Option<FileRef>): (r: RegisterForm)
    ensures name == AvatarField && file.Some? ==> r == form.(avatar := Picked(file.value))
    ensures name == AvatarField && file.None? ==> r == form.(avatar := Typed(value))
    ensures name != AvatarField ==> Text(r, name) == value && r.avatar == form.avatar
    ensures forall g :: g != name && g != AvatarField ==> Text(r, g) == Text(form, g)
  {
    match name
    case FirstName => form.(firstName := value)
    case LastName => form.(lastName := value)
    case Nickname => form.(nickname := value)
    case Email => form.(email := value)
    case Password => form.(password := value)
    case RepeatPassword => form.(repeatPassword := value)
    case AvatarField => if file.Some? then form.(avatar := Picked(file.value)) else form.(avatar := Typed(value))
  }

  /** `s[0] || ''` */
  function FirstChar(s: string): (r: string)
    ensures s == [] ==> r == []
    ensures s != [] ==> r == [s[0]]
  {
    if s == [] then [] else [s[0]]
  }

  /** `getInitials`: the first letters of first and last name, upper-cased. */
  function Initials(form: RegisterForm): (r: string)
    ensures |r| <= 2
    ensures |r| == |FirstChar(form.firstName)| + |FirstChar(form.lastName)|
    ensures form.firstName != [] ==> r[0] == UpperAscii(form.firstName[0])
    ensures form.lastName != [] ==> r[|r| - 1] == UpperAscii(form.lastName[0])
  {
    UpperAsciiString(FirstChar(form.firstName) + FirstChar(form.lastName))
  }

  /** No character of `s` is matched by `\s`. */
  predicate NoWhitespace(s: string) {
    forall k :: 0 <= k < |s| ==> !IsWhitespace(s[k])
  }

  /** What `^\S+@\S+\.\S+$` matches: a whitespace-free string with an `@` after at least one
      character, a later `.` with at least one character between them, and at least one
      character after the `.` (`\S` also matches `@` and `.`, so the parts may contain them). */
  ghost predicate EmailShape(s: string) {
    NoWhitespace(s) && exists i, j :: 1 <= i && i + 2 <= j && j + 2 <= |s| && s[i] == '@' && s[j] == '.'
  }

  /** The first index at or after `from` holding `c`. */
  function IndexFrom(s: string, c: char, from: nat): (r: Option<nat>)
    ensures r.Some? ==> from <= r.value < |s| && s[r.value] == c
    ensures r.Some? ==> forall m :: from <= m < r.value ==> s[m] != c
    ensures r.None? ==> forall m :: from <= m < |s| ==> s[m] != c
    decreases |s| - from
  {
    if from >= |s| then None
    else if s[from] == c then Some(from)
    else IndexFrom(s, c, from + 1)
  }

  /** The last index before `end` holding `c`. */
  function LastIndexBefore(s: string, c: char, end: nat): (r: Option<nat>)
    requires end <= |s|
    ensures r.Some? ==> r.value < end && s[r.value] == c
    ensures r.Some? ==> forall m :: r.value < m < end ==> s[m] != c
    ensures r.None? ==> forall m :: 0 <= m < end ==> s[m] != c
  {
    if end == 0 then None
    else if s[end - 1] == c then Some(end - 1)
    else LastIndexBefore(s, c, end - 1)
  }

  /** The e-mail test as a left-to-right check: the first `@` after position 0 and the last `.`
      before the final character must leave a character between them. */
  predicate EmailMatches(s: string) {
    && NoWhitespace(s)
    && |s| >= 1
    && var at := IndexFrom(s, '@', 1);
       var dot := LastIndexBefore(s, '.', |s| - 1);
       at.Some? && dot.Some? && at.value + 2 <= dot.value
  }

  /** The check accepts exactly the strings the pattern matches. */
  lemma {:induction false} EmailMatchesPattern(s: string)
    ensures EmailMatches(s) <==> EmailShape(s)
  {
    if EmailMatches(s) {
      var i := IndexFrom(s, '@', 1).value;
      var j := LastIndexBefore(s, '.', |s| - 1).value;
      assert 1 <= i && i + 2 <= j && j + 2 <= |s| && s[i] == '@' && s[j] == '.';
    }
    if EmailShape(s) {
      var i, j :| 1 <= i && i + 2 <= j && j + 2 <= |s| && s[i] == '@' && s[j] == '.';
      var at := IndexFrom(s, '@', 1);
      var dot := LastIndexBefore(s, '.', |s| - 1);
      assert at.Some? && at.value <= i;
      assert dot.Some? && j <= dot.value;
    }
  }

  /** A matching address has at least five characters. */
  lemma EmailShapeLength(s: string)
    requires EmailShape(s)
    ensures |s| >= 5
  {
    var i, j :| 1 <= i && i + 2 <= j && j + 2 <= |s| && s[i] == '@' && s[j] == '.';
  }

  predicate AllFilled(form: RegisterForm) {
    && !IsBlank(form.firstName) && !IsBlank(form.lastName) && !IsBlank(form.nickname)
    && !IsBlank(form.email) && !IsBlank(form.password) && !IsBlank(form.repeatPassword)
  }

  /** `validate`: the message of the first failing check, in order, or none. */
  function ValidationError(form: RegisterForm): Option<string> {
    if !AllFilled(form) then Some(AllRequired)
    else if !EmailMatches(form.email) then Some(BadEmail)
    else if |form.password| < 6 then Some(ShortPassword)
    else if form.password != form.repeatPassword then Some(PasswordMismatch)
    else None
  }

  /** The checks run in order and the first failure wins; a form passes exactly when every
      field is filled, the address has the pattern's shape, the password has at least six
      characters and the repetition equals it. */
  lemma {:induction false} ValidationOrder(form: RegisterForm)
    ensures ValidationError(form) == Some(AllRequired) <==> !AllFilled(form)
    ensures ValidationError(form) == Some(BadEmail) <==> AllFilled(form) && !EmailShape(form.email)
    ensures ValidationError(form) == Some(ShortPassword) <==>
              AllFilled(form) && EmailShape(form.email) && |form.password| < 6
    ensures ValidationError(form) == Some(PasswordMismatch) <==>
              AllFilled(form) && EmailShape(form.email) && |form.password| >= 6 && form.password != form.repeatPassword
    ensures ValidationError(form).None? <==>
              AllFilled(form) && EmailShape(form.email) && |form.password| >= 6 && form.password == form.repeatPassword
  {
    EmailMatchesPattern(form.email);
  }

  /** Every field of a form that passes is non-blank, and its address is at least five
      characters long. */
  lemma {:induction false} PassingFormFacts(form: RegisterForm)
    requires ValidationError(form).None?
    ensures forall f :: f != AvatarField ==> !IsBlank(Text(form, f))
    ensures |form.email| >= 5 && |form.repeatPassword| >= 6
  {
    ValidationOrder(form);
    EmailShapeLength(form.email);
  }

  /** `if (form.avatar)`: a File, or a non-empty string. */
  predicate AvatarTruthy(a: FormAvatar) {
    a.Picked? || (a.Typed? && a.value != "")
  }

  /** The `avatar` of the register body: `avatarUrl || getInitials()`, where `avatarUrl` is the
      reader's data URL when an avatar was set and `''` otherwise. */
  function PayloadAvatar(form: RegisterForm, dataUrl: string): (r: string)
    ensures AvatarTruthy(form.avatar) && dataUrl != "" ==> r == dataUrl
    ensures !AvatarTruthy(form.avatar) || dataUrl == "" ==> r == Initials(form)
  {
    var avatarUrl := if AvatarTruthy(form.avatar) then dataUrl else "";
    if avatarUrl != "" then avatarUrl else Initials(form)
  }

  /** The JSON body posted to `/api/auth/register`. */
  datatype RegisterPayload = RegisterPayload(
    firstName: string, lastName: string, nickname: string, email: string, password: string, avatar: string)

  /** `data.msg || fallback` */
  function ErrorText(msg: JsStr, fallback: string): (r: string)
    ensures Truthy(msg) ==> r == msg.s
    ensures !Truthy(msg) ==> r == fallback
  {
    if Truthy(msg) then msg.s else fallback
  }

  /** A modal's submit outcome: the fetch's rejection, the `res.json()` failure (checked before
      `res.ok`), the server `msg` or the fallback for a non-ok status, else the body. */
  function SubmitOutcome(reply: AuthReply, fallback: string): (r: Result<LoginData>)
    ensures reply.NoReply? ==> r == Err(reply.message)
    ensures reply.Reply? && reply.body.Err? ==> r == Err(reply.body.message)
    ensures reply.Reply? && reply.body.Ok? && !reply.ok ==> r == Err(ErrorText(reply.body.value.msg, fallback))
    ensures r.Ok? <==> reply.Reply? && reply.ok && reply.body.Ok?
    ensures r.Ok? ==> r.value == reply.body.value
  {
    match reply
    case NoReply(m) => Err(m)
    case Reply(ok, body) =>
      if body.Err? then Err(body.message)
      else if !ok then Err(ErrorText(body.value.msg, fallback))
      else Ok(body.value)
  }

  /** `isAuth={!!auth.token && !!auth.user}` */
  predicate IsAuthorized(auth: AuthState) {
    Truthy(auth.token) && auth.user.Some?
  }

  /** The initial auth record never opens `/home`; a login does exactly when the body carries a
      non-empty token and a user. */
  lemma LoginAuthorizes(s: Session, data: LoginData)
    ensures !IsAuthorized(Initial)
    ensures IsAuthorized(LoginSpec(s, data).auth) <==> Truthy(data.token) && data.user.Some?
    ensures !IsAuthorized(LogoutSpec(s).auth)
  {
  }

  /** The outcome of a submit: the body posted (if any), whether `/home` was reached, the
      error shown, and the login data handed to the auth context. */
  datatype SubmitResult = SubmitResult(posted: Option<RegisterPayload>, home: bool, error: string, login: Option<LoginData>)

  /** `handleRegister` once `validate` has passed: a failed avatar read posts nothing and
      shows the rejection's `message` (`read.message`). The reader's error event carries no
      `message`, so for it the text shown is in effect empty and `read` is `Err("")`; a
      string avatar makes `readAsDataURL` throw a TypeError, whose message is shown. Otherwise the form is posted with `PayloadAvatar`, and the
      reply either logs in and reaches `/home` or shows its error text. */
  function RegisterSubmit(form: RegisterForm, read: Result<string>, reply: AuthReply): (r: SubmitResult)
    ensures AvatarTruthy(form.avatar) && read.Err? ==> r == SubmitResult(None, false, read.message, None)
    ensures r.posted.Some? <==> !AvatarTruthy(form.avatar) || read.Ok?
    ensures r.posted.Some? ==>
              r.posted.value == RegisterPayload(form.firstName, form.lastName, form.nickname, form.email, form.password,
                                                PayloadAvatar(form, if read.Ok? then read.value else ""))
    ensures r.home <==> r.posted.Some? && SubmitOutcome(reply, RegisterFailed).Ok?
    ensures r.home <==> r.login.Some?
    ensures r.home ==> r.error == "" && r.login.value == SubmitOutcome(reply, RegisterFailed).value
    ensures r.posted.Some? && !r.home ==> r.error == SubmitOutcome(reply, RegisterFailed).message
  {
    if AvatarTruthy(form.avatar) && read.Err? then SubmitResult(None, false, read.message, None)
    else
      var avatarUrl := if AvatarTruthy(form.avatar) then read.value else "";
      var payload := RegisterPayload(form.firstName, form.lastName, form.nickname, form.email, form.password,
                                     if avatarUrl != "" then avatarUrl else Initials(form));
      match SubmitOutcome(reply, RegisterFailed)
      case Ok(data) => SubmitResult(Some(payload), true, "", Some(data))
      case Err(m) => SubmitResult(Some(payload), false, m, None)
  }

  /** The session after `doLogin(data)` when there is data, unchanged otherwise. */
  function LoggedIn(s: Session, login: Option<LoginData>): Session {
    if login.Some? then LoginSpec(s, login.value) else s
  }

  class RegisterModal {
    var form: RegisterForm
    var error: string
    var loading: bool
    const auth: AuthProvider

    constructor (auth: AuthProvider)
      ensures form == EmptyForm && error == "" && !loading && this.auth == auth
    {
      form, error, loading := EmptyForm, "", false;
      this.auth := auth;
    }

    method HandleChange(name: Field, value: string, file: Option<FileRef>)
      modifies this
      ensures form == Changed(old(form), name, value, file)
      ensures error == old(error) && loading == old(loading)
    {
      form := Changed(form, name, value, file);
    }

    /** `validate`: sets the error to the first failing check's message, or clears it. */
    method Validate() returns (ok: bool)
      modifies this
      ensures ok <==> ValidationError(form).None?
      ensures !ok ==> error == ValidationError(form).value
      ensures ok ==> error == ""
      ensures form == old(form) && loading == old(loading)
    {
      var e := ValidationError(form);
      if e.Some? {
        error := e.value;
        return false;
      }
      error := "";
      return true;
    }

    /** `handleRegister`. `read` is the FileReader's outcome, consulted only when an avatar is
        set; `reply` is the register request's outcome. Returns the body that was posted, and
        whether the modal navigated to `/home`. A form that fails `validate` posts nothing. */
    method HandleRegister(read: Result<string>, reply: AuthReply) returns (posted: Option<RegisterPayload>, home: bool)
      modifies this, auth, auth.storage
      ensures form == old(form)
      ensures ValidationError(form).Some? ==>
                && posted.None? && !home && error == ValidationError(form).value && loading == old(loading)
                && auth.auth == old(auth.auth) && auth.storage.items == old(auth.storage.items)
      ensures ValidationError(form).None? ==>
                var out := RegisterSubmit(form, read, reply);
                && posted == out.posted && home == out.home && error == out.error && !loading
                && Session(auth.auth, auth.storage.items) == LoggedIn(Session(old(auth.auth), old(auth.storage.items)), out.login)
    {
      var ok := Validate();
      if !ok {
        return None, false;
      }
      posted, home := Submit(read, reply);
    }

    /** The part of `handleRegister` after `validate` passed. */
    method Submit(read: Result<string>, reply: AuthReply) returns (posted: Option<RegisterPayload>, home: bool)
      modifies this, auth, auth.storage
      ensures form == old(form)
      ensures var out := RegisterSubmit(form, read, reply);
              && posted == out.posted && home == out.home && error == out.error && !loading
              && Session(auth.auth, auth.storage.items) == LoggedIn(Session(old(auth.auth), old(auth.storage.items)), out.login)
    {
      loading := true;
      error := "";
      var avatarUrl := "";
      if AvatarTruthy(form.avatar) {
        if read.Err? {
          error := read.message;
          loading := false;
          return None, false;
        }
        avatarUrl := read.value;
      }
      var avatar := if avatarUrl != "" then avatarUrl else Initials(form);
      posted := Some(RegisterPayload(form.firstName, form.lastName, form.nickname, form.email, form.password, avatar));
      match SubmitOutcome(reply, RegisterFailed) {
        case Ok(data) =>
          auth.Login(data);
          loading := false;
          home := true;
        case Err(m) =>
          error := m;
          loading := false;
          home := false;
      }
    }
  }

  class LoginModal {
    var email: string
    var password: string
    var error: string
    var loading: bool
    const auth: AuthProvider

    constructor (auth: AuthProvider)
      ensures email == "" && password == "" && error == "" && !loading && this.auth == auth
    {
      email, password, error, loading := "", "", "", false;
      this.auth := auth;
    }

    /** `handleLogin`: the error is cleared, the credentials posted; a good reply logs in and
        navigates to `/home`, anything else shows its message. Loading ends false either way. */
    method HandleLogin(reply: AuthReply) returns (home: bool)
      modifies this, auth, auth.storage
      ensures email == old(email) && password == old(password) && !loading
      ensures home <==> SubmitOutcome(reply, LoginFailed).Ok?
      ensures home ==> error == ""
                       && Session(auth.auth, auth.storage.items)
                          == LoginSpec(Session(old(auth.auth), old(auth.storage.items)), SubmitOutcome(reply, LoginFailed).value)
      ensures !home ==> error == SubmitOutcome(reply, LoginFailed).message
                        && auth.auth == old(auth.auth) && auth.storage.items == old(auth.storage.items)
    {
      error := "";
      loading := true;
      match SubmitOutcome(reply, LoginFailed) {
        case Ok(data) =>
          loading := false;
          auth.Login(data);
          home := true;
        case Err(m) =>
          error := m;
          loading := false;
          home := false;
      }
    }
  }
}
