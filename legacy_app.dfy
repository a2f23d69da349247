/** The older shell of src/chat/ChatAppRESPALDO.js: its own login form over `loginUser`, then
    the same section/selection navigation as the current shell. */
module LegacyApp {
  import opened Js
  import opened Entities
  import opened Api
  import opened Navigation

  /** What the older shell renders: the login form (with its error line) while the token is
      falsy, else the main area. It has no welcome overlay on the groups screen. */
  datatype LegacyView = LoginForm(error: string) | Main(screen: Screen)

  function LegacyMain(n: Nav): (s: Screen)
    ensures s.ChatScreen? <==> n.section == ChatRoom && n.selectedChat.Some?
    ensures s.GroupsScreen? ==> !s.welcome
    ensures !MainArea(n).GroupsScreen? ==> s == MainArea(n)
  {
    if n.section == Groups then GroupsScreen(false) else MainArea(n)
  }

  function Render(token: JsStr, error: string, n: Nav): (v: LegacyView)
    ensures !Truthy(token) <==> v.LoginForm?
    ensures v.LoginForm? ==> v.error == error
    ensures v.Main? ==> (v.screen.ChatScreen? <==> n.section == ChatRoom && n.selectedChat.Some?)
  {
    if !Truthy(token) then LoginForm(error) else Main(LegacyMain(n))
  }

  class LegacyChatApp {
    var token: JsStr
    var user: Option<User>
    var email: string
    var password: string
    var error: string
    var nav: Nav

    constructor ()
      ensures token == Str("") && user.None? && email == "" && password == "" && error == "" && nav == Start
    {
      token, user, email, password, error := Str(""), None, "", "", "";
      nav := Start;
    }

    function View(): LegacyView
      reads this
    {
      Render(token, error, nav)
    }

    method SetEmail(value: string)
      modifies this
      ensures email == value
      ensures token == old(token) && user == old(user) && password == old(password)
      ensures error == old(error) && nav == old(nav)
    {
      email := value;
    }

    method SetPassword(value: string)
      modifies this
      ensures password == value
      ensures token == old(token) && user == old(user) && email == old(email)
      ensures error == old(error) && nav == old(nav)
    {
      password := value;
    }

    /** `handleLogin`: the error is cleared, `loginUser(email, password)` is requested (the
        credentials are returned); its data sets token and user, its failure sets only the
        error. */
    method HandleLogin(reply: AuthReply) returns (credentials: (string, string))
      modifies this
      ensures credentials == (old(email), old(password))
      ensures LoginUser(reply).Ok? ==>
                token == LoginUser(reply).value.token && user == LoginUser(reply).value.user && error == ""
      ensures LoginUser(reply).Err? ==>
                token == old(token) && user == old(user) && error == LoginUser(reply).message
      ensures email == old(email) && password == old(password) && nav == old(nav)
    {
      error := "";
      credentials := (email, password);
      match LoginUser(reply) {
        case Ok(data) =>
          token := data.token;
          user := data.user;
        case Err(m) =>
          error := m;
      }
    }

    /** A click in the main area or the sidebar; none is possible on the login form. */
    method Click(e: NavEvent)
      modifies this
      ensures Truthy(token) ==> nav == Step(old(nav), e)
      ensures !Truthy(token) ==> nav == old(nav)
      ensures token == old(token) && user == old(user) && error == old(error)
      ensures email == old(email) && password == old(password)
    {
      if Truthy(token) {
        nav := Step(nav, e);
      }
    }
  }
}
