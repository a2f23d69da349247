/** The authenticated request layer of src/chat/api.js: token refresh, `fetchWithAuth`, and the
    request-shaping helpers. The network is a `Network` object that answers each `fetch` with the
    next outcome of a script and records every request it was sent. */
module Api {
  import opened Js
  import opened Entities
  import opened TokenStore

  const ApiUrl := "https://magic2k.com"
  const RefreshUrl := ApiUrl + "/api/auth/refresh"
  const UsersUrlBase := ApiUrl + "/api/user"
  const BearerPrefix := "Bearer "

  const ConnectError := "No se pudo conectar con el servidor. Intenta más tarde."
  const SessionExpired := "Sesión expirada. Vuelve a iniciar sesión."
  const UnknownError := "Error desconocido"
  const ServerDown := "El servidor no responde correctamente. Intenta más tarde."
  const LoginRejected := "Login incorrecto"

  /** The JSON body of a response, reduced to the fields read here. `Unreadable`: `res.json()`
      rejects, or the body is JSON `null` so that reading a field throws. */
  datatype Body = Unreadable | Json(token: JsStr, msg: JsStr)

  datatype Response = Response(status: int, body: Body)

  /** `res.ok` */
  predicate IsOk(res: Response) {
    200 <= res.status <= 299
  }

  /** What one `fetch` call yields: a rejected promise or a response. */
  datatype FetchOutcome = Threw | Responded(response: Response)

  /** A request as it leaves the client. `authorization` is None when the header carried `null`. */
  datatype Request =
    | Call(url: string, authorization: Option<string>)
    | RefreshCall(refresh: string)

  /** The outcome of the next fetch; a fetch past the end of the script fails like a lost connection. */
  function Next(script: seq<FetchOutcome>): FetchOutcome {
    if script == [] then Threw else script[0]
  }

  function Rest(script: seq<FetchOutcome>): seq<FetchOutcome> {
    if script == [] then [] else script[1..]
  }

  class Network {
    var script: seq<FetchOutcome>
    var sent: seq<Request>

    constructor (script: seq<FetchOutcome>)
      ensures this.script == script && sent == []
    {
      this.script := script;
      sent := [];
    }

    method Fetch(req: Request) returns (o: FetchOutcome)
      modifies this
      ensures o == Next(old(script)) && script == Rest(old(script))
      ensures sent == old(sent) + [req]
    {
      o := Next(script);
      script := Rest(script);
      sent := sent + [req];
    }
  }

  /** One run of an operation against the store and the network: its result, the storage after
      it, the requests it sent, and the part of the network script it left unused. */
  datatype Run<T> = Run(result: T, items: map<string, string>, sent: seq<Request>, script: seq<FetchOutcome>)

  /** The `Bearer ` prefix of the Authorization header (section 2.1 of RFC 6750), added to a
      non-empty token that does not carry it yet. */
  function WithBearer(t: string): (r: string)
    ensures t == "" ==> r == ""
    ensures StartsWith(t, BearerPrefix) ==> r == t
    ensures t != "" && !StartsWith(t, BearerPrefix) ==> r == BearerPrefix + t
    ensures r != "" ==> StartsWith(r, BearerPrefix)
  {
    if t != "" && !StartsWith(t, BearerPrefix) then BearerPrefix + t else t
  }

  /** Prefixing an already-prefixed header changes nothing. */
  lemma WithBearerIdempotent(t: string)
    ensures WithBearer(WithBearer(t)) == WithBearer(t)
  {
  }

  /** The Authorization header of the first request, from the stored access token. */
  function Authorization(stored: Option<string>): (r: Option<string>)
    ensures r.None? <==> stored.None?
    ensures stored.Some? ==> r == Some(WithBearer(stored.value))
  {
    match stored
    case None => None
    case Some(t) => Some(WithBearer(t))
  }

  /** The ways `refreshAccessToken` can fail. The first three throw the messages below; the
      other two propagate the browser's own exception. */
  datatype RefreshFailure =
    | NoRefreshToken
    | RefreshRejected
    | InvalidRefreshReply
    | RefreshUnreachable
    | UnreadableRefreshReply

  function RefreshMessage(f: RefreshFailure): Option<string> {
    match f
    case NoRefreshToken => Some("No hay refresh token")
    case RefreshRejected => Some("No se pudo refrescar el token")
    case InvalidRefreshReply => Some("Respuesta inválida al refrescar token")
    case _ => None
  }

  datatype RefreshResult = Refreshed(token: string) | RefreshFailed(reason: RefreshFailure)

  /** The refresh token as `if (!refresh)` sees it: missing or empty means none. */
  predicate HasRefreshToken(items: map<string, string>) {
    RefreshKey in items && items[RefreshKey] != ""
  }

  /** Reference behaviour of `refreshAccessToken`. */
  function RefreshSpec(items: map<string, string>, script: seq<FetchOutcome>): (r: Run<RefreshResult>)
    ensures !HasRefreshToken(items) ==> r == Run(RefreshFailed(NoRefreshToken), items, [], script)
    ensures HasRefreshToken(items) ==> r.sent == [RefreshCall(items[RefreshKey])] && r.script == Rest(script)
    ensures (HasRefreshToken(items) && Next(script).Responded? && !IsOk(Next(script).response))
              ==> r.result == RefreshFailed(RefreshRejected)
    ensures (HasRefreshToken(items) && Next(script).Threw?) ==> r.result == RefreshFailed(RefreshUnreachable)
    ensures (HasRefreshToken(items) && Next(script).Responded? && IsOk(Next(script).response)
             && Next(script).response.body.Unreadable?)
              ==> r.result == RefreshFailed(UnreadableRefreshReply)
    ensures (HasRefreshToken(items) && Next(script).Responded? && IsOk(Next(script).response)
             && Next(script).response.body.Json? && !Truthy(Next(script).response.body.token))
              ==> r.result == RefreshFailed(InvalidRefreshReply)
    ensures (HasRefreshToken(items) && Next(script).Responded? && IsOk(Next(script).response)
             && Next(script).response.body.Json? && Truthy(Next(script).response.body.token))
              ==> && r.result == Refreshed(Next(script).response.body.token.s)
                  && r.items == Saved(items, Next(script).response.body.token, Undef)
    ensures r.result.RefreshFailed? ==> r.items == items
    ensures r.result.Refreshed? ==>
              && HasRefreshToken(items)
              && Next(script).Responded? && IsOk(Next(script).response)
              && Next(script).response.body.Json? && Next(script).response.body.token == Str(r.result.token)
              && r.result.token != ""
              && r.items == Saved(items, Str(r.result.token), Undef)
              && GetItem(r.items, AccessKey) == Some(r.result.token)
              && GetItem(r.items, RefreshKey) == GetItem(items, RefreshKey)
  {
    if !HasRefreshToken(items) then
      Run(RefreshFailed(NoRefreshToken), items, [], script)
    else
      var sent := [RefreshCall(items[RefreshKey])];
      match Next(script)
      case Threw => Run(RefreshFailed(RefreshUnreachable), items, sent, Rest(script))
      case Responded(res) =>
        if !IsOk(res) then Run(RefreshFailed(RefreshRejected), items, sent, Rest(script))
        else match res.body
          case Unreadable => Run(RefreshFailed(UnreadableRefreshReply), items, sent, Rest(script))
          case Json(token, _) =>
            if Truthy(token) then Run(Refreshed(token.s), Saved(items, token, Undef), sent, Rest(script))
            else Run(RefreshFailed(InvalidRefreshReply), items, sent, Rest(script))
  }

  method RefreshAccessToken(ls: Storage, net: Network) returns (r: RefreshResult)
    modifies ls, net
    ensures var run := RefreshSpec(old(ls.items), old(net.script));
            && r == run.result && ls.items == run.items
            && net.sent == old(net.sent) + run.sent && net.script == run.script
  {
    var refresh := GetRefreshToken(ls);
    if refresh.None? || refresh.value == "" {
      return RefreshFailed(NoRefreshToken);
    }
    var o := net.Fetch(RefreshCall(refresh.value));
    if o.Threw? {
      return RefreshFailed(RefreshUnreachable);
    }
    var res := o.response;
    if !IsOk(res) {
      return RefreshFailed(RefreshRejected);
    }
    if res.body.Unreadable? {
      return RefreshFailed(UnreadableRefreshReply);
    }
    if Truthy(res.body.token) {
      SaveTokens(ls, res.body.token, Undef);
      return Refreshed(res.body.token.s);
    }
    return RefreshFailed(InvalidRefreshReply);
  }

  /** The message of the Error thrown for a non-ok final response: the server's `msg`, or the
      fixed default; any 5xx status (section 15.6 of RFC 9110) overrides both. */
  function ErrorMessage(res: Response): (msg: string)
    ensures res.status >= 500 ==> msg == ServerDown
    ensures res.status < 500 && res.body.Json? && Truthy(res.body.msg) ==> msg == res.body.msg.s
    ensures res.status < 500 && !(res.body.Json? && Truthy(res.body.msg)) ==> msg == UnknownError
  {
    var fromBody := if res.body.Json? && Truthy(res.body.msg) then res.body.msg.s else UnknownError;
    if res.status >= 500 then ServerDown else fromBody
  }

  /** The final step of `fetchWithAuth`: an ok response is returned as it is. */
  function Classify(res: Response): (r: Result<Response>)
    ensures r.Ok? <==> IsOk(res)
    ensures r.Ok? ==> r.value == res
    ensures r.Err? ==> r.message == ErrorMessage(res)
  {
    if IsOk(res) then Ok(res) else Err(ErrorMessage(res))
  }

  predicate FirstIs401(script: seq<FetchOutcome>) {
    Next(script).Responded? && Next(script).response.status == 401
  }

  /** Reference behaviour of `fetchWithAuth(url)`: at most two calls to `url` and at most one
      refresh, the refresh only after a first 401 (section 15.5.2 of RFC 9110), and the store
      cleared exactly on the session-expired paths. */
  function FetchSpec(items: map<string, string>, script: seq<FetchOutcome>, url: string): (r: Run<Result<Response>>)
    ensures 1 <= |r.sent| <= 3
    ensures r.sent[0] == Call(url, Authorization(GetItem(items, AccessKey)))
    ensures forall i :: 1 <= i < |r.sent| ==> (r.sent[i].RefreshCall? <==> i == 1)
    ensures forall i :: 1 <= i < |r.sent| && r.sent[i].Call? ==> r.sent[i].url == url
    ensures |r.sent| > 1 ==> FirstIs401(script)
    ensures Next(script).Threw? ==> r.result == Err(ConnectError) && r.items == items
    ensures (Next(script).Responded? && !FirstIs401(script))
              ==> r.result == Classify(Next(script).response) && r.items == items
    ensures (FirstIs401(script) && RefreshSpec(items, Rest(script)).result.RefreshFailed?)
              ==> r.result == Err(SessionExpired) && r.items == Cleared(items)
    ensures FirstIs401(script) && RefreshSpec(items, Rest(script)).result.Refreshed? ==>
              var refresh := RefreshSpec(items, Rest(script));
              && |r.sent| == 3
              && r.sent[2] == Call(url, Some(WithBearer(refresh.result.token)))
              && (Next(refresh.script).Threw? ==> r.result == Err(SessionExpired) && r.items == Cleared(items))
              && (Next(refresh.script).Responded? ==>
                    r.result == Classify(Next(refresh.script).response) && r.items == refresh.items)
    ensures r.result.Ok? ==> IsOk(r.result.value)
    ensures (GetItem(r.items, RefreshKey) != GetItem(items, RefreshKey))
              ==> r.result == Err(SessionExpired) && r.items == Cleared(items)
  {
    var first := Call(url, Authorization(GetItem(items, AccessKey)));
    match Next(script)
    case Threw => Run(Err(ConnectError), items, [first], Rest(script))
    case Responded(res) =>
      if res.status != 401 then Run(Classify(res), items, [first], Rest(script))
      else
        var refresh := RefreshSpec(items, Rest(script));
        var afterRefresh := [first] + refresh.sent;
        match refresh.result
        case RefreshFailed(_) => Run(Err(SessionExpired), Cleared(refresh.items), afterRefresh, refresh.script)
        case Refreshed(token) =>
          var retry := Call(url, Some(WithBearer(token)));
          match Next(refresh.script)
          case Threw => Run(Err(SessionExpired), Cleared(refresh.items), afterRefresh + [retry], Rest(refresh.script))
          case Responded(res2) => Run(Classify(res2), refresh.items, afterRefresh + [retry], Rest(refresh.script))
  }

  method FetchWithAuth(ls: Storage, net: Network, url: string) returns (r: Result<Response>)
    modifies ls, net
    ensures var run := FetchSpec(old(ls.items), old(net.script), url);
            && r == run.result && ls.items == run.items
            && net.sent == old(net.sent) + run.sent && net.script == run.script
  {
    var stored := GetAccessToken(ls);
    var o := net.Fetch(Call(url, Authorization(stored)));
    if o.Threw? {
      return Err(ConnectError);
    }
    var res := o.response;
    if res.status == 401 {
      var refreshed := RefreshAccessToken(ls, net);
      if refreshed.RefreshFailed? {
        ClearTokens(ls);
        return Err(SessionExpired);
      }
      var retried := net.Fetch(Call(url, Some(WithBearer(refreshed.token))));
      if retried.Threw? {
        ClearTokens(ls);
        return Err(SessionExpired);
      }
      res := retried.response;
    }
    r := Finish(res);
  }

  /** The last lines of `fetchWithAuth`: an ok response is returned, any other is thrown as an
      Error whose message is chosen as `ErrorMessage` says. */
  method Finish(res: Response) returns (r: Result<Response>)
    ensures r == Classify(res)
  {
    if !IsOk(res) {
      var msg := UnknownError;
      if res.body.Json? && Truthy(res.body.msg) {
        msg := res.body.msg.s;
      }
      if res.status >= 500 {
        msg := ServerDown;
      }
      return Err(msg);
    }
    return Ok(res);
  }

  /** Number of calls to the API proper (not counting refreshes) among `sent`. */
  function CallCount(sent: seq<Request>): nat {
    if sent == [] then 0 else (if sent[0].Call? then 1 else 0) + CallCount(sent[1..])
  }

  function RefreshCount(sent: seq<Request>): nat {
    if sent == [] then 0 else (if sent[0].RefreshCall? then 1 else 0) + RefreshCount(sent[1..])
  }

  /** One `fetchWithAuth` call performs at most two requests and at most one refresh, and
      refreshes only when the first status is 401. */
  lemma {:induction false} FetchRequestBounds(items: map<string, string>, script: seq<FetchOutcome>, url: string)
    ensures var run := FetchSpec(items, script, url);
            && CallCount(run.sent) <= 2
            && RefreshCount(run.sent) <= 1
            && (RefreshCount(run.sent) == 1 ==> FirstIs401(script))
  {
    var s := FetchSpec(items, script, url).sent;
    if |s| == 1 {
      assert s[1..] == [];
    } else if |s| == 2 {
      assert s[1..] == [s[1]] && s[1..][1..] == [];
      assert CallCount(s[1..]) == (if s[1].Call? then 1 else 0) + CallCount(s[1..][1..]);
      assert RefreshCount(s[1..]) == (if s[1].RefreshCall? then 1 else 0) + RefreshCount(s[1..][1..]);
    } else {
      assert s[1].RefreshCall? && s[2].Call?;
      assert s[1..][1..] == [s[2]] && [s[2]][1..] == [];
      assert CallCount([s[2]]) == 1 && RefreshCount([s[2]]) == 0;
      assert CallCount(s[1..]) == 1 && RefreshCount(s[1..]) == 1;
    }
  }

  /** `getUsers` URL: `?q=` followed by the encoded search is appended only when the search
      has a non-whitespace character. The percent-encoder is a parameter. */
  function UsersUrl(search: string, encode: string -> string): (url: string)
    ensures url == UsersUrlBase || url == UsersUrlBase + "?q=" + encode(search)
    ensures url != UsersUrlBase <==> exists i :: 0 <= i < |search| && !IsWhitespace(search[i])
  {
    if search != "" && Trim(search) != "" then UsersUrlBase + "?q=" + encode(search) else UsersUrlBase
  }

  /** The avatar argument of `updateUserProfile`: nothing, a string (kept server-side) or a File. */
  datatype AvatarInput = NoAvatar | AvatarText(s: string) | AvatarFile(file: FileRef)

  datatype ProfileInput = ProfileInput(firstName: JsStr, lastName: JsStr, nickname: JsStr, pseudo: JsStr, avatar: AvatarInput)

  datatype FormEntry = TextEntry(name: string, value: string) | FileEntry(name: string, file: FileRef)

  function TextField(name: string, v: JsStr): (r: seq<FormEntry>)
    ensures |r| <= 1
    ensures r == [] <==> !Truthy(v)
    ensures r != [] ==> r[0] == TextEntry(name, v.s)
  {
    if Truthy(v) then [TextEntry(name, v.s)] else []
  }

  /** The profile field named `name`, as `updateUserProfile` reads it. */
  function ProfileField(p: ProfileInput, name: string): JsStr {
    if name == "firstName" then p.firstName
    else if name == "lastName" then p.lastName
    else if name == "nickname" then p.nickname
    else if name == "pseudo" then p.pseudo
    else Undef
  }

  const ProfileTextFields := ["firstName", "lastName", "nickname", "pseudo"]

  /** The FormData that `updateUserProfile` sends: each text field only if truthy, in order, and
      the avatar only when it is a file, not a string. */
  function ProfileForm(p: ProfileInput): (r: seq<FormEntry>)
    ensures |r| <= 5
    ensures forall name, x :: TextEntry(name, x) in r ==> ProfileField(p, name) == Str(x) && x != ""
    ensures forall name :: name in ProfileTextFields && Truthy(ProfileField(p, name))
              ==> TextEntry(name, ProfileField(p, name).s) in r
    ensures p.avatar.AvatarFile? ==> FileEntry("avatar", p.avatar.file) in r
    ensures forall e :: e in r && e.FileEntry? ==> p.avatar.AvatarFile? && e == FileEntry("avatar", p.avatar.file)
  {
    TextField("firstName", p.firstName) + TextField("lastName", p.lastName)
      + TextField("nickname", p.nickname) + TextField("pseudo", p.pseudo)
      + (if p.avatar.AvatarFile? then [FileEntry("avatar", p.avatar.file)] else [])
  }

  /** The position of an entry name in the order `updateUserProfile` appends them. */
  function EntryRank(name: string): nat {
    if name == "firstName" then 0
    else if name == "lastName" then 1
    else if name == "nickname" then 2
    else if name == "pseudo" then 3
    else if name == "avatar" then 4
    else 5
  }

  predicate RanksIncrease(r: seq<FormEntry>) {
    forall i, j :: 0 <= i < j < |r| ==> EntryRank(r[i].name) < EntryRank(r[j].name)
  }

  predicate RanksBelow(r: seq<FormEntry>, k: nat) {
    forall i :: 0 <= i < |r| ==> EntryRank(r[i].name) < k
  }

  /** Appending at most one entry of rank `k` after entries of lower rank keeps ranks increasing. */
  lemma AppendRanked(x: seq<FormEntry>, y: seq<FormEntry>, k: nat)
    requires RanksIncrease(x) && RanksBelow(x, k)
    requires |y| <= 1 && (y != [] ==> EntryRank(y[0].name) == k)
    ensures RanksIncrease(x + y) && RanksBelow(x + y, k + 1)
  {
  }

  /** Each name appears at most once in the profile form: the fields are appended in a fixed
      order, one entry at most per field. */
  lemma {:induction false} ProfileFormNamesDistinct(p: ProfileInput)
    ensures var r := ProfileForm(p);
            forall i, j :: 0 <= i < j < |r| ==> r[i].name != r[j].name
  {
    var a := TextField("firstName", p.firstName);
    var b := TextField("lastName", p.lastName);
    var c := TextField("nickname", p.nickname);
    var d := TextField("pseudo", p.pseudo);
    var e := if p.avatar.AvatarFile? then [FileEntry("avatar", p.avatar.file)] else [];
    AppendRanked([], a, 0);
    assert [] + a == a;
    AppendRanked(a, b, 1);
    AppendRanked(a + b, c, 2);
    AppendRanked(a + b + c, d, 3);
    AppendRanked(a + b + c + d, e, 4);
    var r := ProfileForm(p);
    assert r == a + b + c + d + e;
    assert RanksIncrease(r);
  }

  /** `loginUser`: the fetch error, 'Login incorrecto' for a non-ok status, else the body. */
  function LoginUser(reply: AuthReply): (r: Result<LoginData>)
    ensures reply.NoReply? ==> r == Err(reply.message)
    ensures reply.Reply? && !reply.ok ==> r == Err(LoginRejected)
    ensures r.Ok? <==> reply.Reply? && reply.ok && reply.body.Ok?
    ensures r.Ok? ==> r.value == reply.body.value
  {
    match reply
    case NoReply(m) => Err(m)
    case Reply(ok, body) => if !ok then Err(LoginRejected) else body
  }
}
