/** The shell of src/chat/ChatApp.jsx: `getAvatarUrl`, and the section/selection state that the
    sidebar and the screens' callbacks drive. */
module Navigation {
  import opened Js
  import opened Entities
  import opened Api

  /** `avatar.replace(/^\/+/, '')` */
  function StripLeadingSlashes(s: string): (r: string)
    ensures |r| <= |s| && r == s[|s| - |r|..]
    ensures forall k :: 0 <= k < |s| - |r| ==> s[k] == '/'
    ensures r == [] || r[0] != '/'
  {
    if s != [] && s[0] == '/' then
      var r := StripLeadingSlashes(s[1..]);
      assert forall k :: 1 <= k < |s| - |r| ==> s[k] == s[1..][k - 1];
      r
    else s
  }

  const AvatarBase := ApiUrl + "/api/"

  /** `getAvatarUrl(avatar)`: the default image for a falsy avatar, an `http…` address as is,
      anything else under `API_URL/api/` with its leading slashes removed. */
  function AvatarUrl(avatar: JsStr, defaultAvatar: string): (r: string)
    ensures !Truthy(avatar) ==> r == defaultAvatar
    ensures Truthy(avatar) && StartsWith(avatar.s, "http") ==> r == avatar.s
    ensures Truthy(avatar) && !StartsWith(avatar.s, "http") ==>
              && r == AvatarBase + StripLeadingSlashes(avatar.s)
              && (|r| == |AvatarBase| || r[|AvatarBase|] != '/')
  {
    if !Truthy(avatar) then defaultAvatar
    else if StartsWith(avatar.s, "http") then avatar.s
    else AvatarBase + StripLeadingSlashes(avatar.s)
  }

  /** Every address built for a non-empty avatar starts with `http`, so building it again
      changes nothing. */
  lemma {:induction false} AvatarUrlIdempotent(avatar: JsStr, defaultAvatar: string)
    requires Truthy(avatar)
    ensures StartsWith(AvatarUrl(avatar, defaultAvatar), "http")
    ensures AvatarUrl(Str(AvatarUrl(avatar, defaultAvatar)), defaultAvatar) == AvatarUrl(avatar, defaultAvatar)
  {
    var r := AvatarUrl(avatar, defaultAvatar);
    if !StartsWith(avatar.s, "http") {
      BaseStartsWithHttp(StripLeadingSlashes(avatar.s));
    }
    assert StartsWith(r, "http");
    assert Truthy(Str(r));
  }

  /** Every address under `AvatarBase` starts with `http`. */
  lemma BaseStartsWithHttp(rest: string)
    ensures StartsWith(AvatarBase + rest, "http")
  {
    assert (AvatarBase + rest)[..4] == AvatarBase[..4] == "http";
  }

  /** The sidebar's avatar image, or none (the icon) when the user has no avatar. */
  function SidebarAvatar(user: Option<User>, defaultAvatar: string): (r: Option<string>)
    ensures r.Some? <==> user.Some? && Truthy(user.value.avatar)
    ensures r.Some? ==> StartsWith(r.value, "http") && r.value == AvatarUrl(user.value.avatar, defaultAvatar)
  {
    if user.Some? && Truthy(user.value.avatar) then
      AvatarUrlIdempotent(user.value.avatar, defaultAvatar);
      Some(AvatarUrl(user.value.avatar, defaultAvatar))
    else None
  }

  /** `"chats" | "groups" | "profile" | "chat" | "groupchat"` */
  datatype Section = Chats | Groups | Profile | ChatRoom | GroupRoom

  datatype Nav = Nav(section: Section, selectedChat: Option<Chat>, selectedGroup: Option<Group>)

  const Start := Nav(Chats, None, None)

  /** The clicks the shell reacts to: a sidebar button, a screen's select callback, the chats
      screen's profile link, and a screen's back button. */
  datatype NavEvent =
    | Tab(target: Section)
    | SelectChat(chat: Chat)
    | SelectGroup(group: Group)
    | OpenProfile
    | Back

  /** The screen in the main area (`Blank` when a room section has nothing selected). */
  datatype Screen =
    | ChatsScreen
    | GroupsScreen(welcome: bool)
    | ProfileScreen
    | ChatScreen(chat: Chat)
    | GroupChatScreen(group: Group)
    | Blank

  /** The main area: each section mounts its screen; the rooms only with a selection, and the
      groups screen shows its welcome overlay while no group is selected. */
  function MainArea(n: Nav): (s: Screen)
    ensures s.ChatScreen? <==> n.section == ChatRoom && n.selectedChat.Some?
    ensures s.ChatScreen? ==> s.chat == n.selectedChat.value
    ensures s.GroupChatScreen? <==> n.section == GroupRoom && n.selectedGroup.Some?
    ensures s.GroupChatScreen? ==> s.group == n.selectedGroup.value
    ensures s.GroupsScreen? <==> n.section == Groups
    ensures s.GroupsScreen? ==> (s.welcome <==> n.selectedGroup.None?)
  {
    match n.section
    case Chats => ChatsScreen
    case Groups => GroupsScreen(n.selectedGroup.None?)
    case Profile => ProfileScreen
    case ChatRoom => if n.selectedChat.Some? then ChatScreen(n.selectedChat.value) else Blank
    case GroupRoom => if n.selectedGroup.Some? then GroupChatScreen(n.selectedGroup.value) else Blank
  }

  /** What the shell's callbacks do when called: select-chat sets the chat and section `chat`,
      select-group sets the group and section `groupchat`, the profile link and the sidebar set
      their section, and back leaves `groupchat` for `groups` and any other screen for `chats`. */
  function Handle(n: Nav, e: NavEvent): (r: Nav)
    ensures e.SelectChat? ==> r == n.(section := ChatRoom, selectedChat := Some(e.chat))
    ensures e.SelectGroup? ==> r == n.(section := GroupRoom, selectedGroup := Some(e.group))
    ensures e.Back? ==> r == n.(section := if n.section == GroupRoom then Groups else Chats)
    ensures e.Tab? ==> r == n.(section := e.target)
    ensures e.OpenProfile? ==> r == n.(section := Profile)
    ensures n.selectedChat.Some? ==> r.selectedChat.Some?
    ensures n.selectedGroup.Some? ==> r.selectedGroup.Some?
  {
    match e
    case Tab(t) => n.(section := t)
    case SelectChat(c) => n.(section := ChatRoom, selectedChat := Some(c))
    case SelectGroup(g) => n.(section := GroupRoom, selectedGroup := Some(g))
    case OpenProfile => n.(section := Profile)
    case Back => n.(section := if n.section == GroupRoom then Groups else Chats)
  }

  /** Whether some rendered control raises `e`: the sidebar always; select-chat and the profile
      link on the chats screen; back on every screen but the chats screen. Select-group is
      raised by nothing: the chats and groups screens receive `onSelectGroup` but never call
      it. */
  predicate Available(n: Nav, e: NavEvent) {
    match e
    case Tab(t) => t == Chats || t == Groups || t == Profile
    case SelectChat(_) => MainArea(n) == ChatsScreen
    case SelectGroup(_) => false
    case OpenProfile => MainArea(n) == ChatsScreen
    case Back => MainArea(n) != ChatsScreen && MainArea(n) != Blank
  }

  /** One click. An event no rendered control raises changes nothing. */
  function Step(n: Nav, e: NavEvent): (r: Nav)
    ensures !Available(n, e) ==> r == n
    ensures Available(n, e) ==> r == Handle(n, e)
    ensures e.SelectGroup? ==> r == n
    ensures Available(n, e) && e.SelectChat? ==> r.section == ChatRoom && r.selectedChat == Some(e.chat)
    ensures n.selectedChat.Some? ==> r.selectedChat.Some?
    ensures n.selectedGroup == r.selectedGroup
  {
    if !Available(n, e) then n else Handle(n, e)
  }

  /** A room section always has its selection, so the main area is never blank. */
  predicate Consistent(n: Nav) {
    (n.section == ChatRoom ==> n.selectedChat.Some?) && (n.section == GroupRoom ==> n.selectedGroup.Some?)
  }

  function Steps(n: Nav, es: seq<NavEvent>): Nav
    decreases es
  {
    if es == [] then n else Steps(Step(n, es[0]), es[1..])
  }

  /** Whatever the clicks, the shell never reaches a room section without its selection. */
  lemma {:induction false} StepsConsistent(n: Nav, es: seq<NavEvent>)
    requires Consistent(n)
    ensures Consistent(Steps(n, es))
    ensures MainArea(Steps(n, es)) != Blank
    decreases es
  {
    if es != [] {
      StepsConsistent(Step(n, es[0]), es[1..]);
    }
  }

  /** No group is ever selected, so section `groupchat` is unreachable and the groups screen
      always shows its welcome overlay. */
  predicate GroupFree(n: Nav) {
    n.selectedGroup.None? && n.section != GroupRoom
  }

  /** From a state without a group, no sequence of clicks reaches a group room or selects a
      group. */
  lemma {:induction false} StepsGroupFree(n: Nav, es: seq<NavEvent>)
    requires GroupFree(n)
    ensures GroupFree(Steps(n, es))
    ensures MainArea(Steps(n, es)).GroupsScreen? ==> MainArea(Steps(n, es)).welcome
    ensures !MainArea(Steps(n, es)).GroupChatScreen?
    decreases es
  {
    if es != [] {
      var m := Step(n, es[0]);
      assert m.section != GroupRoom by {
        if Available(n, es[0]) && es[0].Back? {
          assert m.section == Chats;
        }
      }
      StepsGroupFree(m, es[1..]);
    }
  }

  /** Back from a room returns to the screen the room was entered from: a chat entered from the
      chats screen leads back to it, and the group callback followed by back leads to the
      groups screen with the group kept. */
  lemma {:induction false} BackFromRoom(n: Nav, c: Chat, g: Group)
    requires Consistent(n)
    ensures MainArea(n) == ChatsScreen ==> Step(Step(n, SelectChat(c)), Back).section == Chats
    ensures Handle(Handle(n, SelectGroup(g)), Back) == n.(section := Groups, selectedGroup := Some(g))
  {
    if MainArea(n) == ChatsScreen {
      var m := Step(n, SelectChat(c));
      assert MainArea(m) == ChatScreen(c);
    }
  }

  /** What `ChatApp` renders: nothing without a token, else the sidebar and the main area. */
  datatype Shell = Nothing | Shown(main: Screen, avatar: Option<string>)

  class ChatApp {
    const token: JsStr
    const user: Option<User>
    var nav: Nav

    constructor (token: JsStr, user: Option<User>)
      ensures this.token == token && this.user == user && nav == Start
      ensures Valid()
    {
      this.token, this.user := token, user;
      nav := Start;
    }

    predicate Valid()
      reads this
    {
      Consistent(nav) && GroupFree(nav)
    }

    function View(defaultAvatar: string): (v: Shell)
      reads this
      ensures !Truthy(token) <==> v.Nothing?
      ensures v.Shown? ==> v.main == MainArea(nav) && v.avatar == SidebarAvatar(user, defaultAvatar)
    {
      if !Truthy(token) then Nothing else Shown(MainArea(nav), SidebarAvatar(user, defaultAvatar))
    }

    /** A click; none can happen while nothing is rendered. */
    method Click(e: NavEvent)
      requires Valid()
      modifies this
      ensures Valid()
      ensures Truthy(token) ==> nav == Step(old(nav), e)
      ensures !Truthy(token) ==> nav == old(nav)
    {
      if Truthy(token) {
        nav := Step(nav, e);
        StepsConsistent(old(nav), [e]);
        StepsGroupFree(old(nav), [e]);
        assert Steps(old(nav), [e]) == Steps(nav, []);
      }
    }
  }
}
