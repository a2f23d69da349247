/** The roster logic of src/chat/screens/ChatsScreen.jsx: the self-exclusion filter on search
    results, the other-participant resolution of a chat row, the row badge, and the screen's
    search/creation state. */
module Roster {
  import opened Js
  import opened Entities
  import opened Api

  /** The filter's test: a user differing from the current one in both `_id` and `email`
      (strict comparison, so two absent ids are equal). */
  predicate IsOther(u: User, me: User) {
    u.id != me.id && u.email != me.email
  }

  /** `users.filter(u => u._id !== user._id && u.email !== user.email)` */
  function ExcludeSelf(us: seq<User>, me: User): (r: seq<User>)
    ensures |r| <= |us|
    ensures forall u :: u in r ==> u in us && IsOther(u, me)
    ensures forall u :: u in us && IsOther(u, me) ==> u in r
    ensures (forall i :: 0 <= i < |us| ==> IsOther(us[i], me)) ==> r == us
  {
    if us == [] then []
    else
      var rest := ExcludeSelf(us[1..], me);
      assert us == [us[0]] + us[1..];
      assert forall u :: u in us <==> u == us[0] || u in us[1..];
      assert (forall i :: 0 <= i < |us| ==> IsOther(us[i], me)) ==>
               forall i :: 0 <= i < |us[1..]| ==> IsOther(us[1..][i], me) by {
        forall i | 0 <= i < |us[1..]| ensures us[1..][i] == us[i + 1] { }
      }
      if IsOther(us[0], me) then [us[0]] + rest else rest
  }

  /** The filter keeps order and multiplicity: filtering a concatenation is concatenating the
      filtered parts. */
  lemma {:induction false} ExcludeSelfAppend(xs: seq<User>, ys: seq<User>, me: User)
    ensures ExcludeSelf(xs + ys, me) == ExcludeSelf(xs, me) + ExcludeSelf(ys, me)
    decreases xs
  {
    if xs != [] {
      assert (xs + ys)[1..] == xs[1..] + ys;
      ExcludeSelfAppend(xs[1..], ys, me);
    } else {
      assert xs + ys == ys;
    }
  }

  /** A single user is kept exactly when they are not the current one. */
  lemma ExcludeSelfSingle(u: User, me: User)
    ensures ExcludeSelf([u], me) == (if IsOther(u, me) then [u] else [])
  {
    assert [u][1..] == [];
  }

  /** How many times each user appears after the filter: as often as in the input for the
      others, never for the current user. */
  lemma {:induction false} ExcludeSelfCounts(us: seq<User>, me: User, u: User)
    ensures multiset(ExcludeSelf(us, me))[u] == (if IsOther(u, me) then multiset(us)[u] else 0)
    decreases us
  {
    if us != [] {
      assert us == [us[0]] + us[1..];
      ExcludeSelfCounts(us[1..], me, u);
    }
  }

  /** Filtering twice is filtering once. */
  lemma {:induction false} ExcludeSelfIdempotent(us: seq<User>, me: User)
    ensures ExcludeSelf(ExcludeSelf(us, me), me) == ExcludeSelf(us, me)
  {
    var r := ExcludeSelf(us, me);
    forall i | 0 <= i < |r|
      ensures IsOther(r[i], me)
    {
      assert r[i] in r;
    }
  }

  /** The search results that `handleSearch` shows for a query of two or more characters:
      the filtered array, or nothing when the reply is not an array or the request threw. */
  function SearchResults(reply: Result<Json<User>>, me: User): (r: seq<User>)
    ensures forall u :: u in r ==> IsOther(u, me)
    ensures reply.Err? || reply.value.JsonNonArray? ==> r == []
    ensures reply.Ok? && reply.value.JsonArray? ==>
              forall u :: u in reply.value.items ==> (u in r <==> IsOther(u, me))
  {
    if reply.Err? then [] else ExcludeSelf(ArrayOrEmpty(reply.value), me)
  }

  /** `(chat.participants || []).find(u => ...)`: the first participant that is not the
      current user. */
  function FindOther(ps: seq<User>, me: User): (r: Option<User>)
    ensures r.Some? ==> exists i :: 0 <= i < |ps| && ps[i] == r.value && IsOther(ps[i], me)
                                    && forall k :: 0 <= k < i ==> !IsOther(ps[k], me)
    ensures r.None? <==> forall i :: 0 <= i < |ps| ==> !IsOther(ps[i], me)
  {
    if ps == [] then None
    else if IsOther(ps[0], me) then Some(ps[0])
    else
      var r := FindOther(ps[1..], me);
      assert forall i :: 1 <= i < |ps| ==> ps[i] == ps[1..][i - 1];
      r
  }

  /** `find(...) || chat.otherUser`: the participant found, else the chat's own summary. */
  function OtherParticipant(chat: Chat, me: User): (r: Option<User>)
    ensures var ps := if chat.participants.Some? then chat.participants.value else [];
            && (FindOther(ps, me).Some? ==> r == FindOther(ps, me) && IsOther(r.value, me))
            && (FindOther(ps, me).None? ==> r == chat.otherUser)
  {
    var ps := if chat.participants.Some? then chat.participants.value else [];
    var found := FindOther(ps, me);
    if found.Some? then found else chat.otherUser
  }

  /** A participant that is not the current user is never passed over for `chat.otherUser`. */
  lemma {:induction false} OtherParticipantFromParticipants(chat: Chat, me: User, u: User)
    requires chat.participants.Some? && u in chat.participants.value && IsOther(u, me)
    ensures OtherParticipant(chat, me).Some? && OtherParticipant(chat, me).value in chat.participants.value
    ensures IsOther(OtherParticipant(chat, me).value, me)
  {
    var ps := chat.participants.value;
    var i :| 0 <= i < |ps| && ps[i] == u;
    assert IsOther(ps[i], me);
  }

  /** `{...chat, otherUser: other}`: the chat handed to `onSelectChat` from a row. */
  function WithOther(chat: Chat, me: User): (r: Chat)
    ensures r.id == chat.id && r.name == chat.name && r.participants == chat.participants
    ensures r.otherUser == OtherParticipant(chat, me)
    ensures chat.otherUser == OtherParticipant(chat, me) ==> r == chat
  {
    chat.(otherUser := OtherParticipant(chat, me))
  }

  /** The badge letter: `(u?.firstName && u.firstName[0]) || (u?.email && u.email[0]) || '?'`. */
  function Badge(u: Option<User>): (c: char)
    ensures u.Some? && Truthy(u.value.firstName) ==> c == u.value.firstName.s[0]
    ensures u.Some? && !Truthy(u.value.firstName) && Truthy(u.value.email) ==> c == u.value.email.s[0]
    ensures (u.None? || (!Truthy(u.value.firstName) && !Truthy(u.value.email))) ==> c == '?'
  {
    if u.Some? && Truthy(u.value.firstName) then u.value.firstName.s[0]
    else if u.Some? && Truthy(u.value.email) then u.value.email.s[0]
    else '?'
  }

  /** The chat list screen. `me` is the `user` prop. */
  class ChatsScreen {
    const me: User
    var showModal: bool
    var search: string
    var results: seq<User>
    var loading: bool
    var chats: seq<Chat>
    var loadingChats: bool

    constructor (me: User)
      ensures this.me == me && !showModal && search == "" && results == [] && !loading
      ensures chats == [] && loadingChats
    {
      this.me := me;
      showModal, search, results, loading := false, "", [], false;
      chats, loadingChats := [], true;
    }

    /** The mount effect: the roster is the reply when it is an array, `[]` otherwise or when
        `getChats` threw; `loadingChats` ends false. */
    method LoadChats(reply: Result<Json<Chat>>)
      modifies this
      ensures reply.Ok? ==> chats == ArrayOrEmpty(reply.value)
      ensures reply.Err? ==> chats == []
      ensures !loadingChats
      ensures showModal == old(showModal) && search == old(search) && results == old(results)
      ensures loading == old(loading)
    {
      loadingChats := true;
      match reply {
        case Ok(data) => chats := ArrayOrEmpty(data);
        case Err(_) => chats := [];
      }
      loadingChats := false;
    }

    /** `handleSearch`: the field takes the value; a query shorter than two characters empties
        the results and requests nothing; otherwise `getUsers(value)` is requested (its URL is
        returned) and its filtered reply shown. */
    method HandleSearch(value: string, reply: Result<Json<User>>, encode: string -> string)
      returns (requested: Option<string>)
      modifies this
      ensures search == value
      ensures |value| < 2 ==> requested.None? && results == [] && loading == old(loading)
      ensures |value| >= 2 ==> requested == Some(UsersUrl(value, encode))
      ensures |value| >= 2 ==> results == SearchResults(reply, me) && !loading
      ensures showModal == old(showModal) && chats == old(chats) && loadingChats == old(loadingChats)
    {
      search := value;
      if |value| < 2 {
        results := [];
        return None;
      }
      loading := true;
      requested := Some(UsersUrl(value, encode));
      results := SearchResults(reply, me);
      loading := false;
    }

    method OpenModal()
      modifies this
      ensures showModal
      ensures search == old(search) && results == old(results) && loading == old(loading)
      ensures chats == old(chats) && loadingChats == old(loadingChats)
    {
      showModal := true;
    }

    method CloseModal()
      modifies this
      ensures !showModal
      ensures search == old(search) && results == old(results) && loading == old(loading)
      ensures chats == old(chats) && loadingChats == old(loadingChats)
    {
      showModal := false;
    }

    /** `handleCreateChat(target)`: the modal is closed and the search cleared before
        `createChat(user._id, target._id)` is requested; the returned chat is selected, and a
        failure selects nothing. */
    method HandleCreateChat(target: User, reply: Result<Chat>)
      returns (participants: (JsStr, JsStr), selected: Option<Chat>)
      modifies this
      ensures !showModal && search == "" && results == []
      ensures participants == (me.id, target.id)
      ensures reply.Ok? ==> selected == Some(reply.value)
      ensures reply.Err? ==> selected.None?
      ensures loading == old(loading) && chats == old(chats) && loadingChats == old(loadingChats)
    {
      showModal := false;
      search := "";
      results := [];
      participants := (me.id, target.id);
      selected := if reply.Ok? then Some(reply.value) else None;
    }
  }
}
