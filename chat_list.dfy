/** The older roster component of src/chat/components/ChatList.js: one load guarded by the
    token, a loading/error/list view, and the row label. */
module ChatListing {
  import opened Js
  import opened Entities

  /** What the component renders. */
  datatype View = Loading | ErrorText(message: string) | Rows(labels: seq<JsStr>)

  /** The row label: `chat.name || chat.otherUser?.firstName || chat.otherUser?.email`. */
  function Label(chat: Chat): (r: JsStr)
    ensures Truthy(chat.name) ==> r == chat.name
    ensures (!Truthy(chat.name) && chat.otherUser.Some? && Truthy(chat.otherUser.value.firstName))
              ==> r == chat.otherUser.value.firstName
    ensures (!Truthy(chat.name) && chat.otherUser.Some? && !Truthy(chat.otherUser.value.firstName))
              ==> r == chat.otherUser.value.email
    ensures !Truthy(chat.name) && chat.otherUser.None? ==> r == Undef
  {
    var first := if chat.otherUser.Some? then chat.otherUser.value.firstName else Undef;
    var email := if chat.otherUser.Some? then chat.otherUser.value.email else Undef;
    Or(Or(chat.name, first), email)
  }

  function Labels(chats: seq<Chat>): (r: seq<JsStr>)
    ensures |r| == |chats|
    ensures forall i :: 0 <= i < |chats| ==> r[i] == Label(chats[i])
  {
    if chats == [] then [] else [Label(chats[0])] + Labels(chats[1..])
  }

  /** The render: loading hides everything, then a non-empty error hides the list. */
  function Render(loading: bool, error: string, chats: seq<Chat>): (v: View)
    ensures loading <==> v.Loading?
    ensures v.ErrorText? <==> !loading && error != ""
    ensures v.ErrorText? ==> v.message == error
    ensures v.Rows? ==> |v.labels| == |chats| && forall i :: 0 <= i < |chats| ==> v.labels[i] == Label(chats[i])
  {
    if loading then Loading
    else if error != "" then ErrorText(error)
    else Rows(Labels(chats))
  }

  class ChatList {
    const token: JsStr
    var chats: seq<Chat>
    var loading: bool
    var error: string

    constructor (token: JsStr)
      ensures this.token == token && chats == [] && loading && error == ""
    {
      this.token := token;
      chats, loading, error := [], true, "";
    }

    function View(): View
      reads this
    {
      Render(loading, error, chats)
    }

    /** The load effect. With a falsy token nothing happens (so the component stays on its
        loading text). Otherwise the roster is `data.chats || data`, a failure sets the error
        text, and loading ends false either way. */
    method Load(reply: Result<Listing<Chat>>)
      modifies this
      ensures !Truthy(token) ==> chats == old(chats) && loading == old(loading) && error == old(error)
      ensures Truthy(token) && reply.Ok? ==> chats == FieldOrSelf(reply.value) && error == old(error)
      ensures Truthy(token) && reply.Err? ==> chats == old(chats) && error == reply.message
      ensures Truthy(token) ==> !loading
    {
      if !Truthy(token) {
        return;
      }
      loading := true;
      match reply {
        case Ok(data) => chats := FieldOrSelf(data);
        case Err(e) => error := e;
      }
      loading := false;
    }
  }
}
