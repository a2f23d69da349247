/** The message timeline of src/chat/components/ChatWindow.js: history seeding, the de-duplicating
    socket append, the send rule, and the join/leave lifecycle of the window's socket. */
module Timeline {
  import opened Js
  import opened Entities
  import opened Sockets

  predicate HasId(ms: seq<Message>, id: string) {
    exists i :: 0 <= i < |ms| && ms[i].id == id
  }

  predicate DistinctIds(ms: seq<Message>) {
    forall i, j :: 0 <= i < j < |ms| ==> ms[i].id != ms[j].id
  }

  function Ids(ms: seq<Message>): set<string> {
    set i | 0 <= i < |ms| :: ms[i].id
  }

  /** `prev.some(m => m._id === id)` */
  function AnyHasId(ms: seq<Message>, id: string): (r: bool)
    ensures r <==> HasId(ms, id)
  {
    if ms == [] then false
    else
      assert forall i :: 1 <= i < |ms| ==> ms[i] == ms[1..][i - 1];
      ms[0].id == id || AnyHasId(ms[1..], id)
  }

  lemma IdsAppend(ms: seq<Message>, m: Message)
    ensures Ids(ms + [m]) == Ids(ms) + {m.id}
  {
    var r := ms + [m];
    assert forall i :: 0 <= i < |ms| ==> r[i] == ms[i];
    assert r[|ms|] == m;
  }

  lemma IdsCons(s: seq<Message>)
    requires s != []
    ensures Ids(s) == {s[0].id} + Ids(s[1..])
  {
    assert forall i :: 1 <= i < |s| ==> s[i] == s[1..][i - 1];
  }

  lemma PrefixOfPrefix(r: seq<Message>, once: seq<Message>, ms: seq<Message>)
    requires |ms| <= |once| <= |r| && r[..|once|] == once && once[..|ms|] == ms
    ensures r[..|ms|] == ms
  {
    assert r[..|ms|] == r[..|once|][..|ms|];
  }

  /** The socket `message` handler: the incoming message is appended iff no entry has its `_id`;
      otherwise the list is unchanged. */
  function Merge(ms: seq<Message>, m: Message): (r: seq<Message>)
    ensures HasId(ms, m.id) ==> r == ms
    ensures !HasId(ms, m.id) ==> r == ms + [m]
    ensures |ms| <= |r| <= |ms| + 1 && r[..|ms|] == ms
    ensures HasId(r, m.id)
    ensures Ids(r) == Ids(ms) + {m.id}
    ensures DistinctIds(ms) ==> DistinctIds(r)
  {
    IdsAppend(ms, m);
    if AnyHasId(ms, m.id) then ms else ms + [m]
  }

  /** Delivering the same message twice is delivering it once. */
  lemma MergeIdempotent(ms: seq<Message>, m: Message)
    ensures Merge(Merge(ms, m), m) == Merge(ms, m)
  {
  }

  /** The list after the socket delivers `incoming`, in order. */
  function MergeAll(ms: seq<Message>, incoming: seq<Message>): (r: seq<Message>)
    ensures |ms| <= |r| <= |ms| + |incoming| && r[..|ms|] == ms
    ensures Ids(r) == Ids(ms) + Ids(incoming)
    ensures DistinctIds(ms) ==> DistinctIds(r)
    decreases incoming
  {
    if incoming == [] then ms
    else
      var once := Merge(ms, incoming[0]);
      var r := MergeAll(once, incoming[1..]);
      PrefixOfPrefix(r, once, ms);
      IdsCons(incoming);
      r
  }

  /** Messages whose ids are all known already change nothing. */
  lemma {:induction false} MergeAllKnown(ms: seq<Message>, incoming: seq<Message>)
    requires Ids(incoming) <= Ids(ms)
    ensures MergeAll(ms, incoming) == ms
    decreases incoming
  {
    if incoming != [] {
      assert incoming[0].id in Ids(incoming);
      assert HasId(ms, incoming[0].id);
      IdsCons(incoming);
      MergeAllKnown(ms, incoming[1..]);
    }
  }

  /** Re-delivering a whole batch of socket messages changes nothing. */
  lemma {:induction false} MergeAllIdempotent(ms: seq<Message>, incoming: seq<Message>)
    ensures MergeAll(MergeAll(ms, incoming), incoming) == MergeAll(ms, incoming)
  {
    MergeAllKnown(MergeAll(ms, incoming), incoming);
  }

  /** What can happen to the list of an open window: a socket message, or the history reply
      (`setMessages(data.messages || data)`), which replaces the list. */
  datatype TimelineEvent = Live(m: Message) | History(data: Listing<Message>)

  function Apply(ms: seq<Message>, e: TimelineEvent): seq<Message> {
    match e
    case Live(m) => Merge(ms, m)
    case History(data) => FieldOrSelf(data)
  }

  function ApplyAll(ms: seq<Message>, es: seq<TimelineEvent>): seq<Message>
    decreases es
  {
    if es == [] then ms else ApplyAll(Apply(ms, es[0]), es[1..])
  }

  /** Every history page that arrives has distinct ids. */
  predicate HistoriesDistinct(es: seq<TimelineEvent>) {
    forall k :: 0 <= k < |es| && es[k].History? ==> DistinctIds(es[k].data.items)
  }

  /** Whatever the interleaving of socket messages and history replies, no id appears twice,
      provided the list and every history page start out that way. */
  lemma {:induction false} ApplyAllDistinct(ms: seq<Message>, es: seq<TimelineEvent>)
    requires DistinctIds(ms) && HistoriesDistinct(es)
    ensures DistinctIds(ApplyAll(ms, es))
    decreases es
  {
    if es != [] {
      assert HistoriesDistinct(es[1..]) by {
        forall k | 0 <= k < |es[1..]| && es[1..][k].History?
          ensures DistinctIds(es[1..][k].data.items)
        {
          assert es[1..][k] == es[k + 1];
        }
      }
      ApplyAllDistinct(Apply(ms, es[0]), es[1..]);
    }
  }

  /** The history reply does not merge: a message the socket delivered before the reply
      resolved is gone afterwards when the page does not contain it. */
  lemma {:induction false} HistoryDropsEarlierLiveMessage(ms: seq<Message>, m: Message, data: Listing<Message>)
    requires !HasId(data.items, m.id)
    ensures HasId(Apply(ms, Live(m)), m.id)
    ensures ApplyAll(ms, [Live(m), History(data)]) == data.items
    ensures !HasId(ApplyAll(ms, [Live(m), History(data)]), m.id)
  {
    var es := [Live(m), History(data)];
    assert es[1..] == [History(data)] && [History(data)][1..] == [];
    assert ApplyAll(ms, es) == ApplyAll(Merge(ms, m), [History(data)]);
    assert ApplyAll(Merge(ms, m), [History(data)]) == ApplyAll(FieldOrSelf(data), []);
  }

  class ChatWindow {
    const chat: Option<Chat>
    const token: JsStr
    const io: SocketIo
    var messages: seq<Message>
    var input: string
    var loading: bool
    var error: string
    /** `socketRef.current` */
    var socket: Option<nat>
    /** Whether the `message` listener of the current socket is installed. */
    var listening: bool

    /** Both effects of the window run only with a chat and a token. */
    predicate Active() {
      chat.Some? && Truthy(token)
    }

    constructor (chat: Option<Chat>, token: JsStr, io: SocketIo)
      ensures this.chat == chat && this.token == token && this.io == io
      ensures messages == [] && input == "" && loading && error == ""
      ensures socket.None? && !listening
    {
      this.chat, this.token, this.io := chat, token, io;
      messages, input, loading, error := [], "", true, "";
      socket, listening := None, false;
    }

    /** The history effect: the reply replaces the list (or sets the error); loading ends
        false either way. Without chat or token nothing happens. */
    method LoadHistory(reply: Result<Listing<Message>>)
      modifies this
      ensures !Active() ==> messages == old(messages) && loading == old(loading) && error == old(error)
      ensures Active() && reply.Ok? ==> messages == FieldOrSelf(reply.value) && error == old(error)
      ensures Active() && reply.Err? ==> messages == old(messages) && error == reply.message
      ensures Active() ==> !loading
      ensures input == old(input) && socket == old(socket) && listening == old(listening)
    {
      if !Active() {
        return;
      }
      loading := true;
      match reply {
        case Ok(data) => messages := FieldOrSelf(data);
        case Err(e) => error := e;
      }
      loading := false;
    }

    /** The socket effect: open a socket, join the chat's room, listen for messages. */
    method Open()
      requires io.Valid()
      modifies this, io
      ensures io.Valid()
      ensures !Active() ==> socket == old(socket) && listening == old(listening) && io.log == old(io.log)
      ensures Active() ==>
                && socket == Some(old(io.count)) && listening
                && io.log == old(io.log) + [Opened(old(io.count), token), Emitted(old(io.count), "join", Str(chat.value.id))]
      ensures messages == old(messages) && input == old(input) && loading == old(loading) && error == old(error)
    {
      if !Active() {
        return;
      }
      var h := io.Open(token);
      socket := Some(h);
      io.Emit(h, "join", Str(chat.value.id));
      listening := true;
    }

    /** A `message` event on the window's socket. */
    method OnMessage(m: Message)
      modifies this
      ensures listening ==> messages == Merge(old(messages), m)
      ensures !listening ==> messages == old(messages)
      ensures input == old(input) && loading == old(loading) && error == old(error)
      ensures socket == old(socket) && listening == old(listening)
    {
      if listening {
        messages := Merge(messages, m);
      }
    }

    method OnInput(value: string)
      modifies this
      ensures input == value
      ensures messages == old(messages) && loading == old(loading) && error == old(error)
      ensures socket == old(socket) && listening == old(listening)
    {
      input := value;
    }

    /** `handleSend`: a blank input sends nothing; otherwise the raw input is posted, and the
        input is cleared on success or the error is shown on failure. The list is never touched:
        the server's copy comes back over the socket. */
    method HandleSend(reply: Result<()>) returns (sent: Option<string>)
      requires chat.Some?
      modifies this
      ensures IsBlank(old(input)) ==> sent.None? && input == old(input) && error == old(error)
      ensures !IsBlank(old(input)) ==> sent == Some(old(input))
      ensures !IsBlank(old(input)) && reply.Ok? ==> input == "" && error == old(error)
      ensures !IsBlank(old(input)) && reply.Err? ==> input == old(input) && error == reply.message
      ensures messages == old(messages) && loading == old(loading)
      ensures socket == old(socket) && listening == old(listening)
    {
      if Trim(input) == "" {
        return None;
      }
      sent := Some(input);
      match reply {
        case Ok(_) => input := "";
        case Err(e) => error := e;
      }
    }

    /** The socket effect's cleanup: leave the room, then disconnect. */
    method Close()
      requires io.Valid()
      modifies this, io
      ensures io.Valid()
      ensures old(listening) && old(socket).Some? && chat.Some? ==>
                && io.log == old(io.log) + [Emitted(old(socket).value, "leave", Str(chat.value.id)), Disconnected(old(socket).value)]
                && io.live == old(io.live) - {old(socket).value}
      ensures !(old(listening) && old(socket).Some? && chat.Some?) ==> io.log == old(io.log)
      ensures !listening && socket == old(socket)
      ensures messages == old(messages) && input == old(input) && loading == old(loading) && error == old(error)
    {
      if listening && socket.Some? && chat.Some? {
        io.Emit(socket.value, "leave", Str(chat.value.id));
        io.Disconnect(socket.value);
      }
      listening := false;
    }
  }
}
