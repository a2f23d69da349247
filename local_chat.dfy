/** The local conversation of src/chat/screens/ChatScreen.jsx: three seeded entries, then one
    entry appended per send, with no de-duplication. The clock (`Date.now()`, the formatted
    time) and `URL.createObjectURL` are inputs. */
module LocalChat {
  import opened Js
  import opened Entities

  /** What an entry carries: `text`, `image` (an object URL), `audio` (an object URL) or `tic`. */
  datatype Payload = Text(text: string) | Image(url: string) | Audio(url: string) | Tic

  /** `{ id, from, <payload>, time }` */
  datatype Entry = Entry(id: int, from: JsStr, payload: Payload, time: string)

  /** The initial list: ids 1, 2, 3, from the user, the other user, the user. */
  function Seed(me: JsStr, other: JsStr): (r: seq<Entry>)
    ensures |r| == 3
    ensures forall k :: 0 <= k < 3 ==> r[k].id == k + 1
    ensures r[0].from == me && r[1].from == other && r[2].from == me
  {
    [ Entry(1, me, Text("¡Hola!"), "10:00"),
      Entry(2, other, Text("¡Hola! ¿Cómo estás?"), "10:01"),
      Entry(3, me, Text("Todo bien, ¿y vos?"), "10:02") ]
  }

  /** `chat?.otherUser?._id` */
  function OtherId(chat: Option<Chat>): JsStr {
    if chat.Some? && chat.value.otherUser.Some? then chat.value.otherUser.value.id else Undef
  }

  /** `msg.from === user?._id`: the entry is drawn on the right, as the user's own. */
  predicate IsMine(e: Entry, me: JsStr) {
    e.from == me
  }

  /** One send: the payload, the `Date.now()` id and the formatted time it was sent with. */
  datatype Send = Send(payload: Payload, now: int, time: string)

  /** The list after the sends, in order. */
  function SendAll(ms: seq<Entry>, me: JsStr, sends: seq<Send>): seq<Entry>
    decreases sends
  {
    if sends == [] then ms
    else SendAll(ms + [Entry(sends[0].now, me, sends[0].payload, sends[0].time)], me, sends[1..])
  }

  /** Sends only append: earlier entries stay in place, each send adds exactly one entry of the
      user's own at the end, in order, whatever its id. */
  lemma {:induction false} SendAllAppends(ms: seq<Entry>, me: JsStr, sends: seq<Send>)
    ensures |SendAll(ms, me, sends)| == |ms| + |sends|
    ensures SendAll(ms, me, sends)[..|ms|] == ms
    ensures forall k :: 0 <= k < |sends| ==>
              SendAll(ms, me, sends)[|ms| + k] == Entry(sends[k].now, me, sends[k].payload, sends[k].time)
    ensures forall k :: |ms| <= k < |SendAll(ms, me, sends)| ==> IsMine(SendAll(ms, me, sends)[k], me)
    decreases sends
  {
    if sends != [] {
      var e := Entry(sends[0].now, me, sends[0].payload, sends[0].time);
      var ms' := ms + [e];
      SendAllAppends(ms', me, sends[1..]);
      var r := SendAll(ms, me, sends);
      assert r == SendAll(ms', me, sends[1..]);
      assert r[..|ms|] == r[..|ms'|][..|ms|];
      forall k | 0 <= k < |sends|
        ensures r[|ms| + k] == Entry(sends[k].now, me, sends[k].payload, sends[k].time)
      {
        if k == 0 {
          assert r[|ms|] == r[..|ms'|][|ms|] == ms'[|ms|] == e;
        } else {
          assert sends[1..][k - 1] == sends[k];
        }
      }
    }
  }

  /** Two sends in the same millisecond both stay, under the same id. */
  lemma SameMillisecondTwice(ms: seq<Entry>, me: JsStr, p: Payload, now: int, time: string)
    ensures var r := SendAll(ms, me, [Send(p, now, time), Send(p, now, time)]);
            |r| == |ms| + 2 && r[|ms|] == r[|ms| + 1] && r[|ms|].id == now
  {
    SendAllAppends(ms, me, [Send(p, now, time), Send(p, now, time)]);
  }

  class ChatScreen {
    const me: JsStr
    const chat: Option<Chat>
    var messages: seq<Entry>

    /** `me` is `user?._id`. */
    constructor (me: JsStr, chat: Option<Chat>)
      ensures this.me == me && this.chat == chat
      ensures messages == Seed(me, OtherId(chat))
    {
      this.me, this.chat := me, chat;
      messages := Seed(me, OtherId(chat));
    }

    /** `handleSend(text)` */
    method HandleSend(text: string, now: int, time: string)
      modifies this
      ensures messages == old(messages) + [Entry(now, me, Text(text), time)]
      ensures messages == SendAll(old(messages), me, [Send(Text(text), now, time)])
    {
      messages := messages + [Entry(now, me, Text(text), time)];
      assert [Send(Text(text), now, time)][1..] == [];
    }

    /** `handleSendImage(file)`; `url` is the object URL created for it. */
    method HandleSendImage(url: string, now: int, time: string)
      modifies this
      ensures messages == old(messages) + [Entry(now, me, Image(url), time)]
      ensures messages == SendAll(old(messages), me, [Send(Image(url), now, time)])
    {
      messages := messages + [Entry(now, me, Image(url), time)];
      assert [Send(Image(url), now, time)][1..] == [];
    }

    /** `handleSendAudio(blob)`; `url` is the object URL created for it. */
    method HandleSendAudio(url: string, now: int, time: string)
      modifies this
      ensures messages == old(messages) + [Entry(now, me, Audio(url), time)]
      ensures messages == SendAll(old(messages), me, [Send(Audio(url), now, time)])
    {
      messages := messages + [Entry(now, me, Audio(url), time)];
      assert [Send(Audio(url), now, time)][1..] == [];
    }

    /** `handleSendTic()` (its sound and screen shake are not modelled). */
    method HandleSendTic(now: int, time: string)
      modifies this
      ensures messages == old(messages) + [Entry(now, me, Tic, time)]
      ensures messages == SendAll(old(messages), me, [Send(Tic, now, time)])
    {
      messages := messages + [Entry(now, me, Tic, time)];
      assert [Send(Tic, now, time)][1..] == [];
    }
  }
}
