/** The composer of src/chat/components/ChatMessageInput.jsx: the text field's send/clear rule,
    the typing callback, the image picker, the voice-note recorder toggle and the tic button.
    The callbacks it invokes on its parent are recorded in order. */
module MessageInput {
  import opened Js
  import opened Entities

  /** An opaque handle on a recorded audio chunk (`e.data`). */
  datatype Chunk = Chunk(handle: nat)

  /** A call into the parent: `onSend(text)`, `onTyping()`, `onSendImage(file)`,
      `onSendAudio(blob of chunks)`, `onSendTic()`. */
  datatype Signal = SendText(text: string) | Typing | SendImage(file: FileRef) | SendAudio(chunks: seq<Chunk>) | SendTic

  /** `handleSend`: the raw input is sent iff it has a non-whitespace character, and then the
      field is cleared; otherwise nothing is sent and the field is left as it is. */
  function SendRule(input: string): (r: (Option<string>, string))
    ensures r.0.Some? <==> exists k :: 0 <= k < |input| && !IsWhitespace(input[k])
    ensures r.0.Some? ==> r.0.value == input && r.1 == ""
    ensures r.0.None? ==> r.1 == input
  {
    if Trim(input) != "" then (Some(input), "") else (None, input)
  }

  /** A second submit right after the first sends nothing and leaves the field as it is. */
  lemma {:induction false} SubmitTwice(input: string)
    ensures SendRule(SendRule(input).1) == (None, SendRule(input).1)
  {
    if SendRule(input).0.Some? {
      assert SendRule(input).1 == "";
    } else {
      assert SendRule(SendRule(input).1) == SendRule(input);
    }
  }

  class Composer {
    var input: string
    var recording: bool
    /** The recorder's buffer, `audioChunksRef.current`. */
    var chunks: seq<Chunk>
    /** The hidden file field's selection, `e.target.files[0]`. */
    var fileField: Option<FileRef>
    /** The calls made into the parent, in order. */
    var signals: seq<Signal>

    constructor ()
      ensures input == "" && !recording && chunks == [] && fileField.None? && signals == []
    {
      input, recording, chunks, fileField, signals := "", false, [], None, [];
    }

    method HandleSend()
      modifies this
      ensures SendRule(old(input)).0.Some? ==> signals == old(signals) + [SendText(old(input))]
      ensures SendRule(old(input)).0.None? ==> signals == old(signals)
      ensures input == SendRule(old(input)).1
      ensures recording == old(recording) && chunks == old(chunks) && fileField == old(fileField)
    {
      var (sent, after) := SendRule(input);
      if sent.Some? {
        signals := signals + [SendText(sent.value)];
      }
      input := after;
    }

    /** The text field's `onChange`; `hasOnTyping` says whether the parent passed `onTyping`. */
    method OnChange(value: string, hasOnTyping: bool)
      modifies this
      ensures input == value
      ensures signals == old(signals) + (if hasOnTyping then [Typing] else [])
      ensures recording == old(recording) && chunks == old(chunks) && fileField == old(fileField)
    {
      input := value;
      if hasOnTyping {
        signals := signals + [Typing];
      }
    }

    /** A change of the file field (the browser stores the pick, then `handleImage` runs): the
        chosen file, if any, goes to the parent, and the field is reset either way. */
    method HandleImage(picked: Option<FileRef>)
      modifies this
      ensures picked.Some? ==> signals == old(signals) + [SendImage(picked.value)]
      ensures picked.None? ==> signals == old(signals)
      ensures fileField.None?
      ensures input == old(input) && recording == old(recording) && chunks == old(chunks)
    {
      fileField := picked;
      if fileField.Some? {
        signals := signals + [SendImage(fileField.value)];
      }
      fileField := None;
    }

    /** `handleRecord`: while recording, stop and clear the flag; otherwise, when the browser can
        record and the microphone is granted, start a new recording with an empty buffer.
        (When it cannot record the user is alerted; a refused microphone rejects the handler.) */
    method HandleRecord(supported: bool, granted: bool)
      modifies this
      ensures old(recording) ==> !recording && chunks == old(chunks)
      ensures !old(recording) && supported && granted ==> recording && chunks == []
      ensures !old(recording) && !(supported && granted) ==> !recording && chunks == old(chunks)
      ensures input == old(input) && signals == old(signals) && fileField == old(fileField)
    {
      if recording {
        recording := false;
        return;
      }
      if !supported || !granted {
        return;
      }
      chunks := [];
      recording := true;
    }

    /** The recorder's `ondataavailable`. */
    method OnData(c: Chunk)
      modifies this
      ensures chunks == old(chunks) + [c]
      ensures input == old(input) && recording == old(recording) && signals == old(signals)
      ensures fileField == old(fileField)
    {
      chunks := chunks + [c];
    }

    /** The recorder's `onstop`: every buffered chunk goes to the parent as one blob. */
    method OnStop()
      modifies this
      ensures signals == old(signals) + [SendAudio(old(chunks))]
      ensures input == old(input) && recording == old(recording) && chunks == old(chunks)
      ensures fileField == old(fileField)
    {
      signals := signals + [SendAudio(chunks)];
    }

    method HandleTic()
      modifies this
      ensures signals == old(signals) + [SendTic]
      ensures input == old(input) && recording == old(recording) && chunks == old(chunks)
      ensures fileField == old(fileField)
    {
      signals := signals + [SendTic];
    }
  }
}
