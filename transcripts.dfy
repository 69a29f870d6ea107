/**
 * The transcript list of the browser client (apps/frontend/hooks/useTranscripts.ts),
 * as reducers on the list: each state update builds a new list from the
 * previous one, and the data-channel handler is a chain of `if`s on the
 * event's `type`.
 */
module Transcripts {
  import opened Shared

  datatype Role = User | Assistant

  datatype Transcript = Transcript(role: Role, text: string)

  /** The `part` object of a `response.content_part.done` event. */
  datatype ContentPart = ContentPart(partType: string, transcript: Option<string>)

  /** The fields of a decoded data-channel event that the handler reads. */
  datatype DataEvent = DataEvent(
    eventType: string,
    transcript: string,
    text: string,
    part: Option<ContentPart>)

  const USER_TRANSCRIPTION_COMPLETED := "conversation.item.input_audio_transcription.completed"
  const AUDIO_TRANSCRIPT_DONE := "response.audio_transcript.done"
  const CONTENT_PART_DONE := "response.content_part.done"
  const TEXT_DONE := "response.text.done"

  /** `[...prev, {role, text}]`. */
  function AddTranscript(ts: seq<Transcript>, role: Role, text: string): (r: seq<Transcript>)
    ensures |r| == |ts| + 1
    ensures r[..|ts|] == ts
    ensures r[|ts|] == Transcript(role, text)
  {
    ts + [Transcript(role, text)]
  }

  /** The list after `clearTranscripts`, whatever it held before. */
  function ClearTranscripts(): (r: seq<Transcript>)
    ensures |r| == 0
  {
    []
  }

  /** A finished audio part carrying a non-empty transcript. */
  predicate IsSpokenPart(part: Option<ContentPart>) {
    part.Some? && part.value.partType == "audio" && Truthy(part.value.transcript)
  }

  /**
   * The entry a decoded event adds, if any. The four tests of the source are
   * not chained with `else`, but they test `type` against four different
   * strings, so at most one of them holds.
   */
  function EntryFor(e: DataEvent): Option<Transcript> {
    if e.eventType == USER_TRANSCRIPTION_COMPLETED then Some(Transcript(User, e.transcript))
    else if e.eventType == AUDIO_TRANSCRIPT_DONE then Some(Transcript(Assistant, e.transcript))
    else if e.eventType == CONTENT_PART_DONE && IsSpokenPart(e.part) then
      Some(Transcript(Assistant, e.part.value.transcript.value))
    else if e.eventType == TEXT_DONE then Some(Transcript(Assistant, e.text))
    else None
  }

  /**
   * `handleDataChannelMessage`: `None` is a message that is not JSON, which
   * makes `JSON.parse` throw before any update, so the list is unchanged.
   */
  function HandleDataChannelMessage(ts: seq<Transcript>, msg: Option<DataEvent>): (r: seq<Transcript>)
    ensures ts <= r && |r| <= |ts| + 1
    ensures |r| == |ts| + 1 <==> msg.Some? && EntryFor(msg.value).Some?
  {
    if msg.Some? && EntryFor(msg.value).Some? then
      var e := EntryFor(msg.value).value;
      AddTranscript(ts, e.role, e.text)
    else ts
  }

  /** A user transcription appends a `user` entry with the event's transcript. */
  lemma UserTranscriptionAppends(ts: seq<Transcript>, e: DataEvent)
    requires e.eventType == USER_TRANSCRIPTION_COMPLETED
    ensures HandleDataChannelMessage(ts, Some(e)) == ts + [Transcript(User, e.transcript)]
  {
  }

  /** A finished audio transcript appends an `assistant` entry with the event's transcript. */
  lemma AudioTranscriptAppends(ts: seq<Transcript>, e: DataEvent)
    requires e.eventType == AUDIO_TRANSCRIPT_DONE
    ensures HandleDataChannelMessage(ts, Some(e)) == ts + [Transcript(Assistant, e.transcript)]
  {
  }

  /** A finished content part appends an `assistant` entry exactly when it is audio with a non-empty transcript. */
  lemma ContentPartAppendsOnlySpokenParts(ts: seq<Transcript>, e: DataEvent)
    requires e.eventType == CONTENT_PART_DONE
    ensures IsSpokenPart(e.part) ==>
      HandleDataChannelMessage(ts, Some(e)) == ts + [Transcript(Assistant, e.part.value.transcript.value)]
    ensures !IsSpokenPart(e.part) ==> HandleDataChannelMessage(ts, Some(e)) == ts
  {
  }

  /** A finished text response appends an `assistant` entry with the event's text. */
  lemma TextDoneAppends(ts: seq<Transcript>, e: DataEvent)
    requires e.eventType == TEXT_DONE
    ensures HandleDataChannelMessage(ts, Some(e)) == ts + [Transcript(Assistant, e.text)]
  {
  }

  /** Every other event type leaves the list as it was. */
  lemma OtherEventsIgnored(ts: seq<Transcript>, e: DataEvent)
    requires e.eventType !in {USER_TRANSCRIPTION_COMPLETED, AUDIO_TRANSCRIPT_DONE, CONTENT_PART_DONE, TEXT_DONE}
    ensures HandleDataChannelMessage(ts, Some(e)) == ts
  {
  }

  /** The list after a run of data-channel messages, starting from `ts`. */
  function Replay(ts: seq<Transcript>, msgs: seq<Option<DataEvent>>): seq<Transcript>
    decreases |msgs|
  {
    if msgs == [] then ts
    else Replay(HandleDataChannelMessage(ts, msgs[0]), msgs[1..])
  }

  /**
   * Over any run of messages the list only grows at its end, by at most one
   * entry per message: earlier entries are never changed or removed.
   */
  lemma {:induction false} ReplayAppendOnly(ts: seq<Transcript>, msgs: seq<Option<DataEvent>>)
    ensures ts <= Replay(ts, msgs)
    ensures |Replay(ts, msgs)| <= |ts| + |msgs|
    decreases |msgs|
  {
    if msgs != [] {
      var next := HandleDataChannelMessage(ts, msgs[0]);
      ReplayAppendOnly(next, msgs[1..]);
    }
  }

  /** The entries one message adds: none, or the one its event yields. */
  function EntriesOf(msg: Option<DataEvent>): seq<Transcript> {
    if msg.Some? && EntryFor(msg.value).Some? then [EntryFor(msg.value).value] else []
  }

  lemma HandleAppendsEntries(ts: seq<Transcript>, msg: Option<DataEvent>)
    ensures HandleDataChannelMessage(ts, msg) == ts + EntriesOf(msg)
  {
  }

  lemma AppendAssoc(a: seq<Transcript>, b: seq<Transcript>, c: seq<Transcript>)
    ensures (a + b) + c == a + (b + c)
  {
  }

  /** The entries a run of messages yields, in order. */
  function Entries(msgs: seq<Option<DataEvent>>): seq<Transcript>
    decreases |msgs|
  {
    if msgs == [] then [] else EntriesOf(msgs[0]) + Entries(msgs[1..])
  }

  /** Each entry added by a run of messages is the entry of one of those messages, in order. */
  lemma {:induction false} ReplayEntries(ts: seq<Transcript>, msgs: seq<Option<DataEvent>>)
    ensures Replay(ts, msgs) == ts + Entries(msgs)
    decreases |msgs|
  {
    if msgs != [] {
      var next := HandleDataChannelMessage(ts, msgs[0]);
      HandleAppendsEntries(ts, msgs[0]);
      ReplayEntries(next, msgs[1..]);
      AppendAssoc(ts, EntriesOf(msgs[0]), Entries(msgs[1..]));
    }
  }
}
