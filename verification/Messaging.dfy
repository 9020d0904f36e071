/** The message aggregate and its creation event (internal/domain/messaging/message.go). */
module Messaging {
  import opened Base

  /** Database time in microseconds since the epoch, PostgreSQL's resolution. */
  type Time = int

  datatype Message = Message(id: int, text: string, checksum: string, createdAt: Time)

  datatype Event = Event(id: int, text: string, checksum: string, createdAt: Time, producer: string)

  function CreatedEvent(m: Message): Event {
    Event(m.id, m.text, m.checksum, m.createdAt, "otus-app")
  }

  /** Unicode white space, as `strings.TrimSpace` cuts it. */
  predicate IsSpace(c: char) {
    || '\t' <= c <= '\r' || c == ' ' || c == '\U{0085}' || c == '\U{00A0}' || c == '\U{1680}'
    || '\U{2000}' <= c <= '\U{200A}' || c == '\U{2028}' || c == '\U{2029}' || c == '\U{202F}'
    || c == '\U{205F}' || c == '\U{3000}'
  }

  /** `ValidateText`: trimming leaves something. */
  predicate ValidText(text: string) { exists i :: 0 <= i < |text| && !IsSpace(text[i]) }

  /** `strings.TrimSpace`. */
  function TrimSpace(text: string): string {
    if text != "" && IsSpace(text[0]) then TrimSpace(text[1..])
    else if text != "" && IsSpace(Last(text)) then TrimSpace(Init(text))
    else text
  }

  /** A text is valid exactly when trimming leaves something of it. */
  lemma {:induction false} ValidTextIsNotBlank(text: string)
    ensures ValidText(text) <==> TrimSpace(text) != ""
    decreases |text|
  {
    if text != "" && IsSpace(text[0]) {
      ValidTextIsNotBlank(text[1..]);
      assert ValidText(text[1..]) ==> ValidText(text) by {
        assert forall i :: 0 <= i < |text| - 1 ==> text[1..][i] == text[i + 1];
      }
      assert forall i :: 0 < i < |text| ==> text[i] == text[1..][i - 1];
    } else if text != "" && IsSpace(Last(text)) {
      ValidTextIsNotBlank(Init(text));
      assert forall i :: 0 <= i < |text| - 1 ==> Init(text)[i] == text[i];
    } else if text != "" {
      assert !IsSpace(text[0]);
    }
  }

  /** The code points with the Unicode property White_Space. */
  const WHITE_SPACE: set<int> := {9, 10, 11, 12, 13, 32, 133, 160, 5760, 8192, 8193, 8194, 8195, 8196, 8197, 8198, 8199,
                                  8200, 8201, 8202, 8232, 8233, 8239, 8287, 12288}

  lemma SpacesAreWhiteSpace(c: char)
    ensures IsSpace(c) <==> c as int in WHITE_SPACE
  {
  }

  /** A broker payload: the JSON of an event, or bytes that do not decode. The codec is taken to be lossless. */
  datatype Payload = Json(event: Event) | Malformed

  function Encode(e: Event): Payload { Json(e) }

  function Decode(p: Payload): Option<Event> { if p.Json? then Some(p.event) else None }

  /** A broker's log entry: Kafka puts it in a partition; the other brokers use one. */
  datatype Record = Record(part: nat, payload: Payload)
}
