/** The envelope every component exchanges. */
module Protocol {

  /** A payload is absent, not decodable as the expected object, or an object of text and number members. */
  datatype Payload = NoPayload | Undecodable | Members(text: map<string, string>, number: map<string, int>)

  datatype Envelope = Envelope(sid: string, rid: string, seq_: int, ts: int, kind: string, payload: Payload)
  {
    /** The first fault Envelope.Validate reports, or "" for a valid envelope. */
    function Problem(): string {
      if sid == "" then "sid is required"
      else if rid == "" then "rid is required"
      else if seq_ < 0 then "seq must be >= 0"
      else if ts <= 0 then "ts must be > 0"
      else if kind == "" then "type is required"
      else if payload == NoPayload then "payload is required"
      else ""
    }

    predicate Valid() {
      sid != "" && rid != "" && seq_ >= 0 && ts > 0 && kind != "" && payload != NoPayload
    }
  }

  /** A fault is reported exactly for the envelopes that are not valid. */
  lemma FaultsAreReported(e: Envelope)
    ensures e.Problem() == "" <==> e.Valid()
  {
  }

  /** A member that is missing decodes to the zero value. */
  function TextMember(p: Payload, name: string): string
    requires p.Members?
  {
    if name in p.text then p.text[name] else ""
  }

  function NumberMember(p: Payload, name: string): int
    requires p.Members?
  {
    if name in p.number then p.number[name] else 0
  }
}
