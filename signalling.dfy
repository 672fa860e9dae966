/**
 * The signalling messages exchanged through the relay. A message is a
 * JSON object distinguished by which of its optional fields are present:
 * `identifiedas` (the relay's identity notice), `identifier` (the sender
 * the message is about), `sdpoffer`, `sdpresponse` and `icecandidate`.
 * SDP blobs and ICE candidates are carried, never inspected.
 */
module Signalling {
  import opened Wrappers

  /** A session description, as the browser produced it. */
  datatype Sdp = Sdp(description: string)

  /** An ICE candidate, as the browser produced it. */
  datatype Candidate = Candidate(line: string)

  /** A parsed message. A field that is absent, null or otherwise falsy is
      `None`; `identifier` and `identifiedas` are the numbers the peers
      put there. */
  datatype Envelope = Envelope(
    identifiedas: Option<int>,
    identifier: Option<int>,
    sdpoffer: Option<Sdp>,
    sdpresponse: Option<Sdp>,
    icecandidate: Option<Candidate>)

  /** A text frame on a WebSocket: its characters, and what `JSON.parse`
      makes of them (`None` when it throws). */
  datatype Text = Text(raw: string, parsed: Option<Envelope>)

  /** `{identifier, sdpresponse}`: the receiver's answer to an offer. */
  function AnswerEnvelope(identifier: Option<int>, answer: Sdp): (e: Envelope)
    ensures e.identifier == identifier && e.sdpresponse == Some(answer)
    ensures e.identifiedas.None? && e.sdpoffer.None? && e.icecandidate.None?
  {
    Envelope(None, identifier, None, Some(answer), None)
  }

  /** `{identifier, icecandidate}`: a candidate one side gathered. */
  function CandidateEnvelope(identifier: Option<int>, candidate: Candidate): (e: Envelope)
    ensures e.identifier == identifier && e.icecandidate == Some(candidate)
    ensures e.identifiedas.None? && e.sdpoffer.None? && e.sdpresponse.None?
  {
    Envelope(None, identifier, None, None, Some(candidate))
  }
}
