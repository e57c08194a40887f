/**
 The three-frame envelope `[addr, empty, request]` and the way both pumps
 take it apart: pop three frames (each missing one is `NotEnoughMessages`),
 then insist that the middle one is empty (`MsgNotEmpty`). Frames after
 the third are handed back untouched; neither pump rejects them.
 */
module Codec {
  import opened Frames

  datatype Envelope = Envelope(addr: Frame, empty: Frame, request: Frame)

  /** The multipart an envelope becomes: its three frames in field order. */
  function ToMultipart(e: Envelope): Multipart
  {
    [e.addr, e.empty, e.request]
  }

  /** Pops the leading envelope of a multipart and returns it with the frames
      that follow it. */
  function PopEnvelope(m: Multipart): (r: Result<(Envelope, Multipart)>)
    ensures r.Ok? <==> |m| >= 3 && m[1] == Delimiter
    ensures r.Err? ==> (r.error == NotEnoughMessages <==> |m| < 3)
    ensures r.Err? ==> r.error != TooManyMessages
    ensures r.Ok? ==> ToMultipart(r.value.0) + r.value.1 == m
  {
    if |m| < 3 then Err(NotEnoughMessages)
    else if m[1] != Delimiter then Err(MsgNotEmpty)
    else Ok((Envelope(m[0], m[1], m[2]), m[3..]))
  }

  /** Encoding an envelope and popping it again gives the envelope back, with
      any following frames as the remainder, exactly when its delimiter is empty. */
  lemma EnvelopeRoundTrip(e: Envelope, rest: Multipart)
    ensures |ToMultipart(e)| == 3
    ensures PopEnvelope(ToMultipart(e) + rest)
            == if e.empty == Delimiter then Ok((e, rest)) else Err(MsgNotEmpty)
  {
    var m := ToMultipart(e) + rest;
    assert m[..3] == ToMultipart(e) && m[3..] == rest;
  }

  /** The envelope fields are determined by the frames: two envelopes that
      encode to the same multipart are the same envelope. */
  lemma ToMultipartInjective(e1: Envelope, e2: Envelope)
    requires ToMultipart(e1) == ToMultipart(e2)
    ensures e1 == e2
  {
    assert ToMultipart(e1)[0] == e2.addr;
    assert ToMultipart(e1)[1] == e2.empty;
    assert ToMultipart(e1)[2] == e2.request;
  }
}
