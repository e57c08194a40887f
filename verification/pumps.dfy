/**
 One iteration of each of the broker's two message pumps, as a pure step over
 the shared state: the FIFO of free worker identities and the messages sent so
 far on each endpoint. A failed iteration reports its error together with the
 state its side effects had already produced.
 */
module Pumps {
  import opened Frames
  import opened Codec

  /** The broker's shared state: the queue of workers that said they are free
      (head first) and the multiparts sent to the backend and frontend sockets. */
  datatype Broker = Broker(queue: seq<Frame>, toBackend: seq<Multipart>, toFrontend: seq<Multipart>)

  /** The state after one iteration, and the error that ended the pump, if any. */
  datatype Outcome = Outcome(broker: Broker, fault: Option<Error>)

  /** The job sent to a worker, `[worker, empty, client, body]`: the backend
      router consumes the worker identity and the worker's REQ socket the
      delimiter, so the client identity and the body are what the worker reads. */
  function Dispatch(worker: Frame, job: Envelope): Multipart
  {
    [worker, job.empty, job.addr, job.request]
  }

  /** One iteration of the frontend pump on the client multipart `m`. The pump
      blocks on the queue, so the step needs a free worker; it claims the head
      before it looks at `m`, and keeps the claim even when `m` is malformed. */
  function FrontendStep(b: Broker, m: Multipart): (r: Outcome)
    requires b.queue != []
    ensures r.broker.queue == b.queue[1..]
    ensures r.broker.toFrontend == b.toFrontend
    ensures r.fault.None? <==> |m| >= 3 && m[1] == Delimiter
    ensures r.fault.None? ==> r.broker.toBackend == b.toBackend + [[b.queue[0], Delimiter, m[0], m[2]]]
    ensures r.fault.Some? ==> r.broker.toBackend == b.toBackend
    ensures r.fault.Some? ==> r.fault.value == if |m| < 3 then NotEnoughMessages else MsgNotEmpty
  {
    var worker := b.queue[0];
    var claimed := b.(queue := b.queue[1..]);
    match PopEnvelope(m)
    case Err(e) => Outcome(claimed, Some(e))
    case Ok((job, _)) => Outcome(claimed.(toBackend := b.toBackend + [Dispatch(worker, job)]), None)
  }

  /** One iteration of the backend pump on the worker multipart `m`. Once the
      header `[worker, empty, body]` is read the worker goes back on the queue,
      whatever follows; a body other than READY is the client's identity and
      the next frame is the result to relay. */
  function BackendStep(b: Broker, m: Multipart): (r: Outcome)
    ensures r.broker.toBackend == b.toBackend
    ensures (|m| < 3 || m[1] != Delimiter) ==> r.broker == b && r.fault.Some?
    ensures |m| >= 3 && m[1] == Delimiter ==> r.broker.queue == b.queue + [m[0]]
    ensures r.fault.None? <==> |m| >= 3 && m[1] == Delimiter && (m[2] == Ready || |m| >= 4)
    ensures r.fault.None? && m[2] == Ready ==> r.broker.toFrontend == b.toFrontend
    ensures r.fault.None? && m[2] != Ready ==> r.broker.toFrontend == b.toFrontend + [[m[2], Delimiter, m[3]]]
    ensures r.fault.Some? ==> r.broker.toFrontend == b.toFrontend
    ensures r.fault.Some? ==> r.fault.value == if |m| >= 3 && m[1] != Delimiter then MsgNotEmpty else NotEnoughMessages
  {
    match PopEnvelope(m)
    case Err(e) => Outcome(b, Some(e))
    case Ok((header, rest)) =>
      var available := b.(queue := b.queue + [header.addr]);
      if header.request == Ready then Outcome(available, None)
      else if rest == [] then Outcome(available, Some(NotEnoughMessages))
      else
        var reply := Envelope(header.request, header.empty, rest[0]);
        Outcome(available.(toFrontend := b.toFrontend + [ToMultipart(reply)]), None)
  }

  /** Frames after the third never influence the frontend pump. */
  lemma FrontendIgnoresTrailingFrames(b: Broker, m: Multipart, extra: Multipart)
    requires b.queue != []
    requires |m| >= 3
    ensures FrontendStep(b, m + extra) == FrontendStep(b, m)
  {
    assert (m + extra)[0] == m[0] && (m + extra)[2] == m[2];
  }

  /** Frames after the result (or after READY) never influence the backend pump. */
  lemma BackendIgnoresTrailingFrames(b: Broker, m: Multipart, extra: Multipart)
    requires |m| >= 3
    requires m[2] != Ready ==> |m| >= 4
    ensures BackendStep(b, m + extra) == BackendStep(b, m)
  {
    var m' := m + extra;
    assert m'[0] == m[0] && m'[1] == m[1] && m'[2] == m[2];
    if m[2] != Ready {
      assert m'[3] == m[3];
    }
  }
}
