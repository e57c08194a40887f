/**
 The broker as a sequential state machine: each action is one iteration of
 one pump, and any interleaving of the two concurrent pumps is a sequence of
 actions. The model halts the broker at the first pump error: nothing runs
 after a fault, although the process lets the other pump run on briefly.
 */
module Routing {
  import opened Frames
  import opened Codec
  import opened Pumps

  /** One pump iteration: the frontend pump on a client multipart, or the
      backend pump on a worker multipart. */
  datatype Action = Frontend(m: Multipart) | Backend(m: Multipart)

  /** The broker at start-up: no worker known, nothing sent. */
  const Initial: Outcome := Outcome(Broker([], [], []), None)

  /** Whether `a` can happen next: no pump has failed, and the frontend pump
      has a worker to claim (it blocks on the queue otherwise). */
  predicate Enabled(o: Outcome, a: Action)
  {
    o.fault.None? && (a.Frontend? ==> o.broker.queue != [])
  }

  function Step(o: Outcome, a: Action): Outcome
    requires Enabled(o, a)
  {
    match a
    case Frontend(m) => FrontendStep(o.broker, m)
    case Backend(m) => BackendStep(o.broker, m)
  }

  /** Runs the actions in order; `None` when one of them is not enabled at its turn. */
  function Run(o: Outcome, acts: seq<Action>): Option<Outcome>
    decreases |acts|
  {
    if acts == [] then Some(o)
    else if !Enabled(o, acts[0]) then None
    else Run(Step(o, acts[0]), acts[1..])
  }

  /** Running a non-empty sequence is taking its first action, then running the rest. */
  lemma RunCons(o: Outcome, a: Action, rest: seq<Action>)
    ensures Run(o, [a] + rest) == if Enabled(o, a) then Run(Step(o, a), rest) else None
  {
    assert ([a] + rest)[0] == a;
    assert ([a] + rest)[1..] == rest;
  }

  /** Taking `a` to `o1` and then running `rest` to `o'` is running `[a] + rest` to `o'`. */
  lemma RunThrough(o: Outcome, a: Action, o1: Outcome, rest: seq<Action>, o': Outcome)
    requires Enabled(o, a) && Step(o, a) == o1
    requires Run(o1, rest) == Some(o')
    ensures Run(o, [a] + rest) == Some(o')
  {
    RunCons(o, a, rest);
  }

  /** Running a single action is taking it. */
  lemma RunOne(o: Outcome, a: Action)
    ensures Run(o, [a]) == if Enabled(o, a) then Some(Step(o, a)) else None
  {
    assert [a][1..] == [];
  }

  /** A well-formed request `[c, "", body]` goes to the head worker as `[w, "", c, body]`. */
  lemma RequestDispatched(o: Outcome, c: Frame, body: Frame)
    requires o.fault.None? && o.broker.queue != []
    ensures Enabled(o, Frontend([c, Delimiter, body]))
    ensures Step(o, Frontend([c, Delimiter, body]))
            == Outcome(Broker(o.broker.queue[1..],
                              o.broker.toBackend + [[o.broker.queue[0], Delimiter, c, body]],
                              o.broker.toFrontend), None)
  {
  }

  /** `[w, "", READY]` puts `w` at the tail of the queue and sends nothing. */
  lemma ReadyRequeues(o: Outcome, w: Frame)
    requires o.fault.None?
    ensures Enabled(o, Backend([w, Delimiter, Ready]))
    ensures Step(o, Backend([w, Delimiter, Ready]))
            == Outcome(o.broker.(queue := o.broker.queue + [w]), None)
  {
  }

  /** `[w, "", c, r]` with `c` not READY puts `w` at the tail of the queue and
      relays `[c, "", r]` to the frontend. */
  lemma ReplyRelayed(o: Outcome, w: Frame, c: Frame, r: Frame)
    requires o.fault.None? && c != Ready
    ensures Enabled(o, Backend([w, Delimiter, c, r]))
    ensures Step(o, Backend([w, Delimiter, c, r]))
            == Outcome(Broker(o.broker.queue + [w], o.broker.toBackend,
                              o.broker.toFrontend + [[c, Delimiter, r]]), None)
  {
  }

  /** The client multiparts handed to the frontend pump, in order. */
  function Requests(acts: seq<Action>): seq<Multipart>
  {
    if acts == [] then []
    else if acts[0].Frontend? then [acts[0].m] + Requests(acts[1..])
    else Requests(acts[1..])
  }

  /** The worker identities the backend pump puts on the queue, in order: the
      first frame of every worker multipart whose header passes the checks. */
  function Arrivals(acts: seq<Action>): seq<Frame>
  {
    if acts == [] then []
    else if acts[0].Backend? && |acts[0].m| >= 3 && acts[0].m[1] == Delimiter
    then [acts[0].m[0]] + Arrivals(acts[1..])
    else Arrivals(acts[1..])
  }

  /** Running two action sequences one after the other is running their concatenation. */
  lemma {:induction false} RunAppend(o: Outcome, xs: seq<Action>, ys: seq<Action>)
    ensures Run(o, xs + ys) == match Run(o, xs) case Some(o1) => Run(o1, ys) case None => None
    decreases |xs|
  {
    if xs == [] {
      assert xs + ys == ys;
    } else {
      assert (xs + ys)[0] == xs[0];
      assert (xs + ys)[1..] == xs[1..] + ys;
      if Enabled(o, xs[0]) {
        RunAppend(Step(o, xs[0]), xs[1..], ys);
      }
    }
  }

  /** Outputs are only ever appended to: what was sent stays sent. */
  lemma {:induction false} RunOnlyAppends(o: Outcome, acts: seq<Action>, o': Outcome)
    requires Run(o, acts) == Some(o')
    ensures |o.broker.toBackend| <= |o'.broker.toBackend|
    ensures o'.broker.toBackend[..|o.broker.toBackend|] == o.broker.toBackend
    ensures |o.broker.toFrontend| <= |o'.broker.toFrontend|
    ensures o'.broker.toFrontend[..|o.broker.toFrontend|] == o.broker.toFrontend
    decreases |acts|
  {
    if acts != [] {
      var o1 := Step(o, acts[0]);
      RunOnlyAppends(o1, acts[1..], o');
      assert o1.broker.toBackend[..|o.broker.toBackend|] == o.broker.toBackend;
      assert o1.broker.toFrontend[..|o.broker.toFrontend|] == o.broker.toFrontend;
    }
  }

  /** FIFO accounting over any interleaving: every claim takes the oldest
      identity, so the queue is always what remains of "initial queue, then
      every arrival" after dropping one identity per client request. A
      claim is made even for a request that then fails. */
  lemma {:induction false} QueueIsFifo(o: Outcome, acts: seq<Action>, o': Outcome)
    requires Run(o, acts) == Some(o')
    ensures |Requests(acts)| <= |o.broker.queue| + |Arrivals(acts)|
    ensures o'.broker.queue == (o.broker.queue + Arrivals(acts))[|Requests(acts)|..]
    decreases |acts|
  {
    var q := o.broker.queue;
    if acts == [] {
      assert q + [] == q;
    } else {
      var a, rest := acts[0], acts[1..];
      var o1 := Step(o, a);
      QueueIsFifo(o1, rest, o');
      var A, R := Arrivals(rest), Requests(rest);
      match a
      case Frontend(m) =>
        assert Requests(acts) == [m] + R && Arrivals(acts) == A;
        assert o1.broker.queue == q[1..];
        assert q[1..] + A == (q + A)[1..];
      case Backend(m) =>
        assert Requests(acts) == R;
        if |m| >= 3 && m[1] == Delimiter {
          assert Arrivals(acts) == [m[0]] + A;
          assert o1.broker.queue + A == q + Arrivals(acts);
        } else {
          assert Arrivals(acts) == A && o1.broker.queue == q;
        }
    }
  }

  /** Every request carries a full envelope with an empty delimiter. */
  predicate WellFormed(reqs: seq<Multipart>)
  {
    forall i :: 0 <= i < |reqs| ==> |reqs[i]| >= 3 && reqs[i][1] == Delimiter
  }

  /** The jobs that pairing workers with requests in order produces: the
      client identity and body of request k, addressed to worker k. */
  function Jobs(ws: seq<Frame>, reqs: seq<Multipart>): seq<Multipart>
    requires |reqs| <= |ws| && WellFormed(reqs)
  {
    if reqs == [] then []
    else [[ws[0], Delimiter, reqs[0][0], reqs[0][2]]] + Jobs(ws[1..], reqs[1..])
  }

  /** Job k carries the client identity and body of request k to worker k. */
  lemma {:induction false} JobsAt(ws: seq<Frame>, reqs: seq<Multipart>)
    requires |reqs| <= |ws| && WellFormed(reqs)
    ensures |Jobs(ws, reqs)| == |reqs|
    ensures forall k :: 0 <= k < |reqs| ==>
              Jobs(ws, reqs)[k] == [ws[k], Delimiter, reqs[k][0], reqs[k][2]]
    decreases |reqs|
  {
    if reqs != [] {
      JobsAt(ws[1..], reqs[1..]);
      var j := Jobs(ws, reqs);
      forall k | 0 <= k < |reqs|
        ensures j[k] == [ws[k], Delimiter, reqs[k][0], reqs[k][2]]
      {
        if k > 0 {
          assert j[k] == Jobs(ws[1..], reqs[1..])[k - 1];
        }
      }
    }
  }

  /** Pairing with one more request in front takes one more worker from the front. */
  lemma JobsCons(ws: seq<Frame>, m: Multipart, reqs: seq<Multipart>)
    requires |m| >= 3 && m[1] == Delimiter
    requires WellFormed(reqs) && 1 + |reqs| <= |ws|
    ensures WellFormed([m] + reqs)
    ensures Jobs(ws, [m] + reqs) == [[ws[0], Delimiter, m[0], m[2]]] + Jobs(ws[1..], reqs)
  {
    assert ([m] + reqs)[0] == m;
    assert ([m] + reqs)[1..] == reqs;
  }

  /** What `DispatchOrder` states of a run from `o` over `acts` ending in `o'`. */
  predicate DispatchedInOrder(o: Outcome, acts: seq<Action>, o': Outcome)
  {
    && WellFormed(Requests(acts))
    && |Requests(acts)| <= |o.broker.queue| + |Arrivals(acts)|
    && o'.broker.toBackend
       == o.broker.toBackend + Jobs(o.broker.queue + Arrivals(acts), Requests(acts))
  }

  /** Regrouping a concatenation; called as a lemma so that the step is proved
      apart from the job facts around it. */
  lemma AppendAssoc<X>(a: seq<X>, b: seq<X>, c: seq<X>)
    ensures a + b + c == a + (b + c)
  {
  }

  /** A job for the head worker in front of the jobs for the rest of the queue
      is the jobs for the whole queue with that request in front. */
  lemma PrependJob(T: seq<Multipart>, q: seq<Frame>, A: seq<Frame>, m: Multipart,
                   R: seq<Multipart>, out: seq<Multipart>)
    requires q != [] && |m| >= 3 && m[1] == Delimiter
    requires WellFormed(R) && |R| <= |q[1..]| + |A|
    requires out == T + [[q[0], Delimiter, m[0], m[2]]] + Jobs(q[1..] + A, R)
    ensures WellFormed([m] + R) && |[m] + R| <= |q| + |A|
    ensures out == T + Jobs(q + A, [m] + R)
  {
    var ws := q + A;
    assert q[1..] + A == ws[1..];
    JobsCons(ws, m, R);
    AppendAssoc(T, [[ws[0], Delimiter, m[0], m[2]]], Jobs(ws[1..], R));
  }

  /** A successful frontend iteration in front of an in-order run keeps the run in order. */
  lemma FrontendKeepsOrder(o: Outcome, m: Multipart, rest: seq<Action>, o1: Outcome, o': Outcome)
    requires o.broker.queue != [] && |m| >= 3 && m[1] == Delimiter
    requires o1.broker.queue == o.broker.queue[1..]
    requires o1.broker.toBackend == o.broker.toBackend + [[o.broker.queue[0], Delimiter, m[0], m[2]]]
    requires DispatchedInOrder(o1, rest, o')
    ensures DispatchedInOrder(o, [Frontend(m)] + rest, o')
  {
    var acts := [Frontend(m)] + rest;
    assert acts[0] == Frontend(m) && acts[1..] == rest;
    assert Requests(acts) == [m] + Requests(rest);
    assert Arrivals(acts) == Arrivals(rest);
    PrependJob(o.broker.toBackend, o.broker.queue, Arrivals(rest), m, Requests(rest), o'.broker.toBackend);
  }

  /** A successful backend iteration in front of an in-order run keeps the run in order. */
  lemma BackendKeepsOrder(o: Outcome, m: Multipart, rest: seq<Action>, o1: Outcome, o': Outcome)
    requires |m| >= 3 && m[1] == Delimiter
    requires o1.broker.queue == o.broker.queue + [m[0]]
    requires o1.broker.toBackend == o.broker.toBackend
    requires DispatchedInOrder(o1, rest, o')
    ensures DispatchedInOrder(o, [Backend(m)] + rest, o')
  {
    var acts := [Backend(m)] + rest;
    assert acts[0] == Backend(m) && acts[1..] == rest;
    assert Requests(acts) == Requests(rest);
    assert Arrivals(acts) == [m[0]] + Arrivals(rest);
    assert o1.broker.queue + Arrivals(rest) == o.broker.queue + Arrivals(acts);
  }

  /** Dispatch order over any interleaving that ends without a fault: the k-th
      client request's identity and body go, with any trailing frames dropped,
      to the k-th worker in "initial queue, then every arrival" order. */
  lemma {:induction false} DispatchOrder(o: Outcome, acts: seq<Action>, o': Outcome)
    requires Run(o, acts) == Some(o')
    requires o'.fault.None?
    ensures WellFormed(Requests(acts))
    ensures |Requests(acts)| <= |o.broker.queue| + |Arrivals(acts)|
    ensures o'.broker.toBackend
            == o.broker.toBackend + Jobs(o.broker.queue + Arrivals(acts), Requests(acts))
    decreases |acts|
  {
    if acts == [] {
      assert o'.broker.toBackend == o.broker.toBackend + [];
    } else {
      var o1 := Step(o, acts[0]);
      assert Run(o1, acts[1..]) == Some(o');
      if o1.fault.Some? {
        assert false;
      }
      DispatchOrder(o1, acts[1..], o');
      assert acts == [acts[0]] + acts[1..];
      match acts[0]
      case Frontend(m) =>
        FrontendKeepsOrder(o, m, acts[1..], o1, o');
      case Backend(m) =>
        BackendKeepsOrder(o, m, acts[1..], o1, o');
    }
  }

  /** The dispatch order of `DispatchOrder`, job by job: after any interleaving
      that ends without a fault, the k-th new backend message is
      `[w, "", c, body]` for the k-th client request `[c, "", body, ...]` and
      the k-th worker w of "initial queue, then every arrival". */
  lemma KthRequestGoesToKthWorker(o: Outcome, acts: seq<Action>, o': Outcome)
    requires Run(o, acts) == Some(o')
    requires o'.fault.None?
    ensures |Requests(acts)| <= |o.broker.queue| + |Arrivals(acts)|
    ensures |o'.broker.toBackend| == |o.broker.toBackend| + |Requests(acts)|
    ensures o'.broker.toBackend[..|o.broker.toBackend|] == o.broker.toBackend
    ensures forall k :: 0 <= k < |Requests(acts)| ==>
              |Requests(acts)[k]| >= 3 && Requests(acts)[k][1] == Delimiter &&
              o'.broker.toBackend[|o.broker.toBackend| + k]
                == [(o.broker.queue + Arrivals(acts))[k], Delimiter,
                    Requests(acts)[k][0], Requests(acts)[k][2]]
  {
    DispatchOrder(o, acts, o');
    assert |Requests(acts)| <= |o.broker.queue + Arrivals(acts)|;
    var T, ws, reqs := o.broker.toBackend, o.broker.queue + Arrivals(acts), Requests(acts);
    JobsAt(ws, reqs);
    forall k | 0 <= k < |reqs|
      ensures o'.broker.toBackend[|T| + k] == Jobs(ws, reqs)[k]
    {
    }
  }

  /** The answer a worker's REQ socket delivers for the job `d`: the worker
      reads `[client, body]`, sends back `[client, result]`, and its socket
      and the router restore the identity and delimiter in front. */
  function WorkerReply(d: Multipart, result: Frame): Multipart
    requires |d| >= 3
  {
    d[..3] + [result]
  }

  /** Reply correlation: a request `[c, "", body]` is dispatched to the head
      worker `w`; whatever other actions run meanwhile, `w`'s answer to that
      job delivers `[c, "", result]` to the frontend and puts `w` back at the
      tail of the queue. No table is consulted: the identity rides in the frames. */
  lemma ReplyCorrelation(o: Outcome, c: Frame, body: Frame, result: Frame,
                         mid: seq<Action>, o': Outcome)
    requires o.fault.None? && o.broker.queue != []
    requires c != Ready
    requires Run(o, [Frontend([c, Delimiter, body])] + mid
                    + [Backend(WorkerReply(Dispatch(o.broker.queue[0], Envelope(c, Delimiter, body)), result))])
             == Some(o')
    ensures o'.fault.None?
    ensures |o'.broker.toBackend| > |o.broker.toBackend|
    ensures o'.broker.toBackend[|o.broker.toBackend|] == [o.broker.queue[0], Delimiter, c, body]
    ensures o'.broker.toFrontend != [] && o'.broker.toFrontend[|o'.broker.toFrontend| - 1] == [c, Delimiter, result]
    ensures o'.broker.queue != [] && o'.broker.queue[|o'.broker.queue| - 1] == o.broker.queue[0]
  {
    var w := o.broker.queue[0];
    var req := Frontend([c, Delimiter, body]);
    var answer := Backend(WorkerReply(Dispatch(w, Envelope(c, Delimiter, body)), result));
    assert answer == Backend([w, Delimiter, c, result]) by {
      assert Dispatch(w, Envelope(c, Delimiter, body)) == [w, Delimiter, c, body];
    }
    RequestDispatched(o, c, body);
    var o1 := Step(o, req);
    assert Run(o1, mid + [answer]) == Some(o') by {
      assert [req] + mid + [answer] == [req] + (mid + [answer]);
      RunCons(o, req, mid + [answer]);
    }
    RelayedAfterAnyInterleaving(o1, mid, w, c, result, o');
    var T := o.broker.toBackend;
    assert o'.broker.toBackend[..|T| + 1][|T|] == [w, Delimiter, c, body];
  }

  /** Whatever runs in between, a worker's answer `[w, "", c, r]` with `c` not
      READY relays `[c, "", r]` last and queues `w` last, and nothing sent
      before is lost. */
  lemma RelayedAfterAnyInterleaving(o: Outcome, mid: seq<Action>, w: Frame, c: Frame, r: Frame,
                                    o': Outcome)
    requires c != Ready
    requires Run(o, mid + [Backend([w, Delimiter, c, r])]) == Some(o')
    ensures o'.fault.None?
    ensures |o.broker.toBackend| <= |o'.broker.toBackend|
    ensures o'.broker.toBackend[..|o.broker.toBackend|] == o.broker.toBackend
    ensures o'.broker.toFrontend != [] && o'.broker.toFrontend[|o'.broker.toFrontend| - 1] == [c, Delimiter, r]
    ensures o'.broker.queue != [] && o'.broker.queue[|o'.broker.queue| - 1] == w
  {
    var answer := Backend([w, Delimiter, c, r]);
    RunAppend(o, mid, [answer]);
    var o2 := Run(o, mid).value;
    RunOnlyAppends(o, mid, o2);
    RunOne(o2, answer);
    ReplyRelayed(o2, w, c, r);
  }

  /** Serving workers in arrival order: three workers announce READY, then three
      requests arrive; request i goes to worker i and the queue ends empty. */
  lemma ServesWorkersInArrivalOrder(w1: Frame, w2: Frame, w3: Frame,
                                    c1: Frame, c2: Frame, c3: Frame,
                                    b1: Frame, b2: Frame, b3: Frame)
    ensures Run(Initial, [Backend([w1, Delimiter, Ready]), Backend([w2, Delimiter, Ready]),
                          Backend([w3, Delimiter, Ready]),
                          Frontend([c1, Delimiter, b1]), Frontend([c2, Delimiter, b2]),
                          Frontend([c3, Delimiter, b3])])
            == Some(Outcome(Broker([], [[w1, Delimiter, c1, b1], [w2, Delimiter, c2, b2],
                                        [w3, Delimiter, c3, b3]], []), None))
  {
    var readies := [Backend([w1, Delimiter, Ready]), Backend([w2, Delimiter, Ready]),
                    Backend([w3, Delimiter, Ready])];
    var requests := [Frontend([c1, Delimiter, b1]), Frontend([c2, Delimiter, b2]),
                     Frontend([c3, Delimiter, b3])];
    ThreeReadies(w1, w2, w3);
    ThreeRequests(w1, w2, w3, c1, c2, c3, b1, b2, b3);
    RunAppend(Initial, readies, requests);
    assert readies + requests
        == [Backend([w1, Delimiter, Ready]), Backend([w2, Delimiter, Ready]),
            Backend([w3, Delimiter, Ready]),
            Frontend([c1, Delimiter, b1]), Frontend([c2, Delimiter, b2]),
            Frontend([c3, Delimiter, b3])];
  }

  /** Three READY announcements queue the three workers in order. */
  lemma ThreeReadies(w1: Frame, w2: Frame, w3: Frame)
    ensures Run(Initial, [Backend([w1, Delimiter, Ready]), Backend([w2, Delimiter, Ready]),
                          Backend([w3, Delimiter, Ready])])
            == Some(Outcome(Broker([w1, w2, w3], [], []), None))
  {
    var a1, a2, a3 := Backend([w1, Delimiter, Ready]), Backend([w2, Delimiter, Ready]),
                      Backend([w3, Delimiter, Ready]);
    var o1 := Outcome(Broker([w1], [], []), None);
    var o2 := Outcome(Broker([w1, w2], [], []), None);
    var o3 := Outcome(Broker([w1, w2, w3], [], []), None);
    assert Run(o1, [a2, a3]) == Some(o3) by {
      ReadyRequeues(o2, w3);
      assert [w1, w2] + [w3] == [w1, w2, w3];
      RunOne(o2, a3);
      ReadyRequeues(o1, w2);
      assert [w1] + [w2] == [w1, w2];
      RunThrough(o1, a2, o2, [a3], o3);
      assert [a2] + [a3] == [a2, a3];
    }
    ReadyRequeues(Initial, w1);
    assert [] + [w1] == [w1];
    RunThrough(Initial, a1, o1, [a2, a3], o3);
    assert [a1] + [a2, a3] == [a1, a2, a3];
  }

  /** With three workers queued, three requests go to them in queue order. */
  lemma ThreeRequests(w1: Frame, w2: Frame, w3: Frame,
                      c1: Frame, c2: Frame, c3: Frame,
                      b1: Frame, b2: Frame, b3: Frame)
    ensures Run(Outcome(Broker([w1, w2, w3], [], []), None),
                [Frontend([c1, Delimiter, b1]), Frontend([c2, Delimiter, b2]),
                 Frontend([c3, Delimiter, b3])])
            == Some(Outcome(Broker([], [[w1, Delimiter, c1, b1], [w2, Delimiter, c2, b2],
                                        [w3, Delimiter, c3, b3]], []), None))
  {
    var r1, r2, r3 := Frontend([c1, Delimiter, b1]), Frontend([c2, Delimiter, b2]),
                      Frontend([c3, Delimiter, b3]);
    var j1, j2, j3 := [w1, Delimiter, c1, b1], [w2, Delimiter, c2, b2], [w3, Delimiter, c3, b3];
    var o3 := Outcome(Broker([w1, w2, w3], [], []), None);
    var o4 := Outcome(Broker([w2, w3], [j1], []), None);
    var o5 := Outcome(Broker([w3], [j1, j2], []), None);
    var o6 := Outcome(Broker([], [j1, j2, j3], []), None);
    assert Run(o4, [r2, r3]) == Some(o6) by {
      RequestDispatched(o5, c3, b3);
      assert [w3][1..] == [] && [j1, j2] + [j3] == [j1, j2, j3];
      RunOne(o5, r3);
      RequestDispatched(o4, c2, b2);
      assert [w2, w3][1..] == [w3] && [j1] + [j2] == [j1, j2];
      RunThrough(o4, r2, o5, [r3], o6);
      assert [r2] + [r3] == [r2, r3];
    }
    RequestDispatched(o3, c1, b1);
    assert [w1, w2, w3][1..] == [w2, w3] && [] + [j1] == [j1];
    RunThrough(o3, r1, o4, [r2, r3], o6);
    assert [r1] + [r2, r3] == [r1, r2, r3];
  }

  /** The end-to-end exchange: READY from `w` queues it; the request `[c, "", ping]`
      is dispatched to `w` and empties the queue; `w`'s answer `pong` requeues
      `w` and reaches the client as `[c, "", pong]`. */
  lemma EndToEndExchange(w: Frame, c: Frame, ping: Frame, pong: Frame)
    requires c != Ready
    ensures Run(Initial, [Backend([w, Delimiter, Ready])])
            == Some(Outcome(Broker([w], [], []), None))
    ensures Run(Initial, [Backend([w, Delimiter, Ready]), Frontend([c, Delimiter, ping])])
            == Some(Outcome(Broker([], [[w, Delimiter, c, ping]], []), None))
    ensures Run(Initial, [Backend([w, Delimiter, Ready]), Frontend([c, Delimiter, ping]),
                          Backend([w, Delimiter, c, pong])])
            == Some(Outcome(Broker([w], [[w, Delimiter, c, ping]], [[c, Delimiter, pong]]), None))
  {
    var a1, a2, a3 := Backend([w, Delimiter, Ready]), Frontend([c, Delimiter, ping]),
                      Backend([w, Delimiter, c, pong]);
    var job := [w, Delimiter, c, ping];
    var o1 := Outcome(Broker([w], [], []), None);
    var o2 := Outcome(Broker([], [job], []), None);
    var o3 := Outcome(Broker([w], [job], [[c, Delimiter, pong]]), None);
    ReadyRequeues(Initial, w);
    assert [] + [w] == [w];
    RequestDispatched(o1, c, ping);
    assert [w][1..] == [] && [] + [job] == [job];
    ReplyRelayed(o2, w, c, pong);
    assert [] + [[c, Delimiter, pong]] == [[c, Delimiter, pong]];
    assert Run(o1, [a2, a3]) == Some(o3) by {
      RunOne(o2, a3);
      RunThrough(o1, a2, o2, [a3], o3);
      assert [a2] + [a3] == [a2, a3];
    }
    assert Run(o1, [a2]) == Some(o2) by {
      RunOne(o1, a2);
    }
    RunOne(Initial, a1);
    RunThrough(Initial, a1, o1, [a2], o2);
    assert [a1] + [a2] == [a1, a2];
    RunThrough(Initial, a1, o1, [a2, a3], o3);
    assert [a1] + [a2, a3] == [a1, a2, a3];
  }

  /** Availability is not deduplicated: a worker that announces READY twice
      is queued twice. */
  lemma RepeatedReadyQueuesTwice(o: Outcome, w: Frame)
    requires o.fault.None?
    ensures Run(o, [Backend([w, Delimiter, Ready]), Backend([w, Delimiter, Ready])])
            == Some(Outcome(o.broker.(queue := o.broker.queue + [w, w]), None))
  {
    var a := Backend([w, Delimiter, Ready]);
    var o1 := Outcome(o.broker.(queue := o.broker.queue + [w]), None);
    ReadyRequeues(o, w);
    ReadyRequeues(o1, w);
    assert o.broker.queue + [w] + [w] == o.broker.queue + [w, w];
    RunOne(o1, a);
    RunCons(o, a, [a]);
    assert [a] + [a] == [a, a];
  }

  /** A client whose identity is the five bytes READY never gets its reply: the
      worker's answer reads as an availability announcement and the result is
      dropped, though the worker is still requeued. */
  lemma ReadyClientIdentityLosesReply(b: Broker, w: Frame, body: Frame, result: Frame)
    ensures BackendStep(b, WorkerReply(Dispatch(w, Envelope(Ready, Delimiter, body)), result))
            == Outcome(b.(queue := b.queue + [w]), None)
  {
    assert Dispatch(w, Envelope(Ready, Delimiter, body)) == [w, Delimiter, Ready, body];
    assert WorkerReply([w, Delimiter, Ready, body], result) == [w, Delimiter, Ready, result];
  }
}
