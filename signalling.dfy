/** The signalling bookkeeping of WebRTCSignalingServer as a state machine:
    one function per event, each giving the new state, what the event answers
    and which messages it pushes to websocket clients. The class in module
    Server is proved against these functions. */
module Signalling {
  import opened Json

  /** A connected websocket (identity only). */
  type ClientId = nat

  /** An offer token, `str(uuid.uuid4())`. */
  type Token = string

  /** What the server pushes down a websocket: a structured message (`send_json`)
      or the text of a received frame, unchanged (`send_str`). */
  datatype Payload = JsonMessage(obj: Object) | TextMessage(text: string)

  /** One queued push to one client. */
  datatype Send = Send(to: ClientId, payload: Payload)

  /** The pushes an event performs: none, or one payload to each of a set of clients. */
  datatype Sends = NoSends | SendToAll(targets: set<ClientId>, payload: Payload)

  /** An HTTP response of POST /signal: a status and a JSON object body. */
  datatype Response = Response(status: int, body: Object)

  const INVALID_DATA_TYPE := "Invalid data type"
  const TIMEOUT_WAITING := "Timeout waiting for answer"
  /** `str(KeyError('sdp'))` */
  const MISSING_SDP := "'sdp'"
  const OK := 200
  const BAD_REQUEST := 400
  const REQUEST_TIMEOUT := 408

  /** `{"error": message}` */
  function ErrorBody(message: string): Object
  {
    map["error" := JString(message)]
  }

  /** `{'type': 'offer', 'id': token, 'sdp': sdp}` */
  function OfferMessage(token: Token, sdp: Value): Object
  {
    map["type" := JString("offer"), "id" := JString(token), "sdp" := sdp]
  }

  /** An `asyncio.Future` of `self.offer_futures`: not yet done, done with the
      answer object it was resolved with, or cancelled together with the
      request that was waiting for it. */
  datatype Future = Unresolved | Resolved(answer: Object) | Cancelled

  /** The shared state: `self.clients`, `self.offer_futures`, and the tokens
      whose POST /signal request is still suspended waiting for their future. */
  datatype State = State(
    clients: set<ClientId>,
    pending: map<Token, Future>,
    waiting: set<Token>)

  /** Every suspended request has its entry in the table. */
  predicate Valid(s: State)
  {
    s.waiting <= s.pending.Keys
  }

  const INITIAL := State({}, map[], {})

  /** How POST /signal goes on: it answers now, or it is suspended on the token's future. */
  datatype SignalResult = Respond(response: Response) | Parked(token: Token)

  /** Whether the websocket handler goes on reading, or ended by an exception
      (its `finally` then unregisters the connection). */
  datatype FrameResult = Kept | Closed

  /** A websocket message as `async for msg in ws` yields it. */
  datatype Frame = Text(data: string, decoded: Decoded) | NonText

  datatype Step<R> = Step(state: State, result: R, sends: Sends)

  function Recipients(b: Sends): set<ClientId>
  {
    if b.SendToAll? then b.targets else {}
  }

  // ---------------------------------------------------------------------------
  // Delivery accounting: which pushes a sequence of sends performs

  /** The number of pushes to `c` in `sends`. */
  function Deliveries(sends: seq<Send>, c: ClientId): nat
  {
    if sends == [] then 0
    else Deliveries(sends[..|sends| - 1], c) + (if sends[|sends| - 1].to == c then 1 else 0)
  }

  /** `sends` pushes `p`, exactly once to each client of `targets` and to no one else. */
  ghost predicate DeliversTo(sends: seq<Send>, targets: set<ClientId>, p: Payload)
  {
    (forall i :: 0 <= i < |sends| ==> sends[i].payload == p) &&
    (forall c :: Deliveries(sends, c) == if c in targets then 1 else 0)
  }

  ghost predicate Delivers(sends: seq<Send>, b: Sends)
  {
    match b
    case NoSends => sends == []
    case SendToAll(targets, p) => DeliversTo(sends, targets, p)
  }

  /** `after` is `before` with exactly the pushes of `b` queued behind it. */
  ghost predicate Emitted(before: seq<Send>, after: seq<Send>, b: Sends)
  {
    |before| <= |after| && after[..|before|] == before && Delivers(after[|before|..], b)
  }

  lemma DeliveriesAppend(sends: seq<Send>, x: Send, c: ClientId)
    ensures Deliveries(sends + [x], c) == Deliveries(sends, c) + (if x.to == c then 1 else 0)
  {
    assert (sends + [x])[..|sends|] == sends;
  }

  /** One more push of the same payload to a client not yet served. */
  lemma DeliversToExtend(sends: seq<Send>, targets: set<ClientId>, p: Payload, c: ClientId)
    requires DeliversTo(sends, targets, p) && c !in targets
    ensures DeliversTo(sends + [Send(c, p)], targets + {c}, p)
  {
    forall d
      ensures Deliveries(sends + [Send(c, p)], d) == if d in targets + {c} then 1 else 0
    {
      DeliveriesAppend(sends, Send(c, p), d);
    }
  }

  /** A broadcast is one message per target: as many sends as targets, every
      recipient a target, no recipient twice. */
  lemma {:induction false} DeliveredOnce(sends: seq<Send>, targets: set<ClientId>, p: Payload)
    requires DeliversTo(sends, targets, p)
    ensures |sends| == |targets|
    ensures forall i :: 0 <= i < |sends| ==> sends[i].to in targets
    ensures forall i, j :: 0 <= i < j < |sends| ==> sends[i].to != sends[j].to
  {
    if sends == [] {
      forall c
        ensures c !in targets
      {
        assert Deliveries(sends, c) == 0;
      }
      assert targets == {};
    } else {
      var n := |sends| - 1;
      var prefix, x := sends[..n], sends[n];
      assert sends == prefix + [x];
      forall d
        ensures Deliveries(prefix, d) == if d in targets - {x.to} then 1 else 0
      {
        DeliveriesAppend(prefix, x, d);
      }
      DeliveriesAppend(prefix, x, x.to);
      DeliveredOnce(prefix, targets - {x.to}, p);
      assert x.to in targets;
    }
  }

  // ---------------------------------------------------------------------------
  // Classification of messages

  /** A POST body that `signal_handler` treats as an offer. */
  predicate IsOfferRequest(body: Decoded)
  {
    body.Parsed? && body.value.JObject? && Get(body.value.fields, "type") == Some(JString("offer"))
  }

  /** A websocket object that `websocket_handler` treats as an answer. */
  predicate IsAnswerWithId(o: Object)
  {
    Get(o, "type") == Some(JString("answer")) && "id" in o
  }

  // ---------------------------------------------------------------------------
  // Events

  /** A websocket is registered once it is prepared. */
  function ConnectStep(s: State, c: ClientId): (t: State)
    requires c !in s.clients
    ensures c in t.clients && |t.clients| == |s.clients| + 1
    ensures forall d :: d != c ==> (d in t.clients <==> d in s.clients)
    ensures t.pending == s.pending && t.waiting == s.waiting
  {
    s.(clients := s.clients + {c})
  }

  /** A websocket whose message stream ended is unregistered (the `finally`). */
  function DisconnectStep(s: State, c: ClientId): (t: State)
    requires c in s.clients
    ensures c !in t.clients && |t.clients| == |s.clients| - 1
    ensures forall d :: d != c ==> (d in t.clients <==> d in s.clients)
    ensures t.pending == s.pending && t.waiting == s.waiting
  {
    s.(clients := s.clients - {c})
  }

  /** POST /signal, up to the point where it answers or suspends on the offer's future. */
  function SignalStep(s: State, body: Decoded, token: Token): (r: Step<SignalResult>)
    requires token !in s.pending
    ensures r.state.clients == s.clients
    ensures Valid(s) ==> Valid(r.state)
    ensures Recipients(r.sends) <= s.clients
    ensures !IsOfferRequest(body) ==>
              r.state == s && r.sends == NoSends && r.result.Respond? && r.result.response.status == BAD_REQUEST
    ensures IsOfferRequest(body) ==>
              r.state.pending.Keys == s.pending.Keys + {token} && r.state.pending[token] == Unresolved &&
              forall t :: t in s.pending ==> r.state.pending[t] == s.pending[t]
    ensures r.result.Parked? <==> IsOfferRequest(body) && (s.clients == {} || "sdp" in body.value.fields)
    ensures r.result.Parked? ==> r.result.token == token && r.state.waiting == s.waiting + {token}
    ensures r.result.Respond? ==> r.state.waiting == s.waiting && r.sends == NoSends
  {
    match body
    case Malformed(e) => Step(s, Respond(Response(BAD_REQUEST, ErrorBody(e))), NoSends)
    case OverLimit(e) => Step(s, Respond(Response(BAD_REQUEST, ErrorBody(e))), NoSends)
    case Parsed(v) =>
      if !v.JObject? then
        Step(s, Respond(Response(BAD_REQUEST, ErrorBody(NoGetMessage(v)))), NoSends)
      else if Get(v.fields, "type") != Some(JString("offer")) then
        Step(s, Respond(Response(BAD_REQUEST, ErrorBody(INVALID_DATA_TYPE))), NoSends)
      else
        var entered := s.(pending := s.pending[token := Unresolved]);
        if "sdp" in v.fields then
          Step(entered.(waiting := s.waiting + {token}), Parked(token),
               SendToAll(s.clients, JsonMessage(OfferMessage(token, v.fields["sdp"]))))
        else if s.clients == {} then
          Step(entered.(waiting := s.waiting + {token}), Parked(token), NoSends)
        else
          // data['sdp'] raises inside the broadcast loop, after the entry was made
          Step(entered, Respond(Response(BAD_REQUEST, ErrorBody(MISSING_SDP))), NoSends)
  }

  /** One message yielded by `async for msg in ws` on the websocket of `sender`. */
  function ReceiveStep(s: State, sender: ClientId, frame: Frame): (r: Step<FrameResult>)
    requires sender in s.clients
    ensures Valid(s) ==> Valid(r.state)
    ensures r.state.pending.Keys == s.pending.Keys && r.state.waiting == s.waiting
    ensures Recipients(r.sends) <= s.clients && sender !in Recipients(r.sends)
    ensures r.result == Kept ==> r.state.clients == s.clients
    ensures r.result == Closed ==>
              r.state == s.(clients := s.clients - {sender}) && r.sends == NoSends
    ensures forall t :: t in s.pending && !s.pending[t].Unresolved? ==> r.state.pending[t] == s.pending[t]
    ensures r.sends != NoSends ==> r.state == s
  {
    match frame
    case NonText => Step(s, Kept, NoSends)
    case Text(data, decoded) =>
      match decoded
      case Malformed(_) => Step(s, Kept, NoSends)
      case OverLimit(_) =>
        // RecursionError or ValueError is not a JSONDecodeError: it ends the handler
        Step(s.(clients := s.clients - {sender}), Closed, NoSends)
      case Parsed(v) =>
        if !v.JObject? then
          // data.get raises AttributeError
          Step(s.(clients := s.clients - {sender}), Closed, NoSends)
        else if IsAnswerWithId(v.fields) then
          var id := v.fields["id"];
          if !Hashable(id) then
            // `offer_id in self.offer_futures` raises TypeError
            Step(s.(clients := s.clients - {sender}), Closed, NoSends)
          else if id.JString? && id.s in s.pending then
            if s.pending[id.s].Unresolved? then
              Step(s.(pending := s.pending[id.s := Resolved(v.fields)]), Kept, NoSends)
            else
              // set_result on a future that is done or cancelled raises InvalidStateError
              Step(s.(clients := s.clients - {sender}), Closed, NoSends)
          else
            Step(s, Kept, NoSends)
        else
          Step(s, Kept, SendToAll(s.clients - {sender}, TextMessage(data)))
  }

  /** The suspended POST /signal wakes up with the answer: 200 with the answer object. */
  function AnsweredStep(s: State, token: Token): (r: Step<Response>)
    requires token in s.waiting && token in s.pending && s.pending[token].Resolved?
    ensures r.result.status == OK && r.result.body == s.pending[token].answer
    ensures r.state.pending.Keys == s.pending.Keys - {token}
    ensures forall t :: t in r.state.pending ==> r.state.pending[t] == s.pending[t]
    ensures r.state.waiting == s.waiting - {token} && r.state.clients == s.clients
    ensures r.sends == NoSends
    ensures Valid(s) ==> Valid(r.state)
  {
    Step(State(s.clients, s.pending - {token}, s.waiting - {token}),
         Response(OK, s.pending[token].answer), NoSends)
  }

  /** The 30-unit wait of a suspended POST /signal expires: 408. The future may
      already hold an answer the request has not yet picked up. */
  function TimedOutStep(s: State, token: Token): (r: Step<Response>)
    requires token in s.waiting && token in s.pending
    ensures r.result == Response(REQUEST_TIMEOUT, map["error" := JString("Timeout waiting for answer")])
    ensures r.state.pending.Keys == s.pending.Keys - {token}
    ensures forall t :: t in r.state.pending ==> r.state.pending[t] == s.pending[t]
    ensures r.state.waiting == s.waiting - {token} && r.state.clients == s.clients
    ensures r.sends == NoSends
    ensures Valid(s) ==> Valid(r.state)
  {
    Step(State(s.clients, s.pending - {token}, s.waiting - {token}),
         Response(REQUEST_TIMEOUT, ErrorBody(TIMEOUT_WAITING)), NoSends)
  }

  /** The task running a suspended POST /signal is cancelled (the HTTP client
      went away, or the server shuts down). `wait_for` cancels the future it
      waits on, and `CancelledError` is neither an `asyncio.TimeoutError` nor an
      `Exception`, so neither `del` runs: the request stops waiting and its
      entry stays in the table, cancelled. A future that was already resolved
      stays resolved. */
  function CancelStep(s: State, token: Token): (t: State)
    requires token in s.waiting && token in s.pending
    ensures t.waiting == s.waiting - {token} && t.clients == s.clients
    ensures t.pending.Keys == s.pending.Keys
    ensures s.pending[token].Unresolved? ==> t.pending[token] == Cancelled
    ensures !s.pending[token].Unresolved? ==> t.pending[token] == s.pending[token]
    ensures forall u :: u in s.pending && u != token ==> t.pending[u] == s.pending[u]
    ensures Valid(s) ==> Valid(t)
  {
    if s.pending[token].Unresolved? then
      State(s.clients, s.pending[token := Cancelled], s.waiting - {token})
    else
      s.(waiting := s.waiting - {token})
  }

  // ---------------------------------------------------------------------------
  // Per-event properties

  /** A POST whose object body has a `type` other than 'offer' gets 400
      "Invalid data type" and changes nothing. */
  lemma SignalRejectsNonOffer(s: State, o: Object, token: Token)
    requires token !in s.pending && Get(o, "type") != Some(JString("offer"))
    ensures SignalStep(s, Parsed(JObject(o)), token)
         == Step(s, Respond(Response(BAD_REQUEST, map["error" := JString("Invalid data type")])), NoSends)
  {
  }

  /** An offer carrying `sdp` enters one fresh unresolved token, leaves every
      other entry alone, suspends the request, and pushes the offer message
      once to each connected client. */
  lemma SignalParksOffer(s: State, o: Object, token: Token)
    requires token !in s.pending && Get(o, "type") == Some(JString("offer")) && "sdp" in o
    ensures var r := SignalStep(s, Parsed(JObject(o)), token);
      && r.result == Parked(token)
      && r.state.clients == s.clients
      && r.state.pending.Keys == s.pending.Keys + {token} && r.state.pending[token] == Unresolved
      && (forall t :: t in s.pending ==> r.state.pending[t] == s.pending[t])
      && r.state.waiting == s.waiting + {token}
      && r.sends == SendToAll(s.clients, JsonMessage(map["type" := JString("offer"), "id" := JString(token), "sdp" := o["sdp"]]))
  {
  }

  /** An offer without `sdp` while someone is connected fails with 400 "'sdp'"
      and sends nothing, but its token stays in the table with no request
      waiting for it. */
  lemma SignalWithoutSdpLeaksToken(s: State, o: Object, token: Token)
    requires token !in s.pending && Get(o, "type") == Some(JString("offer")) && "sdp" !in o
    requires s.clients != {}
    ensures var r := SignalStep(s, Parsed(JObject(o)), token);
      && r.result == Respond(Response(BAD_REQUEST, map["error" := JString("'sdp'")]))
      && r.sends == NoSends
      && token in r.state.pending && r.state.pending[token] == Unresolved
      && r.state.waiting == s.waiting
      && (Valid(s) ==> token !in r.state.waiting)
  {
  }

  /** With nobody connected, `sdp` is never read: the offer is suspended and nothing is sent. */
  lemma SignalWithoutSdpOrPeersParks(s: State, o: Object, token: Token)
    requires token !in s.pending && Get(o, "type") == Some(JString("offer")) && "sdp" !in o
    requires s.clients == {}
    ensures var r := SignalStep(s, Parsed(JObject(o)), token);
      r.result == Parked(token) && r.sends == NoSends && token in r.state.waiting
  {
  }

  /** An answer naming an unresolved entry stores the whole answer object in it;
      nothing is sent and no other entry or client changes. */
  lemma AnswerResolves(s: State, sender: ClientId, data: string, o: Object, token: Token)
    requires sender in s.clients && IsAnswerWithId(o) && o["id"] == JString(token)
    requires token in s.pending && s.pending[token] == Unresolved
    ensures var r := ReceiveStep(s, sender, Text(data, Parsed(JObject(o))));
      && r.result == Kept && r.sends == NoSends
      && r.state.clients == s.clients && r.state.waiting == s.waiting
      && r.state.pending.Keys == s.pending.Keys && r.state.pending[token] == Resolved(o)
      && (forall t :: t in s.pending && t != token ==> r.state.pending[t] == s.pending[t])
  {
  }

  /** An answer whose id names no entry does nothing at all. */
  lemma AnswerUnknownIgnored(s: State, sender: ClientId, data: string, o: Object)
    requires sender in s.clients && IsAnswerWithId(o) && Hashable(o["id"])
    requires !(o["id"].JString? && o["id"].s in s.pending)
    ensures ReceiveStep(s, sender, Text(data, Parsed(JObject(o)))) == Step(s, Kept, NoSends)
  {
  }

  /** An answer for an entry that is already resolved but not yet collected, or
      whose request was cancelled, makes `set_result` raise: the sender's
      connection ends and it is unregistered. */
  lemma AnswerTwiceCloses(s: State, sender: ClientId, data: string, o: Object, token: Token)
    requires sender in s.clients && IsAnswerWithId(o) && o["id"] == JString(token)
    requires token in s.pending && !s.pending[token].Unresolved?
    ensures var r := ReceiveStep(s, sender, Text(data, Parsed(JObject(o))));
      r.result == Closed && r.state.clients == s.clients - {sender} &&
      r.state.pending == s.pending && r.sends == NoSends
  {
  }

  /** Any other object is pushed as the frame's own text to every other
      connected client and to no one else; the state does not change. */
  lemma RelayVerbatim(s: State, sender: ClientId, data: string, o: Object)
    requires sender in s.clients && !IsAnswerWithId(o)
    ensures var r := ReceiveStep(s, sender, Text(data, Parsed(JObject(o))));
      && r.state == s && r.result == Kept
      && r.sends == SendToAll(s.clients - {sender}, TextMessage(data))
  {
  }

  /** Invalid JSON and non-text frames are dropped: no change, no sends, the
      connection stays registered. */
  lemma IgnoredFrames(s: State, sender: ClientId, frame: Frame)
    requires sender in s.clients && (frame.NonText? || frame.decoded.Malformed?)
    ensures ReceiveStep(s, sender, frame) == Step(s, Kept, NoSends)
  {
  }

  /** Decoded JSON that is not an object, or an answer with an unhashable id,
      raises outside the decoder's handler and ends the sender's connection. */
  lemma MisshapenFramesClose(s: State, sender: ClientId, data: string, v: Value)
    requires sender in s.clients
    requires !v.JObject? || (IsAnswerWithId(v.fields) && !Hashable(v.fields["id"]))
    ensures var r := ReceiveStep(s, sender, Text(data, Parsed(v)));
      r.result == Closed && r.state == s.(clients := s.clients - {sender}) && r.sends == NoSends
  {
  }

  /** A text the decoder refuses on a limit is a 400 carrying the decoder's
      message when it is a POST body, but ends the connection when it arrives
      on a websocket, since only `JSONDecodeError` is caught there. A malformed
      text, by contrast, is a 400 on POST and ignored on a websocket. */
  lemma DecoderLimitCloses(s: State, sender: ClientId, data: string, e: string, token: Token)
    requires sender in s.clients && token !in s.pending
    ensures SignalStep(s, OverLimit(e), token) == Step(s, Respond(Response(BAD_REQUEST, map["error" := JString(e)])), NoSends)
    ensures SignalStep(s, Malformed(e), token) == SignalStep(s, OverLimit(e), token)
    ensures var r := ReceiveStep(s, sender, Text(data, OverLimit(e)));
      r.result == Closed && r.state == s.(clients := s.clients - {sender}) && r.sends == NoSends
    ensures ReceiveStep(s, sender, Text(data, Malformed(e))) == Step(s, Kept, NoSends)
  {
  }
}
