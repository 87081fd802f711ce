/** Runs of the signalling server: sequences of events applied to the state,
    and the properties that hold across several events. */
module Traces {
  import opened Json
  import opened Signalling

  /** The events that drive the server, each atomic. */
  datatype Event =
    | Connect(c: ClientId)
    | Disconnect(c: ClientId)
    | Post(body: Decoded, token: Token)
    | Receive(sender: ClientId, frame: Frame)
    | Answered(token: Token)
    | TimedOut(token: Token)
    | Cancel(token: Token)

  /** When an event can happen: a new websocket is a new object, only a
      registered websocket delivers or ends, uuid4 gives a fresh token, and
      only a suspended request resumes or is cancelled. */
  predicate Enabled(s: State, e: Event)
  {
    match e
    case Connect(c) => c !in s.clients
    case Disconnect(c) => c in s.clients
    case Post(_, token) => token !in s.pending
    case Receive(sender, _) => sender in s.clients
    case Answered(token) => token in s.waiting && token in s.pending && s.pending[token].Resolved?
    case TimedOut(token) => token in s.waiting && token in s.pending
    case Cancel(token) => token in s.waiting && token in s.pending
  }

  function Apply(s: State, e: Event): (t: State)
    requires Enabled(s, e)
    ensures Valid(s) ==> Valid(t)
  {
    match e
    case Connect(c) => ConnectStep(s, c)
    case Disconnect(c) => DisconnectStep(s, c)
    case Post(body, token) => SignalStep(s, body, token).state
    case Receive(sender, frame) => ReceiveStep(s, sender, frame).state
    case Answered(token) => AnsweredStep(s, token).state
    case TimedOut(token) => TimedOutStep(s, token).state
    case Cancel(token) => CancelStep(s, token)
  }

  /** What an event pushes to websocket clients. */
  function Pushes(s: State, e: Event): (b: Sends)
    requires Enabled(s, e)
    ensures Recipients(b) <= s.clients
    ensures e.Receive? ==> e.sender !in Recipients(b)
  {
    match e
    case Post(body, token) => SignalStep(s, body, token).sends
    case Receive(sender, frame) => ReceiveStep(s, sender, frame).sends
    case _ => NoSends
  }

  /** Every event of `es` is enabled in the state the ones before it lead to. */
  predicate Admissible(s: State, es: seq<Event>)
    decreases |es|
  {
    es == [] || (Enabled(s, es[0]) && Admissible(Apply(s, es[0]), es[1..]))
  }

  function Run(s: State, es: seq<Event>): State
    requires Admissible(s, es)
    decreases |es|
  {
    if es == [] then s else Run(Apply(s, es[0]), es[1..])
  }

  /** Every suspended request keeps its table entry, in every run. */
  lemma {:induction false} RunKeepsValid(s: State, es: seq<Event>)
    requires Valid(s) && Admissible(s, es)
    ensures Valid(Run(s, es))
    decreases |es|
  {
    if es != [] {
      RunKeepsValid(Apply(s, es[0]), es[1..]);
    }
  }

  /** An entry no request waits for (left behind by an offer without `sdp`, or
      by a cancelled request) is never removed and never waited for again; if
      its future is done or cancelled it never changes. */
  lemma {:induction false} OrphanStays(s: State, es: seq<Event>, token: Token)
    requires Admissible(s, es) && token in s.pending && token !in s.waiting
    ensures token in Run(s, es).pending && token !in Run(s, es).waiting
    ensures !s.pending[token].Unresolved? ==> Run(s, es).pending[token] == s.pending[token]
    decreases |es|
  {
    if es != [] {
      OrphanStays(Apply(s, es[0]), es[1..], token);
    }
  }

  /** A cancelled request leaves an orphaned entry that every later run keeps,
      cancelled if it was unresolved and with its answer if it had one. */
  lemma CancelledLeavesOrphan(s: State, token: Token, es: seq<Event>)
    requires Valid(s) && token in s.waiting
    requires Admissible(CancelStep(s, token), es)
    ensures token in Run(CancelStep(s, token), es).pending
    ensures token !in Run(CancelStep(s, token), es).waiting
    ensures Run(CancelStep(s, token), es).pending[token]
         == if s.pending[token].Unresolved? then Cancelled else s.pending[token]
  {
    OrphanStays(CancelStep(s, token), es, token);
  }

  /** After a request is cancelled, an answer for its token, however much
      later and from whichever client, ends that client's connection. */
  lemma CancelThenAnswerCloses(s: State, token: Token, es: seq<Event>, sender: ClientId, data: string, answer: Object)
    requires Valid(s) && token in s.waiting
    requires Admissible(CancelStep(s, token), es)
    requires sender in Run(CancelStep(s, token), es).clients
    requires IsAnswerWithId(answer) && answer["id"] == JString(token)
    ensures var r := ReceiveStep(Run(CancelStep(s, token), es), sender, Text(data, Parsed(JObject(answer))));
      r.result == Closed && r.sends == NoSends
  {
    var t := Run(CancelStep(s, token), es);
    CancelledLeavesOrphan(s, token, es);
    AnswerTwiceCloses(t, sender, data, answer, token);
  }

  /** First answer wins, and a cancelled future stays cancelled: no event
      changes an entry whose future is done or cancelled; it can only be
      removed, and only by its own request resuming or timing out. */
  lemma SettledEntryIsFinal(s: State, e: Event, token: Token)
    requires Enabled(s, e) && token in s.pending && !s.pending[token].Unresolved?
    ensures var t := Apply(s, e);
      token in t.pending ==> t.pending[token] == s.pending[token]
    ensures token !in Apply(s, e).pending ==> e == Answered(token) || e == TimedOut(token)
  {
  }

  function CountConnects(es: seq<Event>): nat
  {
    if es == [] then 0 else (if es[0].Connect? then 1 else 0) + CountConnects(es[1..])
  }

  function CountDisconnects(es: seq<Event>): nat
  {
    if es == [] then 0 else (if es[0].Disconnect? then 1 else 0) + CountDisconnects(es[1..])
  }

  /** Over connects and disconnects, the number of registered clients is the
      starting number plus the connects minus the disconnects. */
  lemma {:induction false} RegistryCount(s: State, es: seq<Event>)
    requires Admissible(s, es)
    requires forall i :: 0 <= i < |es| ==> es[i].Connect? || es[i].Disconnect?
    ensures |Run(s, es).clients| == |s.clients| + CountConnects(es) - CountDisconnects(es)
    decreases |es|
  {
    if es != [] {
      RegistryCount(Apply(s, es[0]), es[1..]);
    }
  }

  /** A connect and the matching disconnect leave the state as it was. */
  lemma ConnectThenDisconnect(s: State, c: ClientId)
    requires c !in s.clients
    ensures Admissible(s, [Connect(c), Disconnect(c)])
    ensures Run(s, [Connect(c), Disconnect(c)]) == s
  {
    var t := Apply(s, Connect(c));
    assert [Connect(c), Disconnect(c)][1..] == [Disconnect(c)];
    assert Admissible(Apply(t, Disconnect(c)), []);
    assert Run(t, [Disconnect(c)]) == Apply(t, Disconnect(c));
  }

  /** An offer, its answer from a connected peer, and the request's resumption:
      every peer is offered the session description, the answer is pushed to
      nobody, the request gets 200 with the answer object as the peer sent it,
      and the table is as it was before. A second answer for the same token
      before the request resumes ends that peer's connection; after it, the
      same answer is ignored. */
  lemma OfferAnswerRoundTrip(s: State, offer: Object, token: Token, peer: ClientId, other: ClientId, data: string, answer: Object)
    requires Valid(s) && token !in s.pending && peer in s.clients && other in s.clients
    requires Get(offer, "type") == Some(JString("offer")) && "sdp" in offer
    requires IsAnswerWithId(answer) && answer["id"] == JString(token)
    ensures var posted := SignalStep(s, Parsed(JObject(offer)), token);
      && posted.result == Parked(token)
      && posted.sends == SendToAll(s.clients, JsonMessage(OfferMessage(token, offer["sdp"])))
      && var replied := ReceiveStep(posted.state, peer, Text(data, Parsed(JObject(answer))));
      && replied.result == Kept && replied.sends == NoSends
      && token in replied.state.waiting && replied.state.pending[token] == Resolved(answer)
      && ReceiveStep(replied.state, other, Text(data, Parsed(JObject(answer)))).result == Closed
      && var done := AnsweredStep(replied.state, token);
      && done.result == Response(200, answer)
      && done.state == s
      && ReceiveStep(done.state, peer, Text(data, Parsed(JObject(answer)))) == Step(s, Kept, NoSends)
  {
    var posted := SignalStep(s, Parsed(JObject(offer)), token);
    SignalParksOffer(s, offer, token);
    var replied := ReceiveStep(posted.state, peer, Text(data, Parsed(JObject(answer))));
    AnswerResolves(posted.state, peer, data, answer, token);
    AnswerTwiceCloses(replied.state, other, data, answer, token);
    var done := AnsweredStep(replied.state, token);
    assert done.state.pending == s.pending;
    AnswerUnknownIgnored(done.state, peer, data, answer);
  }

  /** An offer made while nobody is connected is offered to no one and ends,
      when its wait expires, with 408 and the table as it was. */
  lemma OfferWithoutPeersTimesOut(s: State, offer: Object, token: Token)
    requires Valid(s) && token !in s.pending && s.clients == {}
    requires Get(offer, "type") == Some(JString("offer"))
    ensures var posted := SignalStep(s, Parsed(JObject(offer)), token);
      && posted.result == Parked(token)
      && Recipients(posted.sends) == {}
      && var expired := TimedOutStep(posted.state, token);
      && expired.result == Response(408, map["error" := JString("Timeout waiting for answer")])
      && expired.state == s
  {
    var posted := SignalStep(s, Parsed(JObject(offer)), token);
    var expired := TimedOutStep(posted.state, token);
    assert expired.state.pending == s.pending;
  }
}
