/** The signalling core of WebRTCSignalingServer as an object whose methods
    change its state in place, one method per event. Each method is proved
    to do what the matching function of module Signalling says. The pushes to
    websockets are queued on `outbox` in the order the loops perform them. */
module Server {
  import opened Json
  import opened Signalling

  class SignalingServer {
    /** `self.clients` */
    var clients: set<ClientId>
    /** `self.offer_futures`: each future unresolved, resolved with an answer object, or cancelled */
    var pending: map<Token, Future>
    /** The tokens whose POST /signal request is suspended on their future */
    var waiting: set<Token>
    /** Every push made so far, oldest first */
    var outbox: seq<Send>

    function Snapshot(): State
      reads this
    {
      State(clients, pending, waiting)
    }

    predicate Valid()
      reads this
    {
      Signalling.Valid(Snapshot())
    }

    constructor ()
      ensures Valid()
      ensures Snapshot() == INITIAL && outbox == []
    {
      clients := {};
      pending := map[];
      waiting := {};
      outbox := [];
    }

    /** `self.clients.add(ws)` once the websocket is prepared */
    method Connect(c: ClientId)
      requires Valid() && c !in clients
      modifies this
      ensures Valid()
      ensures Snapshot() == ConnectStep(old(Snapshot()), c) && outbox == old(outbox)
    {
      clients := clients + {c};
    }

    /** `self.clients.remove(ws)` when the message stream of `ws` ends */
    method Disconnect(c: ClientId)
      requires Valid() && c in clients
      modifies this
      ensures Valid()
      ensures Snapshot() == DisconnectStep(old(Snapshot()), c) && outbox == old(outbox)
    {
      clients := clients - {c};
    }

    /** `signal_handler` up to the point where it responds or waits for the answer */
    method Signal(body: Decoded, token: Token) returns (r: SignalResult)
      requires Valid() && token !in pending
      modifies this
      ensures Valid()
      ensures var step := SignalStep(old(Snapshot()), body, token);
        Snapshot() == step.state && r == step.result && Emitted(old(outbox), outbox, step.sends)
    {
      match body
      case Malformed(e) =>
        r := Respond(Response(BAD_REQUEST, ErrorBody(e)));
      case OverLimit(e) =>
        r := Respond(Response(BAD_REQUEST, ErrorBody(e)));
      case Parsed(v) =>
        if !v.JObject? {
          r := Respond(Response(BAD_REQUEST, ErrorBody(NoGetMessage(v))));
        } else if Get(v.fields, "type") != Some(JString("offer")) {
          r := Respond(Response(BAD_REQUEST, ErrorBody(INVALID_DATA_TYPE)));
        } else {
          pending := pending[token := Unresolved];
          var missingSdp := false;
          var todo := clients;
          ghost var done: set<ClientId> := {};
          ghost var sent := |outbox|;
          while todo != {}
            invariant clients == old(clients) && waiting == old(waiting)
            invariant pending == old(pending)[token := Unresolved]
            invariant todo + done == clients && todo !! done
            invariant sent == |old(outbox)| <= |outbox| && outbox[..sent] == old(outbox)
            invariant "sdp" in v.fields ==>
                        DeliversTo(outbox[sent..], done, JsonMessage(OfferMessage(token, v.fields["sdp"])))
            invariant "sdp" !in v.fields ==> outbox == old(outbox) && done == {}
            invariant missingSdp ==> "sdp" !in v.fields && clients != {}
            decreases todo
          {
            var c :| c in todo;
            if "sdp" !in v.fields {
              missingSdp := true;
              break;
            }
            var offer := JsonMessage(OfferMessage(token, v.fields["sdp"]));
            ghost var before := outbox[sent..];
            outbox := outbox + [Send(c, offer)];
            assert outbox[sent..] == before + [Send(c, offer)];
            DeliversToExtend(before, done, offer, c);
            todo := todo - {c};
            done := done + {c};
          }
          if missingSdp {
            r := Respond(Response(BAD_REQUEST, ErrorBody(MISSING_SDP)));
          } else {
            waiting := waiting + {token};
            r := Parked(token);
          }
        }
    }

    /** The body of `async for msg in ws` for one message on the websocket of `sender` */
    method Receive(sender: ClientId, frame: Frame) returns (r: FrameResult)
      requires Valid() && sender in clients
      modifies this
      ensures Valid()
      ensures var step := ReceiveStep(old(Snapshot()), sender, frame);
        Snapshot() == step.state && r == step.result && Emitted(old(outbox), outbox, step.sends)
    {
      r := Kept;
      if frame.NonText? || frame.decoded.Malformed? {
        return;
      }
      if frame.decoded.OverLimit? {
        clients := clients - {sender};
        r := Closed;
        return;
      }
      var v := frame.decoded.value;
      if !v.JObject? {
        clients := clients - {sender};
        r := Closed;
      } else if IsAnswerWithId(v.fields) {
        var id := v.fields["id"];
        if !Hashable(id) {
          clients := clients - {sender};
          r := Closed;
        } else if id.JString? && id.s in pending {
          if pending[id.s].Unresolved? {
            pending := pending[id.s := Resolved(v.fields)];
          } else {
            clients := clients - {sender};
            r := Closed;
          }
        }
      } else {
        var relay := TextMessage(frame.data);
        var todo := clients;
        ghost var done: set<ClientId> := {};
        ghost var sent := |outbox|;
        while todo != {}
          invariant clients == old(clients) && pending == old(pending) && waiting == old(waiting)
          invariant todo + done == clients && todo !! done
          invariant sent == |old(outbox)| <= |outbox| && outbox[..sent] == old(outbox)
          invariant DeliversTo(outbox[sent..], done - {sender}, relay)
          decreases todo
        {
          var c :| c in todo;
          if c != sender {
            ghost var before := outbox[sent..];
            outbox := outbox + [Send(c, relay)];
            assert outbox[sent..] == before + [Send(c, relay)];
            DeliversToExtend(before, done - {sender}, relay, c);
            assert (done - {sender}) + {c} == (done + {c}) - {sender};
          } else {
            assert done - {sender} == (done + {c}) - {sender};
          }
          todo := todo - {c};
          done := done + {c};
        }
      }
    }

    /** The suspended `signal_handler` resumes with the answer its future holds */
    method Answered(token: Token) returns (resp: Response)
      requires Valid() && token in waiting && pending[token].Resolved?
      modifies this
      ensures Valid()
      ensures var step := AnsweredStep(old(Snapshot()), token);
        Snapshot() == step.state && resp == step.result && outbox == old(outbox)
    {
      var answer := pending[token].answer;
      pending := pending - {token};
      waiting := waiting - {token};
      resp := Response(OK, answer);
    }

    /** The task of a suspended `signal_handler` is cancelled before either
        `del` runs; `wait_for` cancels the future unless it is already done */
    method Cancel(token: Token)
      requires Valid() && token in waiting
      modifies this
      ensures Valid()
      ensures Snapshot() == CancelStep(old(Snapshot()), token) && outbox == old(outbox)
    {
      if pending[token].Unresolved? {
        pending := pending[token := Cancelled];
      }
      waiting := waiting - {token};
    }

    /** The suspended `signal_handler` gives up after the timeout */
    method TimedOut(token: Token) returns (resp: Response)
      requires Valid() && token in waiting
      modifies this
      ensures Valid()
      ensures var step := TimedOutStep(old(Snapshot()), token);
        Snapshot() == step.state && resp == step.result && outbox == old(outbox)
    {
      pending := pending - {token};
      waiting := waiting - {token};
      resp := Response(REQUEST_TIMEOUT, ErrorBody(TIMEOUT_WAITING));
    }
  }
}
