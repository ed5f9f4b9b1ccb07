/** The two peers as objects: the session's handlers and write queue, the client's pending queue. */
module GatewayPeers {
  import opened RowReader
  import opened Gateway

  class Session {
    var writeQueue: seq<Frame>
    var writing: bool
    var subscriptions: map<nat, string>
    // the socket: the write in flight, and whether the peer may have it already
    var inFlight: Option<Frame>
    var transmitted: bool

    ghost function View(): SessionState
      reads this
    {
      SessionState(writeQueue, writing, inFlight, transmitted, subscriptions)
    }

    ghost predicate Valid()
      reads this
    {
      SessionOk(View())
    }

    constructor ()
      ensures Valid() && View() == START.session
    {
      writeQueue, writing, subscriptions, inFlight, transmitted := [], false, map[], None, false;
    }

    /** The socket takes one write at a time. */
    method AsyncWrite(f: Frame)
      requires inFlight == None
      modifies this`inFlight, this`transmitted
      ensures inFlight == Some(f) && !transmitted
    {
      inFlight, transmitted := Some(f), false;
    }

    method DoWrite()
      requires inFlight == None
      modifies this`writing, this`inFlight, this`transmitted
      ensures View() == StartWrite(old(View()))
    {
      if writeQueue == [] {
        writing := false;
        return;
      }
      writing := true;
      AsyncWrite(writeQueue[0]);
    }

    method SendFrame(f: Frame)
      requires Valid()
      modifies this`writeQueue, this`writing, this`inFlight, this`transmitted
      ensures Valid() && View() == Enqueue(old(View()), f)
    {
      writeQueue := writeQueue + [f];
      if !writing {
        DoWrite();
      }
    }

    /** The completion of a write.  After an error nothing is sent again. */
    method OnWritten(failed: bool)
      requires Valid() && inFlight.Some? && (!failed ==> transmitted)
      modifies this`writeQueue, this`writing, this`inFlight, this`transmitted
      ensures Valid()
      ensures failed ==> View() == old(View()).(inFlight := None)
      ensures !failed ==> View() == WriteCompleted(old(View()))
    {
      inFlight := None;
      if failed {
        return;
      }
      transmitted := false;
      writeQueue := writeQueue[1..];
      DoWrite();
    }

    /** One request: exactly one text response, an error if anything on the way refuses. */
    method HandleFrame(q: Request, o: Outcome)
      requires Valid() && (o.Late? ==> q.Subscribe?)
      modifies this
      ensures Valid()
      ensures View() == Enqueue(old(View()).(subs := Registered(old(subscriptions), q, o)), Text(Answer(q, o)))
    {
      if o.Refused? {
        SendFrame(Text(Error(o.message)));
        return;
      }
      match q {
        case CreateTopic(_) => SendFrame(Text(TopicCreated));
        case Subscribe(topic) => OnSubscribe(topic, o);
        case Unsubscribe(x) => OnUnsubscribe(x);
        case Publish(_, _) => SendFrame(Text(Published));
        case ListTopics => SendFrame(Text(TopicsList(o.topics)));
      }
    }

    /** The subscription is recorded before the response is built, so a late failure leaves it. */
    method OnSubscribe(topic: string, o: Outcome)
      requires Valid() && !o.Refused?
      modifies this
      ensures Valid()
      ensures View() == Enqueue(old(View()).(subs := old(subscriptions)[o.subId := topic]), Text(Answer(Subscribe(topic), o)))
    {
      subscriptions := subscriptions[o.subId := topic];
      if o.Late? {
        SendFrame(Text(Error(o.message)));
      } else {
        SendFrame(Text(Subscribed(o.subId, topic, o.schema)));
      }
    }

    method OnUnsubscribe(x: nat)
      requires Valid()
      modifies this
      ensures Valid()
      ensures View() == Enqueue(old(View()).(subs := old(subscriptions) - {x}), Text(Unsubscribed))
    {
      subscriptions := subscriptions - {x};
      SendFrame(Text(Unsubscribed));
    }
  }

  class Client {
    var pendingQueue: seq<Pending>
    var subscriptions: set<nat>
    var resolved: seq<Resolution>
    var dispatched: seq<Frame>
    var open: bool

    ghost function View(): ClientState
      reads this
    {
      ClientState(pendingQueue, subscriptions, resolved, dispatched)
    }

    constructor ()
      ensures View() == START.client && open
    {
      pendingQueue, subscriptions, resolved, dispatched, open := [], {}, [], [], true;
    }

    /** Queues the call before the frame goes out; `sent` is false when the socket is not open. */
    method SendAndWait(ticket: nat, q: Request, ownSchema: bool) returns (sent: bool)
      modifies this`pendingQueue
      ensures sent == open
      ensures View() == if open then old(View()).(pending := old(pendingQueue) + [Pending(ticket, q, ownSchema, ExpectedType(q))])
                        else old(View())
    {
      if !open {
        return false;
      }
      pendingQueue := pendingQueue + [Pending(ticket, q, ownSchema, ExpectedType(q))];
      return true;
    }

    method FindIndex(r: Response) returns (idx: nat)
      ensures idx == FirstTaker(pendingQueue, r)
    {
      idx := 0;
      while idx < |pendingQueue|
        invariant idx <= |pendingQueue| && FirstTaker(pendingQueue, r) == idx + FirstTaker(pendingQueue[idx..], r)
      {
        if Takes(pendingQueue[idx], r) {
          return;
        }
        assert pendingQueue[idx..][1..] == pendingQueue[idx + 1..];
        idx := idx + 1;
      }
    }

    method OnMessage(f: Frame)
      modifies this`pendingQueue, this`subscriptions, this`resolved, this`dispatched
      ensures View() == TakeFrame(old(View()), f)
    {
      match f {
        case Text(r) =>
          var idx := FindIndex(r);
          if idx == |pendingQueue| {
            return;
          }
          var p := pendingQueue[idx];
          pendingQueue := pendingQueue[..idx] + pendingQueue[idx + 1..];
          resolved := resolved + [Resolution(p.ticket, r)];
          Continue(p, r);
        case Message(x, _) =>
          if x in subscriptions {
            dispatched := dispatched + [f];
          }
      }
    }

    /** What the resolved call does before the next frame is taken. */
    method Continue(p: Pending, r: Response)
      modifies this`subscriptions
      ensures subscriptions == Continued(old(subscriptions), p, r)
    {
      if r.Error? {
        return;
      }
      if p.request.Subscribe? && r.Subscribed? && (p.ownSchema || r.schema) {
        subscriptions := subscriptions + {r.subId};
      } else if p.request.Unsubscribe? {
        subscriptions := subscriptions - {p.request.subId};
      }
    }
  }
}
