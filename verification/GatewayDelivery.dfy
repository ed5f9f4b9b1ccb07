/** Which MESSAGE frames reach a subscriber, told from the histories of a run alone. */
module GatewayDelivery {
  import opened Gateway
  import opened GatewayRuns

  /** The call that the `q`-th frame received answers, when it is a text frame: as many text frames came
      before it as calls were made before that call. */
  function CallOf(w: World, q: nat): nat { if q <= |w.received| then |Texts(w.received[..q])| else 0 }

  /** The `q`-th frame received told a Subscribe call its id `x`, and the caller knows a schema for it. */
  ghost predicate Introduces(w: World, q: nat, x: nat)
    requires q < |w.received|
  {
    && IsSubscribed(w.received[q], x)
    && var k := CallOf(w, q);
       k < |w.requests| && k < |w.owns| && w.requests[k].Subscribe? && (w.owns[k] || w.received[q].response.schema)
  }

  /** The `q`-th frame received told an Unsubscribe call for `x` that it succeeded. */
  ghost predicate Withdraws(w: World, q: nat, x: nat)
    requires q < |w.received|
  {
    w.received[q] == Text(Unsubscribed) && CallOf(w, q) < |w.requests| && w.requests[CallOf(w, q)] == Unsubscribe(x)
  }

  /** After `p` frames, `x` has been introduced and not withdrawn since. */
  ghost predicate Subscribed(w: World, p: nat, x: nat)
    requires p <= |w.received|
  {
    exists q | 0 <= q < p :: Introduces(w, q, x) && forall r | q < r < p :: !Withdraws(w, r, x)
  }

  /** The MESSAGE frames among the first `p` whose id was subscribed when they came, in order. */
  ghost function Delivered(w: World, p: nat): seq<Frame>
    requires p <= |w.received|
  {
    if p == 0 then []
    else
      var f := w.received[p - 1];
      Delivered(w, p - 1) + if f.Message? && Subscribed(w, p - 1, f.subId) then [f] else []
  }

  // ----- the invariant -----

  /** The schema each waiting call brought is the one in the history. */
  ghost predicate OwnsOk(w: World)
  {
    && |w.owns| == |w.requests| == |w.client.resolved| + |w.client.pending|
    && forall j | 0 <= j < |w.client.pending| :: w.client.pending[j].ownSchema == w.owns[|w.client.resolved| + j]
  }

  ghost predicate DeliveryOk(w: World)
  {
    && OwnsOk(w)
    && (forall x: nat :: x in w.client.subs <==> Subscribed(w, |w.received|, x))
    && w.client.dispatched == Delivered(w, |w.received|)
  }

  /** `w'` goes on from the same frames, and perhaps from more calls. */
  ghost predicate Extends(w: World, w': World)
  {
    w.received <= w'.received && w.requests <= w'.requests && w.owns <= w'.owns && |w.requests| == |w.owns|
  }

  lemma {:induction false} TextsGrow(fs: seq<Frame>, q: nat)
    requires q < |fs|
    ensures |Texts(fs[..q])| + (if fs[q].Text? then 1 else 0) <= |Texts(fs)|
  {
    hide Texts;
    assert fs[..q + 1] == fs[..q] + [fs[q]] && fs == fs[..q + 1] + fs[q + 1..];
    TextsSnoc(fs[..q], fs[q]);
    TextsOfConcat(fs[..q + 1], fs[q + 1..]);
  }

  lemma SameFrame(w: World, w': World, q: nat, x: nat)
    requires Extends(w, w') && q < |w.received| && |Texts(w.received)| <= |w.requests|
    ensures Introduces(w', q, x) <==> Introduces(w, q, x)
    ensures Withdraws(w', q, x) <==> Withdraws(w, q, x)
  {
    hide Texts;
    TextsGrow(w.received, q);
    assert w'.received[..q] == w.received[..q];
  }

  lemma SameSubscribed(w: World, w': World, p: nat, x: nat)
    requires Extends(w, w') && p <= |w.received| && |Texts(w.received)| <= |w.requests|
    ensures Subscribed(w', p, x) <==> Subscribed(w, p, x)
  {
    hide Introduces, Withdraws;
    forall q | 0 <= q < p
      ensures Introduces(w', q, x) <==> Introduces(w, q, x)
      ensures Withdraws(w', q, x) <==> Withdraws(w, q, x)
    {
      SameFrame(w, w', q, x);
    }
  }

  lemma {:induction false} SameDelivered(w: World, w': World, p: nat)
    requires Extends(w, w') && p <= |w.received| && |Texts(w.received)| <= |w.requests|
    ensures Delivered(w', p) == Delivered(w, p)
    decreases p
  {
    hide Subscribed;
    if p > 0 {
      SameDelivered(w, w', p - 1);
      if w.received[p - 1].Message? { SameSubscribed(w, w', p - 1, w.received[p - 1].subId); }
    }
  }

  /** One more frame. */
  lemma SubscribedNext(w: World, p: nat, x: nat)
    requires p < |w.received|
    ensures Subscribed(w, p + 1, x) <==> Introduces(w, p, x) || (Subscribed(w, p, x) && !Withdraws(w, p, x))
  {
    hide Introduces, Withdraws;
    if Subscribed(w, p, x) && !Withdraws(w, p, x) {
      var q :| 0 <= q < p && Introduces(w, q, x) && forall r | q < r < p :: !Withdraws(w, r, x);
      assert Introduces(w, q, x) && forall r | q < r < p + 1 :: !Withdraws(w, r, x);
    }
    if Subscribed(w, p + 1, x) && !Introduces(w, p, x) {
      var q :| 0 <= q < p + 1 && Introduces(w, q, x) && forall r | q < r < p + 1 :: !Withdraws(w, r, x);
      assert q < p;
      assert forall r | q < r < p :: !Withdraws(w, r, x);
    }
  }

  // ----- each step -----

  lemma CallsCover(w: World)
    requires Inv(w)
    ensures |Texts(w.received)| == |w.client.resolved| <= |w.requests|
    ensures |w.client.resolved| + |w.client.pending| == |w.requests|
  {
    hide UpOk, DownOk, SubsOk, MessagesOk, Texts, Responses;
  }

  /** Steps that leave the frames received and the client's tables alone. */
  lemma QuietStep(w: World, w': World)
    requires Inv(w) && DeliveryOk(w) && Extends(w, w') && OwnsOk(w')
    requires w'.received == w.received && w'.client.subs == w.client.subs && w'.client.dispatched == w.client.dispatched
    ensures DeliveryOk(w')
  {
    hide Inv, Subscribed, Delivered, OwnsOk;
    CallsCover(w);
    forall x: nat
      ensures Subscribed(w', |w.received|, x) <==> Subscribed(w, |w.received|, x)
    {
      SameSubscribed(w, w', |w.received|, x);
    }
    SameDelivered(w, w', |w.received|);
  }

  lemma ReceiveParts(w: World)
    requires Inv(w) && DeliveryOk(w) && w.down != []
    ensures var w' := Apply(w, Receive);
            && Extends(w, w') && w'.received == w.received + [w.down[0]] && w'.requests == w.requests && w'.owns == w.owns
            && w'.client == TakeFrame(w.client, w.down[0]) && CallOf(w', |w.received|) == |w.client.resolved|
  {
    CallsCover(w);
    hide Inv, Subscribed, Delivered, Texts, TakeFrame;
    assert (w.received + [w.down[0]])[..|w.received|] == w.received;
  }

  /** A response changes the client's subscriptions as the frame says. */
  lemma ReceiveText(w: World)
    requires Inv(w) && DeliveryOk(w) && w.down != [] && w.down[0].Text?
    ensures DeliveryOk(Apply(w, Receive))
  {
    hide Inv, Subscribed, Delivered, Apply, Texts, TakeFrame, Continued, CallOf, Introduces, Withdraws, TypeOf, ExpectedType;
    var w', p := Apply(w, Receive), |w.received|;
    CallsCover(w);
    ReceiveParts(w);
    TextTaken(w);
    forall x: nat
      ensures x in w'.client.subs <==> Subscribed(w', p + 1, x)
    {
      SubscribedNext(w', p, x);
      SameSubscribed(w, w', p, x);
      TextEffect(w, w', x);
    }
    SameDelivered(w, w', p);
    assert Delivered(w', p + 1) == Delivered(w', p) by { DeliveredNext(w', p); assert Delivered(w', p) + [] == Delivered(w', p); }
  }

  lemma DeliveredNext(w: World, p: nat)
    requires p < |w.received|
    ensures var f := w.received[p];
            Delivered(w, p + 1) == Delivered(w, p) + if f.Message? && Subscribed(w, p, f.subId) then [f] else []
  {
    hide Subscribed;
  }

  lemma {:induction false} HeadTaken(c: ClientState, r: Response)
    requires c.pending != [] && FirstTaker(c.pending, r) == 0
    ensures var c' := TakeFrame(c, Text(r));
            && c'.subs == Continued(c.subs, c.pending[0], r) && c'.dispatched == c.dispatched
            && c'.pending == c.pending[1..] && |c'.resolved| == |c.resolved| + 1
  {
    hide FirstTaker, Continued, Takes;
    Splice(c.pending);
    var c' := TakeFrame(c, Text(r));
    assert c'.pending == c.pending[..0] + c.pending[1..];
  }

  /** The first waiting call takes the response. */
  lemma TextTaken(w: World)
    requires Inv(w) && DeliveryOk(w) && w.down != [] && w.down[0].Text?
    ensures var c, r := w.client, w.down[0].response;
            && c.pending != [] && |c.resolved| < |w.requests| == |w.owns|
            && c.pending[0].request == w.requests[|c.resolved|] && c.pending[0].ownSchema == w.owns[|c.resolved|]
            && (r.Error? || TypeOf(r) == ExpectedType(c.pending[0].request))
            && TakeFrame(c, w.down[0]).subs == Continued(c.subs, c.pending[0], r)
            && TakeFrame(c, w.down[0]).dispatched == c.dispatched
    ensures OwnsOk(Apply(w, Receive))
  {
    hide Inv, Subscribed, Delivered, FirstTaker, Continued, Takes, TypeOf, ExpectedType, TakeFrame, Apply, Texts, CallOf;
    HeadAnswersHead(w);
    Answered(w);
    HeadTaken(w.client, w.down[0].response);
    ReceiveParts(w);
  }

  lemma Answered(w: World)
    requires Inv(w) && |w.client.resolved| < |w.exchanges|
    ensures var x := w.exchanges[|w.client.resolved|]; |w.client.resolved| < |w.requests| && x.request == w.requests[|w.client.resolved|] && Fits(x)
  {
    hide DownOk, ClientOk, SubsOk, MessagesOk, Texts, Responses, Fits;
  }

  lemma TextEffect(w: World, w': World, x: nat)
    requires w.down != [] && w.down[0].Text? && w'.received == w.received + [w.down[0]] && w'.requests == w.requests && w'.owns == w.owns
    requires CallOf(w', |w.received|) == |w.client.resolved| < |w.requests| == |w.owns| && w.client.pending != []
    requires var p, r := w.client.pending[0], w.down[0].response;
             && p.request == w.requests[|w.client.resolved|] && p.ownSchema == w.owns[|w.client.resolved|]
             && (r.Error? || TypeOf(r) == ExpectedType(p.request)) && w'.client.subs == Continued(w.client.subs, p, r)
    ensures x in w'.client.subs
        <==> Introduces(w', |w.received|, x) || (x in w.client.subs && !Withdraws(w', |w.received|, x))
  {
    hide CallOf;
    var p, r := w.client.pending[0], w.down[0].response;
    assert w'.received[|w.received|] == w.down[0];
    match p.request
    case Subscribe(_) => if !r.Error? { assert r.Subscribed?; }
    case Unsubscribe(_) => if !r.Error? { assert r == Unsubscribed; }
    case _ => if !r.Error? { assert !r.Subscribed?; }
  }

  lemma MessageTaken(c: ClientState, f: Frame)
    requires f.Message?
    ensures var c' := TakeFrame(c, f);
            && c'.subs == c.subs && c'.pending == c.pending && c'.resolved == c.resolved
            && c'.dispatched == if f.subId in c.subs then c.dispatched + [f] else c.dispatched
  {
  }

  /** A MESSAGE frame is dispatched when its id is subscribed. */
  lemma ReceiveMessage(w: World)
    requires Inv(w) && DeliveryOk(w) && w.down != [] && w.down[0].Message?
    ensures DeliveryOk(Apply(w, Receive))
  {
    hide Inv, Subscribed, Delivered, Texts, Introduces, Withdraws, TakeFrame, Apply, CallOf;
    var w', p, f := Apply(w, Receive), |w.received|, w.down[0];
    CallsCover(w);
    ReceiveParts(w);
    MessageTaken(w.client, f);
    forall x: nat
      ensures Subscribed(w', p + 1, x) <==> Subscribed(w, p, x)
      ensures Subscribed(w', p, x) <==> Subscribed(w, p, x)
    {
      SubscribedNext(w', p, x);
      SameSubscribed(w, w', p, x);
      NoEvent(w', p, x);
    }
    SameDelivered(w, w', p);
    DeliveredNext(w', p);
    assert Delivered(w, p) + [] == Delivered(w, p);
  }

  lemma NoEvent(w: World, p: nat, x: nat)
    requires p < |w.received| && w.received[p].Message?
    ensures !Introduces(w, p, x) && !Withdraws(w, p, x)
  {
  }

  lemma StepDelivers(w: World, step: Step)
    requires Inv(w) && DeliveryOk(w) && Enabled(w, step)
    ensures DeliveryOk(Apply(w, step))
  {
    if step.Receive? {
      if w.down[0].Text? { ReceiveText(w); } else { ReceiveMessage(w); }
    } else {
      hide Inv, Subscribed, Delivered;
      QuietStep(w, Apply(w, step));
    }
  }

  lemma {:induction false} RunDelivers(run: seq<World>, i: nat)
    requires Run(run) && i < |run|
    ensures DeliveryOk(run[i])
    decreases i
  {
    if i == 0 {
      assert forall x: nat :: !Subscribed(START, 0, x);
    } else {
      hide Inv, Enabled, Apply, DeliveryOk;
      RunDelivers(run, i - 1);
      RunKeeps(run, i - 1);
      assert Next(run[i - 1], run[i - 1 + 1]);
      var step :| Enabled(run[i - 1], step) && run[i] == Apply(run[i - 1], step);
      StepDelivers(run[i - 1], step);
    }
  }

  // ----- what every run promises -----

  /** In every state of every run the frames handed to subscribers are, in order, exactly the MESSAGE
      frames received while their id was subscribed, and the client holds exactly those ids. */
  lemma DispatchedExactly(run: seq<World>, i: nat)
    requires Run(run) && i < |run|
    ensures var w := run[i];
            && w.client.dispatched == Delivered(w, |w.received|)
            && forall x: nat :: x in w.client.subs <==> Subscribed(w, |w.received|, x)
  {
    hide Subscribed, Delivered, Run;
    RunDelivers(run, i);
  }

  // ----- what the session passes on -----

  /** The samples that MESSAGE frames carry. */
  function Messages(fs: seq<Frame>): seq<Sample>
  {
    if fs == [] then []
    else if fs[0].Message? then [Sample(fs[0].subId, fs[0].envelope)] + Messages(fs[1..])
    else Messages(fs[1..])
  }

  lemma {:induction false} MessagesOfConcat(a: seq<Frame>, b: seq<Frame>)
    ensures Messages(a + b) == Messages(a) + Messages(b)
  {
    if a == [] {
      assert a + b == b;
    } else {
      assert (a + b)[0] == a[0] && (a + b)[1..] == a[1..] + b;
      MessagesOfConcat(a[1..], b);
    }
  }

  lemma {:induction false} OneMessage(f: Frame)
    ensures Messages([f]) == if f.Message? then [Sample(f.subId, f.envelope)] else []
  {
    assert [f][1..] == [];
  }

  /** Every sample is queued as one MESSAGE frame, in the order the provider handed them over, and the
      client has received a prefix of them, unaltered. */
  lemma {:induction false} MessagesAreSamples(run: seq<World>, i: nat)
    requires Run(run) && i < |run|
    ensures Messages(run[i].enqueued) == run[i].samples && Messages(run[i].received) <= run[i].samples
    decreases i
  {
    if i > 0 {
      MessagesAreSamples(run, i - 1);
      assert Next(run[i - 1], run[i - 1 + 1]);
      var step :| Enabled(run[i - 1], step) && run[i] == Apply(run[i - 1], step);
      Passed(run[i - 1], step);
    }
    RunKeeps(run, i);
    hide Run, UpOk, ClientOk, SubsOk, MessagesOk, Texts, Responses, Messages;
    MessagesOfConcat(run[i].received, run[i].down + Unsent(run[i].session));
  }

  lemma Passed(w: World, step: Step)
    requires Enabled(w, step) && Messages(w.enqueued) == w.samples
    ensures var w' := Apply(w, step); Messages(w'.enqueued) == w'.samples
  {
    if step.Handle? || step.Deliver? {
      var f := if step.Handle? then Text(Answer(w.up[0], step.outcome)) else Message(step.subId, step.envelope);
      MessagesOfConcat(w.enqueued, [f]);
      OneMessage(f);
      hide Messages, Answer, Enqueue;
      assert w.samples + [] == w.samples;
    }
  }

  /** What the provider answered reaches the client: an error exactly when the call did not go through,
      with the provider's message, and otherwise the ids, schemas and topics it gave. */
  ghost predicate Carries(x: Exchange, o: Outcome)
  {
    && (x.response.Error? <==> !o.Served?)
    && (!o.Served? ==> x.response.message == o.message)
    && (o.Served? && x.request.Subscribe? ==> x.response == Response.Subscribed(o.subId, x.request.topic, o.schema))
    && (o.Served? && x.request.ListTopics? ==> x.response == TopicsList(o.topics))
  }

  /** Request `k` was granted: it left the session with subscription `x`. */
  ghost predicate Grants(w: World, k: nat, x: nat)
    requires k < |w.exchanges| == |w.outcomes|
  {
    w.exchanges[k].request.Subscribe? && !w.outcomes[k].Refused? && w.outcomes[k].subId == x
  }

  ghost predicate Drops(w: World, k: nat, x: nat)
    requires k < |w.exchanges| == |w.outcomes|
  {
    w.exchanges[k].request == Unsubscribe(x) && w.outcomes[k].Served?
  }

  /** The last request about `x` among the first `n` was granted, for `topic`. */
  ghost predicate Held(w: World, n: nat, x: nat, topic: string)
    requires n <= |w.exchanges| == |w.outcomes|
  {
    exists k | 0 <= k < n ::
      && Grants(w, k, x) && w.exchanges[k].request.topic == topic
      && forall m | k < m < n :: !Grants(w, m, x) && !Drops(w, m, x)
  }

  ghost predicate SessionKeeps(w: World)
  {
    && |w.outcomes| == |w.exchanges| && (forall k | 0 <= k < |w.exchanges| :: Carries(w.exchanges[k], w.outcomes[k]))
    && forall x: nat, topic: string :: (x in w.session.subs && w.session.subs[x] == topic) <==> Held(w, |w.exchanges|, x, topic)
  }

  lemma HeldNext(w: World, w': World, x: nat, topic: string)
    requires |w.exchanges| == |w.outcomes| && |w'.exchanges| == |w'.outcomes| == |w.exchanges| + 1
    requires w'.exchanges[..|w.exchanges|] == w.exchanges && w'.outcomes[..|w.outcomes|] == w.outcomes
    ensures var n := |w.exchanges|;
            Held(w', n + 1, x, topic)
            <==> (Grants(w', n, x) && w'.exchanges[n].request.topic == topic)
                 || (Held(w, n, x, topic) && !Grants(w', n, x) && !Drops(w', n, x))
  {
    var n := |w.exchanges|;
    assert forall k | 0 <= k < n :: w'.exchanges[k] == w'.exchanges[..n][k] && w'.outcomes[k] == w'.outcomes[..n][k];
    assert forall k | 0 <= k < n :: (Grants(w', k, x) <==> Grants(w, k, x)) && (Drops(w', k, x) <==> Drops(w, k, x));
    hide Grants, Drops;
    if Held(w, n, x, topic) && !Grants(w', n, x) && !Drops(w', n, x) {
      var k :| 0 <= k < n && Grants(w, k, x) && w.exchanges[k].request.topic == topic && forall m | k < m < n :: !Grants(w, m, x) && !Drops(w, m, x);
      assert Grants(w', k, x) && w'.exchanges[k].request.topic == topic;
    }
    if Held(w', n + 1, x, topic) && !(Grants(w', n, x) && w'.exchanges[n].request.topic == topic) {
      var k :| 0 <= k < n + 1 && Grants(w', k, x) && w'.exchanges[k].request.topic == topic
               && forall m | k < m < n + 1 :: !Grants(w', m, x) && !Drops(w', m, x);
      assert k < n;
      assert Grants(w, k, x) && w.exchanges[k].request.topic == topic;
    }
  }

  lemma HandleHeld(w: World, o: Outcome)
    requires SessionKeeps(w) && Enabled(w, Handle(o)) && SessionOk(w.session)
    ensures SessionKeeps(Apply(w, Handle(o)))
  {
    var q, w' := w.up[0], Apply(w, Handle(o));
    assert w'.session.subs == Registered(w.session.subs, q, o) by { QueueKeeps(w.session.(subs := Registered(w.session.subs, q, o)), Text(Answer(q, o))); }
    assert w'.exchanges == w.exchanges + [Exchange(q, Answer(q, o))] && w'.outcomes == w.outcomes + [o];
    assert Carries(Exchange(q, Answer(q, o)), o);
    hide Apply, Enqueue, Answer, Carries, SessionOk;
    forall x: nat, topic: string
      ensures (x in w'.session.subs && w'.session.subs[x] == topic) <==> Held(w', |w'.exchanges|, x, topic)
    {
      HeldNext(w, w', x, topic);
      hide Held;
    }
  }

  lemma SameSession(w: World, w': World)
    requires SessionKeeps(w) && w'.exchanges == w.exchanges && w'.outcomes == w.outcomes && w'.session.subs == w.session.subs
    ensures SessionKeeps(w')
  {
    hide Carries;
    forall x: nat, topic: string
      ensures Held(w', |w'.exchanges|, x, topic) <==> Held(w, |w.exchanges|, x, topic)
    {
      assert forall k | 0 <= k < |w.exchanges| :: (Grants(w', k, x) <==> Grants(w, k, x)) && (Drops(w', k, x) <==> Drops(w, k, x));
    }
  }

  lemma StepHeld(w: World, step: Step)
    requires Inv(w) && SessionKeeps(w) && Enabled(w, step)
    ensures SessionKeeps(Apply(w, step))
  {
    hide SessionKeeps, UpOk, ClientOk, SubsOk, MessagesOk, Texts, Responses;
    match step
    case Handle(o) => HandleHeld(w, o);
    case Deliver(x, e) =>
      QueueKeeps(w.session, Message(x, e));
      SameSession(w, Apply(w, step));
    case _ => SameSession(w, Apply(w, step));
  }

  /** In every state of every run the session holds exactly the subscriptions that its requests left
      granted, under the topics asked for, and its answers carry what the provider said. */
  lemma {:induction false} SessionHoldsGranted(run: seq<World>, i: nat)
    requires Run(run) && i < |run|
    ensures SessionKeeps(run[i])
    decreases i
  {
    if i == 0 {
      assert forall x: nat, topic: string :: !Held(START, 0, x, topic);
    } else {
      hide Inv, Enabled, Apply, SessionKeeps;
      SessionHoldsGranted(run, i - 1);
      RunKeeps(run, i - 1);
      assert Next(run[i - 1], run[i - 1 + 1]);
      var step :| Enabled(run[i - 1], step) && run[i] == Apply(run[i - 1], step);
      StepHeld(run[i - 1], step);
    }
  }
}
