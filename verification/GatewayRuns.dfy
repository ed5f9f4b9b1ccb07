/** Request and response correlation over every run of the gateway protocol. */
module GatewayRuns {
  import opened Wire
  import opened RowReader
  import opened Gateway

  // ----- the text frames of a channel -----

  function Texts(fs: seq<Frame>): seq<Response>
  {
    if fs == [] then []
    else if fs[0].Text? then [fs[0].response] + Texts(fs[1..])
    else Texts(fs[1..])
  }

  lemma {:induction false} TextsOfConcat(a: seq<Frame>, b: seq<Frame>)
    ensures Texts(a + b) == Texts(a) + Texts(b)
  {
    if a == [] {
      assert a + b == b;
    } else {
      assert (a + b)[0] == a[0] && (a + b)[1..] == a[1..] + b;
      TextsOfConcat(a[1..], b);
    }
  }

  ghost function Responses(xs: seq<Exchange>): seq<Response>
  {
    seq(|xs|, k requires 0 <= k < |xs| => xs[k].response)
  }

  // ----- the invariant -----

  /** Requests reach the session in the order they were sent. */
  ghost predicate UpOk(requests: seq<Request>, up: seq<Request>, xs: seq<Exchange>)
  {
    && |requests| == |xs| + |up| && requests[|xs|..] == up
    && forall k | 0 <= k < |xs| :: xs[k].request == requests[k] && Fits(xs[k])
  }

  /** A response answers its request: the type the client waits for, or an error. */
  predicate Fits(x: Exchange)
  {
    x.response.Error? || TypeOf(x.response) == ExpectedType(x.request)
  }

  /** Frames reach the client in the order they were queued. */
  ghost predicate DownOk(enqueued: seq<Frame>, received: seq<Frame>, down: seq<Frame>, s: SessionState)
  {
    SessionOk(s) && enqueued == received + (down + Unsent(s))
  }

  function Ticket(requests: seq<Request>, k: nat, own: bool): Pending
    requires k < |requests|
  {
    Pending(k, requests[k], own, ExpectedType(requests[k]))
  }

  /** Call `k` was resolved by response `k`; the calls after that wait in order. */
  ghost predicate ClientOk(requests: seq<Request>, xs: seq<Exchange>, received: seq<Frame>, c: ClientState)
  {
    && |c.resolved| == |Texts(received)| <= |xs|
    && (forall k | 0 <= k < |c.resolved| :: c.resolved[k] == Resolution(k, xs[k].response))
    && |c.resolved| + |c.pending| == |requests|
    && forall j | 0 <= j < |c.pending| :: c.pending[j] == Ticket(requests, |c.resolved| + j, c.pending[j].ownSchema)
  }

  /** The ids that a history of exchanges leaves subscribed. */
  function Live(xs: seq<Exchange>): set<nat>
  {
    if xs == [] then {}
    else
      var was, x := Live(xs[..|xs| - 1]), xs[|xs| - 1];
      if x.response.Subscribed? then was + {x.response.subId}
      else if x.request.Unsubscribe? && x.response.Unsubscribed? then was - {x.request.subId}
      else was
  }

  /** The session keeps every id its answers leave subscribed; the client has no other. */
  ghost predicate SubsOk(xs: seq<Exchange>, resolved: nat, session: map<nat, string>, client: set<nat>)
  {
    resolved <= |xs| && Live(xs) <= session.Keys && client <= Live(xs[..resolved])
  }

  /** A MESSAGE frame follows the response that gave its id. */
  ghost predicate MessagesOk(enqueued: seq<Frame>, leaked: set<nat>)
  {
    forall p | 0 <= p < |enqueued| && enqueued[p].Message? :: Introduced(enqueued, leaked, p)
  }

  ghost predicate Introduced(enqueued: seq<Frame>, leaked: set<nat>, p: nat)
    requires p < |enqueued| && enqueued[p].Message?
  {
    || enqueued[p].subId in leaked
    || exists q | 0 <= q < p :: IsSubscribed(enqueued[q], enqueued[p].subId)
  }

  predicate IsSubscribed(f: Frame, x: nat) { f.Text? && f.response.Subscribed? && f.response.subId == x }

  ghost predicate Inv(w: World)
  {
    && UpOk(w.requests, w.up, w.exchanges)
    && DownOk(w.enqueued, w.received, w.down, w.session)
    && Texts(w.enqueued) == Responses(w.exchanges)
    && ClientOk(w.requests, w.exchanges, w.received, w.client)
    && SubsOk(w.exchanges, |w.client.resolved|, w.session.subs, w.client.subs)
    && MessagesOk(w.enqueued, w.leaked)
  }

  // ----- the session's queue -----

  lemma QueueKeeps(s: SessionState, f: Frame)
    requires SessionOk(s)
    ensures SessionOk(Enqueue(s, f)) && Unsent(Enqueue(s, f)) == Unsent(s) + [f] && Enqueue(s, f).subs == s.subs
  {
    if s.writing && s.transmitted {
      assert (s.queue + [f])[1..] == s.queue[1..] + [f];
    }
  }

  lemma CompletionKeeps(s: SessionState)
    requires SessionOk(s) && s.transmitted && s.queue != []
    ensures SessionOk(WriteCompleted(s)) && Unsent(WriteCompleted(s)) == Unsent(s) && WriteCompleted(s).subs == s.subs
  {
  }

  lemma Queued(enqueued: seq<Frame>, received: seq<Frame>, down: seq<Frame>, s: SessionState, f: Frame)
    requires DownOk(enqueued, received, down, s)
    ensures DownOk(enqueued + [f], received, down, Enqueue(s, f))
  {
    QueueKeeps(s, f);
    assert received + (down + Unsent(s)) + [f] == received + (down + (Unsent(s) + [f]));
  }

  // ----- each step -----

  lemma SendKeeps(w: World, q: Request, own: bool)
    requires Inv(w)
    ensures Inv(Apply(w, Send(q, own)))
  {
    hide DownOk, SubsOk, MessagesOk, Texts, Responses, Fits, ExpectedType;
    var w' := Apply(w, Send(q, own));
    assert w'.requests[|w.exchanges|..] == w.up + [q];
  }

  lemma ResponsesSnoc(xs: seq<Exchange>, x: Exchange)
    ensures Responses(xs + [x]) == Responses(xs) + [x.response]
  {
  }

  lemma {:induction false} TextsSnoc(fs: seq<Frame>, f: Frame)
    ensures Texts(fs + [f]) == Texts(fs) + (if f.Text? then [f.response] else [])
  {
    TextsOfConcat(fs, [f]);
    assert Texts([f]) == if f.Text? then [f.response] else [] by { assert [f][1..] == []; }
  }

  lemma {:induction false} LiveSnoc(xs: seq<Exchange>, x: Exchange)
    ensures Live(xs + [x])
         == if x.response.Subscribed? then Live(xs) + {x.response.subId}
            else if x.request.Unsubscribe? && x.response.Unsubscribed? then Live(xs) - {x.request.subId}
            else Live(xs)
  {
    assert (xs + [x])[..|xs|] == xs;
  }

  lemma HandledSubs(xs: seq<Exchange>, resolved: nat, session: map<nat, string>, client: set<nat>, q: Request, o: Outcome)
    requires SubsOk(xs, resolved, session, client) && (o.Late? ==> q.Subscribe?)
    ensures SubsOk(xs + [Exchange(q, Answer(q, o))], resolved, Registered(session, q, o), client)
  {
    LiveSnoc(xs, Exchange(q, Answer(q, o)));
    assert (xs + [Exchange(q, Answer(q, o))])[..resolved] == xs[..resolved];
    hide Live;
  }

  lemma AnswerFits(q: Request, o: Outcome)
    ensures Fits(Exchange(q, Answer(q, o)))
  {
  }

  lemma MessagesSnoc(enqueued: seq<Frame>, leaked: set<nat>, leaked': set<nat>, f: Frame)
    requires MessagesOk(enqueued, leaked) && leaked <= leaked'
    requires f.Message? ==> f.subId in leaked' || exists q | 0 <= q < |enqueued| :: IsSubscribed(enqueued[q], f.subId)
    ensures MessagesOk(enqueued + [f], leaked')
  {
    var e := enqueued + [f];
    forall p | 0 <= p < |e| && e[p].Message?
      ensures Introduced(e, leaked', p)
    {
      if p < |enqueued| {
        assert Introduced(enqueued, leaked, p) && e[p] == enqueued[p];
        if e[p].subId !in leaked {
          var q :| 0 <= q < p && IsSubscribed(enqueued[q], enqueued[p].subId);
          assert IsSubscribed(e[q], e[p].subId);
        }
      } else if f.subId !in leaked' {
        var q :| 0 <= q < |enqueued| && IsSubscribed(enqueued[q], f.subId);
        assert IsSubscribed(e[q], e[p].subId);
      }
    }
  }

  lemma HandledUp(requests: seq<Request>, up: seq<Request>, xs: seq<Exchange>, x: Exchange)
    requires UpOk(requests, up, xs) && up != [] && x.request == up[0] && Fits(x)
    ensures UpOk(requests, up[1..], xs + [x])
  {
    hide Fits;
    assert requests[|xs|] == up[0] && requests[|xs| + 1..] == up[1..];
  }

  lemma HandleKeeps(w: World, o: Outcome)
    requires Inv(w) && Enabled(w, Handle(o))
    ensures Inv(Apply(w, Handle(o)))
  {
    var q := w.up[0];
    var r := Answer(q, o);
    AnswerFits(q, o);
    hide Answer, Fits, Registered, Live, Texts, Responses;
    var subs := Registered(w.session.subs, q, o);
    HandledSubs(w.exchanges, |w.client.resolved|, w.session.subs, w.client.subs, q, o);
    MessagesSnoc(w.enqueued, w.leaked, if o.Late? then w.leaked + {o.subId} else w.leaked, Text(r));
    Queued(w.enqueued, w.received, w.down, w.session.(subs := subs), Text(r));
    QueueKeeps(w.session.(subs := subs), Text(r));
    TextsSnoc(w.enqueued, Text(r));
    ResponsesSnoc(w.exchanges, Exchange(q, r));
    hide Enqueue, DownOk, MessagesOk, SubsOk;
    HandledUp(w.requests, w.up, w.exchanges, Exchange(q, r));
    hide UpOk, ExpectedType;
  }

  /** Every response so far has been queued as a text frame. */
  lemma {:induction false} TextHasFrame(fs: seq<Frame>, k: nat) returns (q: nat)
    requires k < |Texts(fs)|
    ensures q < |fs| && fs[q] == Text(Texts(fs)[k])
  {
    if fs[0].Text? && k == 0 {
      q := 0;
    } else {
      var q' := TextHasFrame(fs[1..], if fs[0].Text? then k - 1 else k);
      q := q' + 1;
    }
  }

  lemma DeliverKeeps(w: World, x: nat, e: bytes)
    requires Inv(w) && Enabled(w, Deliver(x, e))
    ensures Inv(Apply(w, Deliver(x, e)))
  {
    var f := Message(x, e);
    hide UpOk, ClientOk, SubsOk;
    if x !in w.leaked {
      var k :| 0 <= k < |w.exchanges| && w.exchanges[k].response.Subscribed? && w.exchanges[k].response.subId == x;
      assert Texts(w.enqueued)[k] == w.exchanges[k].response;
      var q := TextHasFrame(w.enqueued, k);
      assert IsSubscribed(w.enqueued[q], x);
    }
    hide Responses;
    MessagesSnoc(w.enqueued, w.leaked, w.leaked, f);
    hide MessagesOk;
    Queued(w.enqueued, w.received, w.down, w.session, f);
    QueueKeeps(w.session, f);
    TextsSnoc(w.enqueued, f);
    hide Enqueue, DownOk, Texts;
    assert Texts(w.enqueued) + [] == Texts(w.enqueued);
  }

  lemma WriteKeeps(w: World, step: Step)
    requires Inv(w) && (step.Transmit? || step.WriteDone? || step.WriteFails?) && Enabled(w, step)
    ensures Inv(Apply(w, step))
  {
    hide UpOk, ClientOk, SubsOk, MessagesOk, Texts, Responses;
    match step
    case Transmit =>
      assert w.session.queue == [w.session.queue[0]] + w.session.queue[1..];
      assert w.down + w.session.queue == w.down + [w.session.queue[0]] + w.session.queue[1..];
    case WriteDone => CompletionKeeps(w.session);
    case _ =>
  }

  // ----- receiving -----

  /** The next frame off the wire, when it is a response, is the one the first waiting call is for. */
  lemma HeadAnswersHead(w: World)
    requires Inv(w) && w.down != [] && w.down[0].Text?
    ensures var k, r := |w.client.resolved|, w.down[0].response;
            && k < |w.exchanges| && r == w.exchanges[k].response
            && w.client.pending != [] && w.client.pending[0].ticket == k && w.client.pending[0].request == w.requests[k]
            && Takes(w.client.pending[0], r) && FirstTaker(w.client.pending, r) == 0
  {
    var k, r := |w.client.resolved|, w.down[0].response;
    var rest := w.down[1..] + Unsent(w.session);
    assert w.enqueued == (w.received + [w.down[0]]) + rest;
    TextsOfConcat(w.received + [w.down[0]], rest);
    TextsSnoc(w.received, w.down[0]);
    assert Texts(w.enqueued)[k] == r && Responses(w.exchanges)[k] == r;
    hide Texts, SubsOk, MessagesOk, DownOk;
    assert w.client.pending[0] == Ticket(w.requests, k, w.client.pending[0].ownSchema);
    assert Fits(w.exchanges[k]);
  }

  lemma Splice(pending: seq<Pending>)
    requires pending != []
    ensures pending[..0] + pending[1..] == pending[1..]
  {
  }

  lemma ResolvedSubs(xs: seq<Exchange>, k: nat, session: map<nat, string>, client: set<nat>, p: Pending)
    requires SubsOk(xs, k, session, client) && k < |xs| && xs[k].request == p.request && Fits(xs[k])
    ensures SubsOk(xs, k + 1, session, Continued(client, p, xs[k].response))
  {
    assert xs[..k + 1] == xs[..k] + [xs[k]];
    LiveSnoc(xs[..k], xs[k]);
    hide Live;
  }

  /** The first waiting call is resolved and the others move up. */
  lemma ResolvedClient(w: World, c: ClientState)
    requires ClientOk(w.requests, w.exchanges, w.received, w.client) && w.client.pending != []
    requires w.down != [] && w.down[0].Text? && |w.client.resolved| < |w.exchanges|
    requires w.down[0].response == w.exchanges[|w.client.resolved|].response
    requires c.pending == w.client.pending[1..] && c.resolved == w.client.resolved + [Resolution(w.client.pending[0].ticket, w.down[0].response)]
    ensures ClientOk(w.requests, w.exchanges, w.received + [w.down[0]], c)
  {
    TextsSnoc(w.received, w.down[0]);
    hide Texts, ExpectedType;
    var k := |w.client.resolved|;
    assert w.client.pending[0] == Ticket(w.requests, k, w.client.pending[0].ownSchema);
    forall j | 0 <= j < |c.pending|
      ensures c.pending[j] == Ticket(w.requests, k + 1 + j, c.pending[j].ownSchema)
    {
      assert w.client.pending[j + 1] == Ticket(w.requests, k + (j + 1), w.client.pending[j + 1].ownSchema);
    }
  }

  lemma ReceiveTextKeeps(w: World)
    requires Inv(w) && w.down != [] && w.down[0].Text?
    ensures Inv(Apply(w, Receive))
  {
    hide Fits, Takes, FirstTaker, Live, Responses, Texts, MessagesOk, DownOk, Unsent;
    HeadAnswersHead(w);
    var c, k, r := w.client, |w.client.resolved|, w.down[0].response;
    assert Fits(w.exchanges[k]) && w.exchanges[k].request == w.requests[k];
    hide UpOk;
    ResolvedSubs(w.exchanges, k, w.session.subs, c.subs, c.pending[0]);
    hide SubsOk, Continued;
    ReceivedOk(w);
    Splice(c.pending);
    ResolvedClient(w, TakeFrame(c, w.down[0]));
    hide ClientOk;
  }

  lemma ReceivedOk(w: World)
    requires DownOk(w.enqueued, w.received, w.down, w.session) && w.down != []
    ensures DownOk(w.enqueued, w.received + [w.down[0]], w.down[1..], w.session)
  {
    assert w.received + (w.down + Unsent(w.session)) == (w.received + [w.down[0]]) + (w.down[1..] + Unsent(w.session));
  }

  lemma ReceiveMessageKeeps(w: World)
    requires Inv(w) && w.down != [] && w.down[0].Message?
    ensures Inv(Apply(w, Receive))
  {
    ReceivedOk(w);
    TextsSnoc(w.received, w.down[0]);
    hide DownOk, UpOk, MessagesOk, SubsOk, Texts, Responses;
    assert Texts(w.received) + [] == Texts(w.received);
  }

  lemma StepKeeps(w: World, step: Step)
    requires Inv(w) && Enabled(w, step)
    ensures Inv(Apply(w, step))
  {
    hide Inv, Apply;
    match step
    case Send(q, own) => SendKeeps(w, q, own);
    case Handle(o) => HandleKeeps(w, o);
    case Deliver(x, e) => DeliverKeeps(w, x, e);
    case Receive => if w.down[0].Text? { ReceiveTextKeeps(w); } else { ReceiveMessageKeeps(w); }
    case _ => WriteKeeps(w, step);
  }

  lemma {:induction false} RunKeeps(run: seq<World>, i: nat)
    requires Run(run) && i < |run|
    ensures Inv(run[i])
    decreases i
  {
    hide Inv, Enabled, Apply;
    if i == 0 {
      StartOk();
    } else {
      RunKeeps(run, i - 1);
      assert Next(run[i - 1], run[i - 1 + 1]);
      var step :| Enabled(run[i - 1], step) && run[i] == Apply(run[i - 1], step);
      StepKeeps(run[i - 1], step);
    }
  }

  lemma StartOk()
    ensures Inv(START)
  {
  }

  // ----- what every run promises -----

  /** The k-th call is resolved by the k-th text response, which the session computed for the k-th
      request, whatever errors and MESSAGE frames come between. */
  lemma Correlation(run: seq<World>, i: nat, k: nat)
    requires Run(run) && i < |run| && k < |run[i].client.resolved|
    ensures var w := run[i];
            && |w.client.resolved| <= |w.exchanges| <= |w.requests|
            && w.client.resolved[k] == Resolution(k, w.exchanges[k].response)
            && w.exchanges[k].request == w.requests[k] && Fits(w.exchanges[k])
            && |Texts(w.received)| == |w.client.resolved| && Texts(w.received)[k] == w.exchanges[k].response
  {
    RunKeeps(run, i);
    var w := run[i];
    hide Run;
    TextsOfConcat(w.received, w.down + Unsent(w.session));
    hide SubsOk, MessagesOk, SessionOk, Unsent;
    assert Texts(w.enqueued)[k] == Responses(w.exchanges)[k];
    hide Texts;
  }

  /** Frames leave the session in the order they were queued, and the socket never has two of them. */
  lemma FramesInOrder(run: seq<World>, i: nat)
    requires Run(run) && i < |run|
    ensures var w := run[i];
            && w.received + w.down <= w.enqueued
            && (w.session.inFlight.Some? ==> w.session.writing && w.session.queue != [] && w.session.queue[0] == w.session.inFlight.value)
            && (!w.session.writing ==> w.received + w.down == w.enqueued)
  {
    RunKeeps(run, i);
    var w := run[i];
    hide Run, UpOk, ClientOk, SubsOk, MessagesOk, Texts, Responses;
    assert w.received + (w.down + Unsent(w.session)) == (w.received + w.down) + Unsent(w.session);
  }

  /** A MESSAGE frame never overtakes the response that introduces its id. */
  lemma MessageAfterSubscribed(run: seq<World>, i: nat) returns (k: nat)
    requires Run(run) && i < |run| && run[i].down != [] && run[i].down[0].Message? && run[i].down[0].subId !in run[i].leaked
    ensures k < |run[i].client.resolved|
    ensures run[i].client.resolved[k].response.Subscribed? && run[i].client.resolved[k].response.subId == run[i].down[0].subId
  {
    RunKeeps(run, i);
    var w, p, x := run[i], |run[i].received|, run[i].down[0].subId;
    hide Run, UpOk, SubsOk;
    assert w.enqueued[p] == w.down[0] && Introduced(w.enqueued, w.leaked, p);
    var q :| 0 <= q < p && IsSubscribed(w.enqueued[q], x);
    assert w.received[q] == w.enqueued[q];
    k := FrameHasText(w.received, q);
    TextsOfConcat(w.received, w.down + Unsent(w.session));
    hide Texts, MessagesOk;
    assert Texts(w.enqueued)[k] == Responses(w.exchanges)[k];
  }

  lemma {:induction false} FrameHasText(fs: seq<Frame>, q: nat) returns (k: nat)
    requires q < |fs| && fs[q].Text?
    ensures k < |Texts(fs)| && Texts(fs)[k] == fs[q].response
  {
    if q == 0 {
      k := 0;
    } else {
      var k' := FrameHasText(fs[1..], q - 1);
      k := if fs[0].Text? then k' + 1 else k';
    }
  }

  // ----- every call is answered -----

  ghost predicate Failed(w: World) { w.session.writing && w.session.inFlight == None }

  /** Steps that need neither a new call nor a new sample. */
  predicate Internal(step: Step) { step.Handle? || step.Transmit? || step.WriteDone? || step.Receive? }

  /** What the protocol still has to do. */
  function Work(w: World): int
  {
    4 * |w.up| + 3 * |w.session.queue| + |w.down| - (if w.session.transmitted then 2 else 0)
  }

  lemma WriteWork(s: SessionState, f: Frame)
    requires SessionOk(s)
    ensures Enqueue(s, f).transmitted == s.transmitted && |Enqueue(s, f).queue| == |s.queue| + 1
    ensures s.transmitted ==> !WriteCompleted(s).transmitted && |WriteCompleted(s).queue| == |s.queue| - 1
  {
  }

  lemma WorkShrinks(w: World, step: Step)
    requires Inv(w) && Enabled(w, step) && Internal(step)
    ensures 0 <= Work(Apply(w, step)) < Work(w)
  {
    hide UpOk, ClientOk, SubsOk, MessagesOk, Texts, Responses, Answer, Registered, TakeFrame;
    if step.Handle? {
      var r := Text(Answer(w.up[0], step.outcome));
      WriteWork(w.session.(subs := Registered(w.session.subs, w.up[0], step.outcome)), r);
    } else {
      WriteWork(w.session, Text(Published));
    }
    hide Enqueue, WriteCompleted;
  }

  /** With no write failure the protocol moves until every call has its response. */
  lemma EveryCallIsAnswered(w: World) returns (step: Step)
    requires Inv(w) && !Failed(w)
    ensures Work(w) > 0 ==> Internal(step) && Enabled(w, step)
    ensures Work(w) == 0 ==> w.client.pending == [] && |w.client.resolved| == |w.requests| && w.client.subs <= w.session.subs.Keys
  {
    hide SubsOk, MessagesOk, Texts, Responses;
    step := if w.up != [] then Handle(Refused("")) else if w.down != [] then Receive
            else if w.session.transmitted then WriteDone else Transmit;
    if Work(w) == 0 { QuietMeansResolved(w); }
  }

  lemma QuietMeansResolved(w: World)
    requires Inv(w) && w.up == [] && w.down == [] && w.session.queue == []
    ensures w.client.pending == [] && |w.client.resolved| == |w.requests| && w.client.subs <= w.session.subs.Keys
  {
    assert w.enqueued == w.received by { assert w.received + ([] + []) == w.received; }
    assert |Responses(w.exchanges)| == |w.exchanges|;
    hide Texts, Responses, MessagesOk, Live;
    assert w.exchanges[..|w.exchanges|] == w.exchanges;
  }

  ghost predicate Moves(w: World, w': World) { exists step :: Enabled(w, step) && Internal(step) && w' == Apply(w, step) }

  /** A path of internal steps. */
  ghost predicate Path(path: seq<World>)
  {
    path != [] && forall k | 0 <= k < |path| - 1 :: Moves(path[k], path[k + 1])
  }

  lemma StaysUp(w: World, step: Step)
    requires Inv(w) && !Failed(w) && Enabled(w, step) && Internal(step)
    ensures !Failed(Apply(w, step)) && Apply(w, step).requests == w.requests
  {
    hide UpOk, ClientOk, SubsOk, MessagesOk, Texts, Responses, Answer, Registered, TakeFrame;
  }

  lemma WorkIsNat(w: World)
    requires Inv(w)
    ensures Work(w) >= 0
  {
    hide UpOk, ClientOk, SubsOk, MessagesOk, Texts, Responses;
  }

  lemma {:induction false} QuietIsNear(w: World) returns (path: seq<World>)
    requires Inv(w) && !Failed(w)
    ensures Path(path) && path[0] == w && |path| - 1 <= Work(w)
    ensures var z := path[|path| - 1];
            && z.requests == w.requests && z.client.pending == [] && |z.client.resolved| == |w.requests|
            && z.client.subs <= z.session.subs.Keys
    decreases Work(w)
  {
    hide Inv, Failed, Enabled, Apply, Work;
    WorkIsNat(w);
    var step := EveryCallIsAnswered(w);
    if Work(w) == 0 {
      path := [w];
    } else {
      var w' := Apply(w, step);
      StepKeeps(w, step);
      WorkShrinks(w, step);
      StaysUp(w, step);
      var rest := QuietIsNear(w');
      path := [w] + rest;
      assert Moves(w, w');
      assert forall k | 0 <= k < |rest| - 1 :: Moves(rest[k], rest[k + 1]);
      assert forall k | 0 < k < |path| :: path[k] == rest[k - 1];
    }
  }

  /** From every state of every run without a failed write, internal steps alone, no more than `Work` of
      them, answer every call that was made. */
  lemma CallsComeToRest(run: seq<World>, i: nat) returns (path: seq<World>)
    requires Run(run) && i < |run| && !Failed(run[i])
    ensures Path(path) && path[0] == run[i] && |path| - 1 <= Work(run[i])
    ensures var w := path[|path| - 1];
            && w.requests == run[i].requests && w.client.pending == [] && |w.client.resolved| == |w.requests|
            && w.client.subs <= w.session.subs.Keys
  {
    hide Inv, Failed, Run, Path, Work;
    RunKeeps(run, i);
    path := QuietIsNear(run[i]);
  }
}
