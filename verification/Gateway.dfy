/** The WebSocket session and its client as one protocol: requests go up, text responses and MESSAGE
    frames come down, both channels keep their order.  The steps interleave freely; a write may fail
    at any time, after which the session sends nothing more. */
module Gateway {
  import opened Wire
  import opened RowReader

  // ----- frames -----

  datatype Request =
    | CreateTopic(topic: string)
    | Subscribe(topic: string)
    | Unsubscribe(subId: nat)
    | Publish(topic: string, envelope: bytes)
    | ListTopics

  datatype Response =
    | TopicCreated
    | Subscribed(subId: nat, topic: string, schema: bool)
    | Unsubscribed
    | Published
    | TopicsList(topics: seq<string>)
    | Error(message: string)

  function TypeOf(r: Response): string
  {
    match r
    case TopicCreated => "topic_created"
    case Subscribed(_, _, _) => "subscribed"
    case Unsubscribed => "unsubscribed"
    case Published => "published"
    case TopicsList(_) => "topics_list"
    case Error(_) => "error"
  }

  /** The type each client method waits for. */
  function ExpectedType(q: Request): string
  {
    match q
    case CreateTopic(_) => "topic_created"
    case Subscribe(_) => "subscribed"
    case Unsubscribe(_) => "unsubscribed"
    case Publish(_, _) => "published"
    case ListTopics => "topics_list"
  }

  datatype Frame = Text(response: Response) | Message(subId: nat, envelope: bytes)

  // ----- the session -----

  /** What the publisher or subscriber behind the session makes of a request.  `Late` is a subscribe
      that fails after the subscription exists. */
  datatype Outcome =
    | Served(subId: nat, schema: bool, topics: seq<string>)
    | Refused(message: string)
    | Late(subId: nat, message: string)

  function Answer(q: Request, o: Outcome): Response
  {
    match o
    case Refused(m) => Error(m)
    case Late(_, m) => Error(m)
    case Served(id, schema, topics) =>
      match q
      case CreateTopic(_) => TopicCreated
      case Subscribe(topic) => Subscribed(id, topic, schema)
      case Unsubscribe(_) => Unsubscribed
      case Publish(_, _) => Published
      case ListTopics => TopicsList(topics)
  }

  function Registered(subs: map<nat, string>, q: Request, o: Outcome): map<nat, string>
  {
    match q
    case Subscribe(topic) => if o.Refused? then subs else subs[o.subId := topic]
    case Unsubscribe(x) => if o.Served? then subs - {x} else subs
    case _ => subs
  }

  /** `inFlight` is the frame the socket is writing; `transmitted` says the peer may have it although
      the completion has not run. */
  datatype SessionState = SessionState(
    queue: seq<Frame>, writing: bool, inFlight: Option<Frame>, transmitted: bool, subs: map<nat, string>)

  /** The front of the queue is the one write in flight; a failed write leaves `writing` set. */
  ghost predicate SessionOk(s: SessionState)
  {
    && (!s.writing ==> s.queue == [] && s.inFlight == None)
    && (s.inFlight.Some? ==> s.queue != [] && s.queue[0] == s.inFlight.value)
    && (s.transmitted ==> s.writing && s.queue != [])
  }

  function StartWrite(s: SessionState): SessionState
  {
    if s.queue == [] then s.(writing := false)
    else s.(writing := true, inFlight := Some(s.queue[0]), transmitted := false)
  }

  function Enqueue(s: SessionState, f: Frame): SessionState
  {
    var s1 := s.(queue := s.queue + [f]);
    if s.writing then s1 else StartWrite(s1)
  }

  function WriteCompleted(s: SessionState): SessionState
    requires s.queue != []
  {
    StartWrite(s.(queue := s.queue[1..], inFlight := None, transmitted := false))
  }

  /** Queued frames the peer cannot have yet. */
  function Unsent(s: SessionState): seq<Frame>
  {
    if s.transmitted && s.queue != [] then s.queue[1..] else s.queue
  }

  // ----- the client -----

  /** An entry of `pendingQueue`: the call that waits, and what its continuation needs. */
  datatype Pending = Pending(ticket: nat, request: Request, ownSchema: bool, expectedType: string)

  datatype Resolution = Resolution(ticket: nat, response: Response)

  datatype ClientState = ClientState(
    pending: seq<Pending>, subs: set<nat>, resolved: seq<Resolution>, dispatched: seq<Frame>)

  predicate Takes(p: Pending, r: Response) { p.expectedType == TypeOf(r) || TypeOf(r) == "error" }

  /** The index of the first entry that takes `r`, or the length if none does. */
  function FirstTaker(pending: seq<Pending>, r: Response): (i: nat)
    ensures i <= |pending| && (i < |pending| ==> Takes(pending[i], r))
    ensures forall j | 0 <= j < i :: !Takes(pending[j], r)
  {
    if pending == [] || Takes(pending[0], r) then 0 else 1 + FirstTaker(pending[1..], r)
  }

  /** The continuation of the resolved call, up to its next await. */
  function Continued(subs: set<nat>, p: Pending, r: Response): set<nat>
  {
    if r.Error? then subs
    else match p.request
      case Subscribe(_) => if r.Subscribed? && (p.ownSchema || r.schema) then subs + {r.subId} else subs
      case Unsubscribe(x) => subs - {x}
      case _ => subs
  }

  function TakeFrame(c: ClientState, f: Frame): ClientState
  {
    match f
    case Text(r) =>
      var i := FirstTaker(c.pending, r);
      if i == |c.pending| then c
      else
        var p := c.pending[i];
        c.(pending := c.pending[..i] + c.pending[i + 1..], subs := Continued(c.subs, p, r),
           resolved := c.resolved + [Resolution(p.ticket, r)])
    case Message(x, _) => if x in c.subs then c.(dispatched := c.dispatched + [f]) else c
  }

  // ----- the protocol -----

  datatype Exchange = Exchange(request: Request, response: Response)

  /** A sample that the provider hands to the session for one of its subscriptions. */
  datatype Sample = Sample(subId: nat, envelope: bytes)

  /** `requests`, `owns`, `exchanges`, `outcomes`, `samples`, `enqueued` and `received` are histories; the
      rest is the state.  `owns` says of each request whether the caller brought a schema, `outcomes` what
      the provider made of each request handled. */
  datatype World = World(
    requests: seq<Request>, owns: seq<bool>, up: seq<Request>, exchanges: seq<Exchange>, outcomes: seq<Outcome>, leaked: set<nat>,
    samples: seq<Sample>, session: SessionState, enqueued: seq<Frame>, down: seq<Frame>, received: seq<Frame>, client: ClientState)

  const START := World([], [], [], [], [], {}, [], SessionState([], false, None, false, map[]), [], [], [],
                       ClientState([], {}, [], []))

  datatype Step =
    | Send(request: Request, ownSchema: bool)
    | Handle(outcome: Outcome)
    | Deliver(subId: nat, envelope: bytes)
    | Transmit
    | WriteDone
    | WriteFails
    | Receive

  /** Subscription ids that a callback may name. */
  ghost predicate Issued(w: World, x: nat)
  {
    x in w.leaked || exists k | 0 <= k < |w.exchanges| :: w.exchanges[k].response.Subscribed? && w.exchanges[k].response.subId == x
  }

  ghost predicate Enabled(w: World, step: Step)
  {
    match step
    case Send(_, _) => true
    case Handle(o) => w.up != [] && (o.Late? ==> w.up[0].Subscribe?)
    case Deliver(x, _) => Issued(w, x)
    case Transmit => w.session.inFlight.Some? && !w.session.transmitted
    case WriteDone => w.session.inFlight.Some? && w.session.transmitted && w.session.queue != []
    case WriteFails => w.session.inFlight.Some?
    case Receive => w.down != []
  }

  ghost function Apply(w: World, step: Step): World
    requires Enabled(w, step)
  {
    match step
    case Send(q, own) =>
      var p := Pending(|w.requests|, q, own, ExpectedType(q));
      w.(requests := w.requests + [q], owns := w.owns + [own], up := w.up + [q], client := w.client.(pending := w.client.pending + [p]))
    case Handle(o) =>
      var q := w.up[0];
      var r := Answer(q, o);
      w.(up := w.up[1..], exchanges := w.exchanges + [Exchange(q, r)], outcomes := w.outcomes + [o],
         leaked := if o.Late? then w.leaked + {o.subId} else w.leaked,
         session := Enqueue(w.session.(subs := Registered(w.session.subs, q, o)), Text(r)),
         enqueued := w.enqueued + [Text(r)])
    case Deliver(x, e) =>
      w.(samples := w.samples + [Sample(x, e)], session := Enqueue(w.session, Message(x, e)), enqueued := w.enqueued + [Message(x, e)])
    case Transmit => w.(session := w.session.(transmitted := true), down := w.down + [w.session.inFlight.value])
    case WriteDone => w.(session := WriteCompleted(w.session))
    case WriteFails => w.(session := w.session.(inFlight := None))
    case Receive => w.(down := w.down[1..], received := w.received + [w.down[0]], client := TakeFrame(w.client, w.down[0]))
  }

  ghost predicate Next(w: World, w': World) { exists step :: Enabled(w, step) && w' == Apply(w, step) }

  ghost predicate Run(run: seq<World>)
  {
    && run != [] && run[0] == START
    && forall i | 0 <= i < |run| - 1 :: Next(run[i], run[i + 1])
  }
}
