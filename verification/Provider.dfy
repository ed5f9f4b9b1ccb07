/** The Fast DDS provider's topic state machine, one step per stretch of code between lock operations.

    Application threads run the seam calls under `mu`; one schema thread serves announcements; both
    take `schema_mu` for the state they share.  DDS calls succeed or fail at will, with the one rule
    that a topic still used by a reader or writer cannot be deleted.  Entity ids may be reused once
    the entity is gone. */
module Provider {
  import opened RowReader

  type Id = nat
  type Name = nat
  type Tid = nat

  /** 0 stands for "not given" in options and for "none" after a teardown. */
  const MIN_PAYLOAD := 4
  const MAX_PAYLOAD := 0xFFFF_FFF4

  predicate IsPayloadBound(b: nat) { MIN_PAYLOAD <= b <= MAX_PAYLOAD && b % 4 == 0 }

  // ----- DDS entities -----

  datatype DataTopic = DataTopic(name: Name, bound: nat)

  datatype DataReader = DataReader(topic: Id, listener: Id)

  /** Who keeps an object alive: a topic's state, or the locals of a thread that is tearing it down. */
  datatype Owner = ByTopic(name: Name) | ByThread(tid: Tid)

  datatype Dds = Dds(
    topics: map<Id, DataTopic>,
    readers: map<Id, DataReader>,
    writers: map<Id, Id>)

  /** The one rule of `delete_topic`. */
  ghost predicate InUse(dds: Dds, topic: Id)
  {
    (exists d | d in dds.readers :: dds.readers[d].topic == topic) || (exists w | w in dds.writers :: dds.writers[w] == topic)
  }

  // ----- per-topic state -----

  datatype Publication = Publication(
    writer: Option<Id>, schemaWriter: bool, schema: Option<nat>, bound: nat, profile: nat)

  datatype Subscription = Subscription(
    schemaReader: Option<Id>, arrival: Option<Id>, resolver: bool, schema: Option<nat>, bound: nat,
    watches: nat, dataReader: Option<Id>, listener: Option<Id>, profile: nat)

  datatype Topic = Topic(dataTopic: Option<Id>, schemaTopic: bool, pub: Publication, sub: Subscription)

  const EMPTY_TOPIC := Topic(None, false, Publication(None, false, None, 0, 0),
                             Subscription(None, None, false, None, 0, 0, None, None, 0))

  /** The schema channel is open. */
  predicate Open(t: Topic) { t.sub.schemaReader.Some? || t.sub.schema.Some? }

  datatype Outcome = Pending | Arrived(schema: nat) | Failed | Ended

  datatype Arrival = Arrival(name: Name, outcome: Outcome)

  // ----- threads -----

  datatype Call =
    | Create(name: Name, bound: nat, profile: nat, schema: Option<nat>)
    | Subscribe(name: Name, profile: nat)
    | Unsubscribe(name: Name)
    | SubscribeSchema(name: Name)
    | UnsubscribeSchema(name: Name)
    | Publish(name: Name)

  /** Where a call stands while it holds `mu`. */
  datatype Stage =
    | Start
    | Channel(reader: Option<Id>)
    | Body
    | Count
    | Announcing
    | Closing(dataReader: Option<Id>, listener: Option<Id>)

  datatype Pc =
    | Idle
    | WantMu(call: Call)
    | Sharing(call: Call)
    | InMu(call: Call, stage: Stage)
    | WantSchema(call: Call, stage: Stage)
    | InSchema(call: Call, stage: Stage)
    | Cleanup(schemaReader: Option<Id>, dataReader: Option<Id>, listener: Option<Id>)

  datatype SchemaPc = Waiting | Wants(active: set<Id>) | Serving(active: set<Id>)

  datatype Holder = App(tid: Tid) | SchemaThread

  datatype State = State(
    ownBound: nat,
    topics: map<Name, Topic>,
    dds: Dds,
    schemaReaders: map<Id, Owner>,
    registry: map<Id, Name>,
    listeners: map<Id, Owner>,
    arrivals: map<Id, Arrival>,
    apps: map<Tid, Pc>,
    mu: Option<Tid>,
    sharers: set<Tid>,
    schemaMu: Option<Holder>,
    schemaThread: SchemaPc)

  ghost predicate Init(s: State)
  {
    && IsPayloadBound(s.ownBound)
    && s.topics == map[] && s.dds == Dds(map[], map[], map[]) && s.schemaReaders == map[] && s.registry == map[]
    && s.listeners == map[] && s.arrivals == map[]
    && (forall tid | tid in s.apps :: s.apps[tid] == Idle)
    && s.mu == None && s.sharers == {} && s.schemaMu == None && s.schemaThread == Waiting
  }

  function At(s: State, n: Name): Topic { if n in s.topics then s.topics[n] else EMPTY_TOPIC }

  // ----- DDS outcomes, chosen by the environment -----

  datatype BeginChoice = BeginChoice(decodes: bool, schemaTopic: bool, reader: Option<Id>)

  datatype OpenChoice = OpenChoice(deletes: bool, topic: Option<Id>, reader: Option<Id>)

  datatype DeclareChoice = DeclareChoice(deletes: bool, topic: Option<Id>, writer: Option<Id>)

  datatype AnnounceChoice = AnnounceChoice(schemaTopic: bool, writer: bool, write: bool)

  /** A schema announcement as it is taken off the wire. */
  datatype Sample = Sample(valid: bool, decodes: bool, schema: nat, bound: nat)

  // ----- the data topic of a given type -----

  datatype Placed = Placed(topic: Option<Id>, dds: Dds, ok: bool)

  /** A data topic of type `bound`: the existing one, or a new one after the old one is deleted. */
  ghost function PlaceTopic(n: Name, was: Option<Id>, dds: Dds, bound: nat, deletes: bool, spare: Option<Id>): Placed
  {
    if was.Some? && was.value in dds.topics && dds.topics[was.value].bound == bound then Placed(was, dds, true)
    else if was.Some? && (!deletes || InUse(dds, was.value)) then Placed(was, dds, false)
    else
      var rest := if was.Some? then dds.(topics := dds.topics - {was.value}) else dds;
      if spare.None? || spare.value in dds.topics then Placed(None, rest, false)
      else Placed(spare, rest.(topics := rest.topics[spare.value := DataTopic(n, bound)]), true)
  }

  datatype Opened = Opened(topic: Topic, dds: Dds, ok: bool)

  /** `OpenDataReader`: a topic published by this instance keeps its own type. */
  ghost function OpenDataReader(n: Name, t: Topic, dds: Dds, ch: OpenChoice): Opened
    requires t.sub.listener.Some?
  {
    var p := if t.dataTopic.Some? && t.pub.writer.Some? then Placed(t.dataTopic, dds, true)
             else PlaceTopic(n, t.dataTopic, dds, t.sub.bound, ch.deletes, ch.topic);
    var t1 := t.(dataTopic := p.topic);
    if !p.ok || p.topic.None? || ch.reader.None? || ch.reader.value in dds.readers then Opened(t1, p.dds, false)
    else
      Opened(t1.(sub := t1.sub.(dataReader := ch.reader)),
             p.dds.(readers := p.dds.readers[ch.reader.value := DataReader(p.topic.value, t.sub.listener.value)]), true)
  }

  // ----- the steps -----

  datatype Step =
    | Invoke(tid: Tid, call: Call)
    | LockMu(tid: Tid)
    | LockShared(tid: Tid)
    | Unshare(tid: Tid)
    | Begin(tid: Tid, begin: BeginChoice)
    | LockSchema(tid: Tid)
    | Register(tid: Tid, arrival: Id)
    | CountWatch(tid: Tid)
    | Listen(tid: Tid, listener: Id, open: OpenChoice)
    | Take(tid: Tid)
    | Declare(tid: Tid, declare: DeclareChoice)
    | Announce(tid: Tid, announce: AnnounceChoice)
    | Close(tid: Tid)
    | DeleteSchemaReader(tid: Tid)
    | DeleteDataReader(tid: Tid)
    | DropListener(tid: Tid)
    | Wake(active: set<Id>)
    | SchemaLock
    | Receive(reader: Id, sample: Sample, open: OpenChoice)
    | Forget(reader: Id)
    | SchemaUnlock

  function PcOf(s: State, tid: Tid): Pc { if tid in s.apps then s.apps[tid] else Idle }

  function Effective(s: State, bound: nat): nat { if bound == 0 then s.ownBound else bound }

  ghost predicate Enabled(s: State, step: Step)
  {
    match step
    case Invoke(tid, call) =>
      tid in s.apps && s.apps[tid] == Idle && (call.Create? ==> IsPayloadBound(Effective(s, call.bound)))
    case LockMu(tid) => var pc := PcOf(s, tid); pc.WantMu? && !pc.call.Publish? && s.mu == None && s.sharers == {}
    case LockShared(tid) => var pc := PcOf(s, tid); pc.WantMu? && pc.call.Publish? && s.mu == None
    case Unshare(tid) => PcOf(s, tid).Sharing?
    case Begin(tid, ch) =>
      PcOf(s, tid).InMu? && PcOf(s, tid).stage == Start
      && (ch.reader.Some? ==> ch.reader.value !in s.schemaReaders)
    case LockSchema(tid) => PcOf(s, tid).WantSchema? && s.schemaMu == None
    case Register(tid, a) => PcOf(s, tid).InSchema? && PcOf(s, tid).stage.Channel? && a !in s.arrivals
    case CountWatch(tid) => PcOf(s, tid).InMu? && PcOf(s, tid).stage == Count
    case Listen(tid, l, ch) =>
      var pc := PcOf(s, tid);
      pc.InSchema? && pc.call.Subscribe? && pc.stage == Body && l !in s.listeners
    case Take(tid) => var pc := PcOf(s, tid); pc.InSchema? && pc.call.Unsubscribe? && pc.stage == Body
    case Declare(tid, ch) =>
      var pc := PcOf(s, tid);
      pc.InSchema? && pc.call.Create? && pc.stage == Body
      && (ch.writer.Some? ==> ch.writer.value !in s.dds.writers)
    case Announce(tid, _) => var pc := PcOf(s, tid); pc.InMu? && pc.call.Create? && pc.stage == Announcing
    case Close(tid) => PcOf(s, tid).InSchema? && PcOf(s, tid).stage.Closing?
    case DeleteSchemaReader(tid) => PcOf(s, tid).Cleanup? && PcOf(s, tid).schemaReader.Some?
    case DeleteDataReader(tid) =>
      var pc := PcOf(s, tid); pc.Cleanup? && pc.schemaReader.None? && pc.dataReader.Some?
    case DropListener(tid) =>
      var pc := PcOf(s, tid); pc.Cleanup? && pc.schemaReader.None? && pc.dataReader.None?
    case Wake(_) => s.schemaThread == Waiting
    case SchemaLock => s.schemaThread.Wants? && s.schemaMu == None
    case Receive(c, _, _) => s.schemaThread.Serving? && c in s.schemaThread.active && c in s.registry
    case Forget(c) => s.schemaThread.Serving? && c in s.schemaThread.active
    case SchemaUnlock => s.schemaThread == Serving({})
  }

  function Goto(s: State, tid: Tid, pc: Pc): State { s.(apps := s.apps[tid := pc]) }

  function Put(s: State, n: Name, t: Topic): State { s.(topics := s.topics[n := t]) }

  /** The call returns or throws with only `mu` held. */
  function Done(s: State, tid: Tid): State { Goto(s, tid, Idle).(mu := None) }

  ghost function Apply(s: State, step: Step): State
    requires Enabled(s, step)
  {
    match step
    case Invoke(tid, call) => Goto(s, tid, WantMu(call))
    case LockMu(tid) => Goto(s, tid, InMu(s.apps[tid].call, Start)).(mu := Some(tid))
    case LockShared(tid) => Goto(s, tid, Sharing(s.apps[tid].call)).(sharers := s.sharers + {tid})
    case Unshare(tid) => Goto(s, tid, Idle).(sharers := s.sharers - {tid})
    case Begin(tid, ch) => BeginCall(s, tid, s.apps[tid].call, ch)
    case LockSchema(tid) => Goto(s, tid, InSchema(s.apps[tid].call, s.apps[tid].stage)).(schemaMu := Some(App(tid)))
    case Register(tid, a) => RegisterChannel(s, tid, s.apps[tid].call, s.apps[tid].stage.reader, a)
    case CountWatch(tid) =>
      var n := s.apps[tid].call.name;
      var t := At(s, n);
      Done(Put(s, n, t.(sub := t.sub.(watches := t.sub.watches + 1))), tid)
    case Listen(tid, l, ch) => ListenOn(s, tid, s.apps[tid].call, l, ch)
    case Take(tid) => TakeReader(s, tid, s.apps[tid].call)
    case Declare(tid, ch) => DeclareTopic(s, tid, s.apps[tid].call, ch)
    case Announce(tid, ch) => AnnounceSchema(s, tid, s.apps[tid].call, ch)
    case Close(tid) => CloseChannel(s, tid, s.apps[tid].call.name, s.apps[tid].stage)
    case DeleteSchemaReader(tid) =>
      var pc := s.apps[tid];
      Goto(s, tid, pc.(schemaReader := None)).(schemaReaders := s.schemaReaders - {pc.schemaReader.value})
    case DeleteDataReader(tid) =>
      var pc := s.apps[tid];
      Goto(s, tid, pc.(dataReader := None)).(dds := s.dds.(readers := s.dds.readers - {pc.dataReader.value}))
    case DropListener(tid) =>
      var pc := s.apps[tid];
      var kept := if pc.listener.Some? then s.listeners - {pc.listener.value} else s.listeners;
      Goto(s, tid, Idle).(listeners := kept)
    case Wake(active) => s.(schemaThread := Wants(active))
    case SchemaLock => s.(schemaThread := Serving(s.schemaThread.active), schemaMu := Some(SchemaThread))
    case Receive(c, sample, ch) => HandleSample(s, c, sample, ch)
    case Forget(c) => s.(schemaThread := Serving(s.schemaThread.active - {c}))
    case SchemaUnlock => s.(schemaThread := Waiting, schemaMu := None)
  }

  // ----- application threads -----

  /** The part of each call that runs under `mu` alone. */
  ghost function BeginCall(s: State, tid: Tid, call: Call, ch: BeginChoice): State
  {
    var n := call.name;
    var t := At(s, n);
    match call
    case Create(_, _, _, _) => Goto(Put(s, n, t), tid, WantSchema(call, Body))
    case Subscribe(_, _) =>
      if t.sub.listener.Some? then Done(Put(s, n, t), tid) else EnsureChannel(s, tid, call, ch)
    case Unsubscribe(_) => if n !in s.topics then Done(s, tid) else Goto(s, tid, WantSchema(call, Body))
    case SubscribeSchema(_) => EnsureChannel(s, tid, call, ch)
    case UnsubscribeSchema(_) =>
      if t.sub.watches == 0 then Done(s, tid)
      else
        var s1 := Put(s, n, t.(sub := t.sub.(watches := t.sub.watches - 1)));
        if t.sub.watches > 1 || t.sub.listener.Some? then Done(s1, tid)
        else Goto(s1, tid, WantSchema(call, Closing(None, None)))
    case Publish(_) => Done(s, tid)
  }

  /** `EnsureSchemaChannel` up to its critical section. */
  ghost function EnsureChannel(s: State, tid: Tid, call: Call, ch: BeginChoice): State
  {
    var n := call.name;
    var t := At(s, n);
    if Open(t) then AfterChannel(Put(s, n, t), tid, call)
    else if t.pub.schema.Some? then
      if ch.decodes then Goto(Put(s, n, t), tid, WantSchema(call, Channel(None))) else Done(Put(s, n, t), tid)
    else if !t.schemaTopic && !ch.schemaTopic then Done(Put(s, n, t), tid)
    else
      var s1 := Put(s, n, t.(schemaTopic := true));
      if ch.reader.None? then Done(s1, tid)
      else
        Goto(s1, tid, WantSchema(call, Channel(ch.reader)))
          .(schemaReaders := s1.schemaReaders[ch.reader.value := ByThread(tid)])
  }

  function AfterChannel(s: State, tid: Tid, call: Call): State
  {
    Goto(s, tid, if call.Subscribe? then WantSchema(call, Body) else InMu(call, Count))
  }

  /** A topic with a new channel: fed by a reader, or answered at once from its own announcement. */
  function WithChannel(t: Topic, reader: Option<Id>, a: Id): Topic
  {
    match reader
    case None => t.(sub := t.sub.(arrival := Some(a), resolver := false, schema := t.pub.schema, bound := t.pub.bound))
    case Some(c) => t.(sub := t.sub.(schemaReader := Some(c), arrival := Some(a), resolver := true))
  }

  function FirstOutcome(t: Topic, reader: Option<Id>): Outcome
  {
    if reader.Some? then Pending else if t.pub.schema.Some? then Arrived(t.pub.schema.value) else Failed
  }

  /** The critical section of `EnsureSchemaChannel`. */
  ghost function RegisterChannel(s: State, tid: Tid, call: Call, reader: Option<Id>, a: Id): State
  {
    var n := call.name;
    var t := At(s, n);
    var s1 := Put(s, n, WithChannel(t, reader, a))
                .(arrivals := s.arrivals[a := Arrival(n, FirstOutcome(t, reader))],
                  registry := if reader.Some? then s.registry[reader.value := n] else s.registry,
                  schemaReaders := if reader.Some? then s.schemaReaders[reader.value := ByTopic(n)] else s.schemaReaders);
    AfterChannel(s1, tid, call).(schemaMu := None)
  }

  /** The critical section of `SubscribeWithOptions`. */
  ghost function ListenOn(s: State, tid: Tid, call: Call, l: Id, ch: OpenChoice): State
    requires call.Subscribe?
  {
    var n := call.name;
    var t := At(s, n);
    var t1 := t.(sub := t.sub.(listener := Some(l), profile := call.profile));
    if t.sub.schema.None? then
      Done(Put(s, n, t1), tid).(schemaMu := None, listeners := s.listeners[l := ByTopic(n)])
    else
      var o := OpenDataReader(n, t1, s.dds, ch);
      if o.ok then
        Done(Put(s, n, o.topic), tid).(schemaMu := None, dds := o.dds, listeners := s.listeners[l := ByTopic(n)])
      else
        var s1 := Put(s, n, o.topic.(sub := o.topic.sub.(listener := None))).(schemaMu := None, dds := o.dds);
        if t.sub.watches == 0 then Goto(s1, tid, WantSchema(call, Closing(None, None))) else Done(s1, tid)
  }

  /** The critical section of `Unsubscribe`. */
  ghost function TakeReader(s: State, tid: Tid, call: Call): State
  {
    var n := call.name;
    var t := At(s, n);
    var d, l := t.sub.dataReader, t.sub.listener;
    var s1 := Put(s, n, t.(sub := t.sub.(dataReader := None, listener := None, profile := 0)))
                .(schemaMu := None, listeners := if l.Some? then s.listeners[l.value := ByThread(tid)] else s.listeners);
    if t.sub.watches == 0 then Goto(s1, tid, WantSchema(call, Closing(d, l)))
    else Done(s1, tid).(apps := s1.apps[tid := Cleanup(None, d, l)])
  }

  /** `CloseSchemaSide`: dropping a pending resolver ends its arrival. */
  ghost function CloseChannel(s: State, tid: Tid, n: Name, stage: Stage): State
    requires stage.Closing?
  {
    var t := At(s, n);
    var c := t.sub.schemaReader;
    Put(s, n, t.(sub := t.sub.(schemaReader := None, schema := None, bound := 0, resolver := false)))
      .(registry := if c.Some? then s.registry - {c.value} else s.registry,
        arrivals := Settle(s.arrivals, t, Ended),
        schemaReaders := if c.Some? then s.schemaReaders[c.value := ByThread(tid)] else s.schemaReaders,
        apps := s.apps[tid := Cleanup(c, stage.dataReader, stage.listener)],
        mu := None, schemaMu := None)
  }

  /** Settles the arrival of `t` if its resolver is still valid. */
  function Settle(arrivals: map<Id, Arrival>, t: Topic, outcome: Outcome): map<Id, Arrival>
  {
    if t.sub.resolver && t.sub.arrival.Some? && t.sub.arrival.value in arrivals then
      arrivals[t.sub.arrival.value := arrivals[t.sub.arrival.value].(outcome := outcome)]
    else arrivals
  }

  /** A re-declaration that names another bound or profile. */
  predicate Conflicts(t: Topic, call: Call)
    requires call.Create?
  {
    (call.bound != 0 && call.bound != t.pub.bound) || (call.profile != 0 && call.profile != t.pub.profile)
  }

  /** A live subscription holds the data topic at another bound. */
  predicate HeldElsewhere(s: State, t: Topic, bound: nat)
  {
    && t.dataTopic.Some? && t.dataTopic.value in s.dds.topics && s.dds.topics[t.dataTopic.value].bound != bound
    && t.sub.listener.Some?
  }

  /** The critical section of `CreateTopicWithOptions`. */
  ghost function DeclareTopic(s: State, tid: Tid, call: Call, ch: DeclareChoice): State
    requires call.Create?
  {
    var n := call.name;
    var t := At(s, n);
    var own := Effective(s, call.bound);
    if t.pub.writer.Some? then
      if Conflicts(t, call) then Done(s, tid).(schemaMu := None)
      else Goto(s, tid, InMu(call, Announcing)).(schemaMu := None)
    else if HeldElsewhere(s, t, own) then Done(s, tid).(schemaMu := None)
    else
      var p := PlaceTopic(n, t.dataTopic, s.dds, own, ch.deletes, ch.topic);
      var t1 := t.(dataTopic := p.topic);
      if !p.ok || p.topic.None? || ch.writer.None? then Done(Put(s, n, t1), tid).(schemaMu := None, dds := p.dds)
      else
        Goto(Put(s, n, t1.(pub := t1.pub.(writer := ch.writer, bound := own, profile := call.profile))), tid,
             InMu(call, Announcing))
          .(schemaMu := None, dds := p.dds.(writers := p.dds.writers[ch.writer.value := p.topic.value]))
  }

  /** The announcement, under `mu`: recorded only once the write has succeeded. */
  ghost function AnnounceSchema(s: State, tid: Tid, call: Call, ch: AnnounceChoice): State
    requires call.Create?
  {
    var n := call.name;
    var t := At(s, n);
    if call.schema.None? || t.pub.schemaWriter || (!t.schemaTopic && !ch.schemaTopic) then Done(s, tid)
    else
      var t1 := t.(schemaTopic := true);
      if !ch.writer || !ch.write then Done(Put(s, n, t1), tid)
      else Done(Put(s, n, t1.(pub := t1.pub.(schemaWriter := true, schema := call.schema))), tid)
  }

  // ----- the schema thread -----

  /** One turn of the loop in `HandleSchema`. */
  ghost function HandleSample(s: State, c: Id, sample: Sample, ch: OpenChoice): State
    requires c in s.registry && s.schemaThread.Serving?
  {
    var n := s.registry[c];
    var t := At(s, n);
    if !sample.valid || t.sub.schema.Some? then s
    else if !sample.decodes || !IsPayloadBound(sample.bound) then
      Put(s, n, t.(sub := t.sub.(resolver := false)))
        .(arrivals := Settle(s.arrivals, t, Failed), schemaThread := Serving(s.schemaThread.active - {c}))
    else
      var t1 := t.(sub := t.sub.(schema := Some(sample.schema), bound := sample.bound));
      if t.sub.listener.Some? && t.sub.dataReader.None? then
        var o := OpenDataReader(n, t1, s.dds, ch);
        Put(s, n, o.topic.(sub := o.topic.sub.(resolver := false)))
          .(dds := o.dds, arrivals := Settle(s.arrivals, t, if o.ok then Arrived(sample.schema) else Failed))
      else
        Put(s, n, t1.(sub := t1.sub.(resolver := false)))
          .(arrivals := Settle(s.arrivals, t, Arrived(sample.schema)))
  }

  ghost predicate Next(s: State, s': State)
  {
    exists step :: Enabled(s, step) && s' == Apply(s, step)
  }

  /** A run from an initial state. */
  ghost predicate Run(run: seq<State>)
  {
    && run != [] && Init(run[0])
    && forall i | 0 <= i < |run| - 1 :: Next(run[i], run[i + 1])
  }
}
