/** What every step of the provider keeps.  Each part of the invariant names the tables it reads. */
module ProviderInv {
  import opened RowReader
  import opened Provider

  type Topics = map<Name, Topic>
  type Apps = map<Tid, Pc>

  // ----- what one topic's state means -----

  /** A data topic entity belongs to the topic of its name; a writer and a reader sit on it. */
  ghost predicate DataSideOk(n: Name, t: Topic, dds: Dds)
  {
    && (t.dataTopic.Some? ==> t.dataTopic.value in dds.topics && dds.topics[t.dataTopic.value].name == n)
    && (t.pub.writer.Some? ==>
          && t.dataTopic.Some? && dds.topics[t.dataTopic.value].bound == t.pub.bound
          && t.pub.writer.value in dds.writers && dds.writers[t.pub.writer.value] == t.dataTopic.value)
    && (t.sub.dataReader.Some? ==>
          && t.dataTopic.Some? && t.sub.listener.Some? && t.sub.schema.Some?
          && t.sub.dataReader.value in dds.readers
          && dds.readers[t.sub.dataReader.value] == DataReader(t.dataTopic.value, t.sub.listener.value)
          && (t.pub.writer.None? ==> dds.topics[t.dataTopic.value].bound == t.sub.bound))
    && (t.pub.schemaWriter <==> t.pub.schema.Some?)
  }

  /** An open channel's resolver is valid exactly while its arrival is pending, and an arrival that
      succeeded carries the schema the channel knows, and means that a live data subscription has its
      reader open. */
  ghost predicate ChannelOk(n: Name, t: Topic, arrivals: map<Id, Arrival>)
  {
    && (!Open(t) ==> !t.sub.resolver && t.sub.listener.None? && t.sub.watches == 0)
    && (Open(t) ==>
          && t.sub.arrival.Some? && t.sub.arrival.value in arrivals && arrivals[t.sub.arrival.value].name == n
          && var o := arrivals[t.sub.arrival.value].outcome;
             && (t.sub.resolver <==> o == Pending)
             && (o.Arrived? ==> t.sub.schema == Some(o.schema) && (t.sub.listener.Some? ==> t.sub.dataReader.Some?)))
  }

  ghost predicate DataSidesOk(topics: Topics, dds: Dds)
  {
    forall n | n in topics :: DataSideOk(n, topics[n], dds)
  }

  ghost predicate ChannelsOk(topics: Topics, arrivals: map<Id, Arrival>)
  {
    forall n | n in topics :: ChannelOk(n, topics[n], arrivals)
  }

  /** A pending arrival has a valid resolver in its topic. */
  ghost predicate ArrivalsOk(topics: Topics, arrivals: map<Id, Arrival>)
  {
    forall a | a in arrivals && arrivals[a].outcome == Pending ::
      var n := arrivals[a].name;
      n in topics && topics[n].sub.arrival == Some(a) && topics[n].sub.resolver
  }

  // ----- schema readers -----

  /** The registry holds exactly the topics' schema readers. */
  ghost predicate RegistryOk(topics: Topics, registry: map<Id, Name>)
  {
    && (forall c | c in registry :: registry[c] in topics && topics[registry[c]].sub.schemaReader == Some(c))
    && (forall n | n in topics && topics[n].sub.schemaReader.Some? ::
          topics[n].sub.schemaReader.value in registry && registry[topics[n].sub.schemaReader.value] == n)
  }

  /** The schema reader in a thread's locals. */
  function CarriedSchema(pc: Pc): Option<Id>
  {
    match pc
    case WantSchema(_, Channel(r)) => r
    case InSchema(_, Channel(r)) => r
    case Cleanup(c, _, _) => c
    case _ => None
  }

  /** A registered schema reader is alive and belongs to its topic; one in a thread's locals is alive
      and belongs to the thread. */
  ghost predicate SchemaReadersOk(registry: map<Id, Name>, schemaReaders: map<Id, Owner>, apps: Apps)
  {
    && (forall c | c in registry :: c in schemaReaders && schemaReaders[c] == ByTopic(registry[c]))
    && (forall tid | tid in apps && CarriedSchema(apps[tid]).Some? ::
          && CarriedSchema(apps[tid]).value in schemaReaders
          && schemaReaders[CarriedSchema(apps[tid]).value] == ByThread(tid))
  }

  // ----- data readers and listeners -----

  /** The data reader and listener in a thread's locals. */
  function CarriedReader(pc: Pc): Option<Id>
  {
    match pc
    case WantSchema(_, Closing(d, _)) => d
    case InSchema(_, Closing(d, _)) => d
    case Cleanup(_, d, _) => d
    case _ => None
  }

  function CarriedListener(pc: Pc): Option<Id>
  {
    match pc
    case WantSchema(_, Closing(_, l)) => l
    case InSchema(_, Closing(_, l)) => l
    case Cleanup(_, _, l) => l
    case _ => None
  }

  /** Every live data reader sits on a live topic and has a live listener, kept by whoever keeps the
      reader. */
  ghost predicate ReadersOk(topics: Topics, dds: Dds, listeners: map<Id, Owner>, apps: Apps)
  {
    forall d | d in dds.readers :: ReaderOk(d, dds.readers[d], topics, dds.topics, listeners, apps)
  }

  ghost predicate ReaderOk(d: Id, r: DataReader, topics: Topics, entities: map<Id, DataTopic>, listeners: map<Id, Owner>,
                           apps: Apps)
  {
    && r.topic in entities && r.listener in listeners
    && match listeners[r.listener]
       case ByTopic(n) => n in topics && topics[n].sub.dataReader == Some(d)
       case ByThread(tid) => tid in apps && CarriedReader(apps[tid]) == Some(d)
  }

  /** Every live listener is kept by the topic or thread that names it, and by no other. */
  ghost predicate ListenersOk(topics: Topics, dds: Dds, listeners: map<Id, Owner>, apps: Apps)
  {
    && (forall n | n in topics && topics[n].sub.listener.Some? ::
          topics[n].sub.listener.value in listeners && listeners[topics[n].sub.listener.value] == ByTopic(n))
    && (forall tid | tid in apps && CarriedListener(apps[tid]).Some? ::
          CarriedListener(apps[tid]).value in listeners && listeners[CarriedListener(apps[tid]).value] == ByThread(tid))
    && (forall tid | tid in apps && CarriedReader(apps[tid]).Some? ::
          && CarriedListener(apps[tid]).Some? && CarriedReader(apps[tid]).value in dds.readers
          && dds.readers[CarriedReader(apps[tid]).value].listener == CarriedListener(apps[tid]).value)
  }

  // ----- threads and locks -----

  /** What a call relies on from one stage to the next, its topic being guarded by `mu`. */
  ghost predicate StageOk(topics: Topics, pc: Pc)
  {
    pc.WantSchema? || pc.InSchema? || pc.InMu? ==>
      var n := pc.call.name;
      match pc.stage
      case Start => !pc.call.Publish?
      case Channel(r) =>
        && (pc.call.Subscribe? || pc.call.SubscribeSchema?)
        && n in topics && !Open(topics[n]) && (r.None? ==> topics[n].pub.schema.Some?)
      case Body =>
        && (pc.call.Create? || pc.call.Subscribe? || pc.call.Unsubscribe?)
        && n in topics && (pc.call.Subscribe? ==> Open(topics[n]) && topics[n].sub.listener.None?)
      case Count => pc.call.SubscribeSchema? && n in topics && Open(topics[n])
      case Announcing => pc.call.Create? && n in topics
      case Closing(_, _) => n in topics && topics[n].sub.listener.None? && topics[n].sub.watches == 0
  }

  /** Only the holder of `mu` is inside a call. */
  ghost predicate StagesOk(topics: Topics, apps: Apps)
  {
    forall tid | tid in apps :: StageOk(topics, apps[tid])
  }

  predicate HoldsMu(pc: Pc) { pc.InMu? || pc.WantSchema? || pc.InSchema? }

  /** Which lock a stage needs. */
  predicate PcOk(pc: Pc)
  {
    && (pc.InMu? ==> pc.stage.Start? || pc.stage.Count? || pc.stage.Announcing?)
    && (pc.WantSchema? || pc.InSchema? ==> pc.stage.Channel? || pc.stage.Body? || pc.stage.Closing?)
  }

  /** Each lock is held by the thread whose position says so. */
  ghost predicate LocksOk(apps: Apps, mu: Option<Tid>, sharers: set<Tid>, schemaMu: Option<Holder>, thread: SchemaPc)
  {
    && (forall tid | tid in apps ::
          && PcOk(apps[tid])
          && (HoldsMu(apps[tid]) <==> mu == Some(tid))
          && (apps[tid].InSchema? <==> schemaMu == Some(App(tid)))
          && (apps[tid].Sharing? <==> tid in sharers))
    && (mu.Some? ==> mu.value in apps && sharers == {})
    && sharers <= apps.Keys
    && (schemaMu.Some? && schemaMu.value.App? ==> schemaMu.value.tid in apps)
    && (schemaMu == Some(SchemaThread) <==> thread.Serving?)
  }

  /** A call in the middle of changing who uses a topic's channel. */
  ghost predicate Changing(apps: Apps, mu: Option<Tid>, n: Name)
  {
    && mu.Some? && mu.value in apps
    && var pc := apps[mu.value];
       && HoldsMu(pc) && pc.call.name == n
       && (pc.stage.Closing? || pc.stage.Count? || (pc.stage.Body? && pc.call.Subscribe?))
  }

  /** The channel is open only for somebody. */
  ghost predicate UsersOk(topics: Topics, apps: Apps, mu: Option<Tid>)
  {
    forall n | n in topics && Open(topics[n]) ::
      topics[n].sub.watches > 0 || topics[n].sub.listener.Some? || Changing(apps, mu, n)
  }

  ghost predicate Inv(s: State)
  {
    && IsPayloadBound(s.ownBound)
    && DataSidesOk(s.topics, s.dds)
    && ChannelsOk(s.topics, s.arrivals) && ArrivalsOk(s.topics, s.arrivals)
    && RegistryOk(s.topics, s.registry) && SchemaReadersOk(s.registry, s.schemaReaders, s.apps)
    && ReadersOk(s.topics, s.dds, s.listeners, s.apps) && ListenersOk(s.topics, s.dds, s.listeners, s.apps)
    && StagesOk(s.topics, s.apps) && LocksOk(s.apps, s.mu, s.sharers, s.schemaMu, s.schemaThread)
    && UsersOk(s.topics, s.apps, s.mu)
  }

  lemma InitInv(s: State)
    requires Init(s)
    ensures Inv(s)
  {
  }
}
