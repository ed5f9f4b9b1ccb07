/** Every step of the provider keeps its invariant. */
module ProviderSteps {
  import opened RowReader
  import opened Provider
  import opened ProviderInv

  // ----- a thread that moves on -----

  ghost predicate SameLocals(pc: Pc, pc': Pc)
  {
    CarriedSchema(pc) == CarriedSchema(pc') && CarriedReader(pc) == CarriedReader(pc') && CarriedListener(pc) == CarriedListener(pc')
  }

  /** A thread whose locals stay the same. */
  lemma MovedReaders(topics: Topics, s: State, apps: Apps, tid: Tid, pc: Pc)
    requires tid in apps && SameLocals(apps[tid], pc) && SchemaReadersOk(s.registry, s.schemaReaders, apps)
    requires ReadersOk(topics, s.dds, s.listeners, apps) && ListenersOk(topics, s.dds, s.listeners, apps)
    ensures var apps' := apps[tid := pc];
            && SchemaReadersOk(s.registry, s.schemaReaders, apps')
            && ReadersOk(topics, s.dds, s.listeners, apps') && ListenersOk(topics, s.dds, s.listeners, apps')
  {
    hide CarriedSchema, CarriedReader, CarriedListener;
    MovedData(topics, s.dds, s.listeners, apps, tid, pc);
  }

  lemma MovedData(topics: Topics, dds: Dds, listeners: map<Id, Owner>, apps: Apps, tid: Tid, pc: Pc)
    requires tid in apps && CarriedReader(apps[tid]) == CarriedReader(pc) && CarriedListener(apps[tid]) == CarriedListener(pc)
    requires ReadersOk(topics, dds, listeners, apps) && ListenersOk(topics, dds, listeners, apps)
    ensures ReadersOk(topics, dds, listeners, apps[tid := pc]) && ListenersOk(topics, dds, listeners, apps[tid := pc])
  {
    hide CarriedReader, CarriedListener;
  }

  /** The holder of `mu` lets go of every lock it holds. */
  lemma LocksLeave(apps: Apps, tid: Tid, pc: Pc, sharers: set<Tid>, schemaMu: Option<Holder>, thread: SchemaPc)
    requires LocksOk(apps, Some(tid), sharers, schemaMu, thread) && !HoldsMu(pc) && !pc.Sharing?
    ensures tid in apps
    ensures LocksOk(apps[tid := pc], None, sharers, if apps[tid].InSchema? then None else schemaMu, thread)
  {
  }

  /** The holder of `mu` keeps it and is not inside `schema_mu` afterwards. */
  lemma LocksStay(apps: Apps, tid: Tid, pc: Pc, sharers: set<Tid>, schemaMu: Option<Holder>, thread: SchemaPc)
    requires LocksOk(apps, Some(tid), sharers, schemaMu, thread) && HoldsMu(pc) && !pc.InSchema? && PcOk(pc)
    ensures tid in apps
    ensures LocksOk(apps[tid := pc], Some(tid), sharers, if apps[tid].InSchema? then None else schemaMu, thread)
  {
  }

  /** Only the holder of `mu` relies on its topic. */
  lemma StagesAfter(topics: Topics, apps: Apps, tid: Tid, pc: Pc, sharers: set<Tid>, schemaMu: Option<Holder>, thread: SchemaPc)
    requires LocksOk(apps, Some(tid), sharers, schemaMu, thread) && StageOk(topics, pc)
    ensures StagesOk(topics, apps[tid := pc])
  {
  }

  /** A call changes the users of its own topic only. */
  lemma UsersAfter(topics: Topics, apps: Apps, tid: Tid, t: Topic, pc: Pc, mu: Option<Tid>)
    requires UsersOk(topics, apps, Some(tid)) && tid in apps && HoldsMu(apps[tid])
    requires var n := apps[tid].call.name;
             Open(t) ==> t.sub.watches > 0 || t.sub.listener.Some? || Changing(apps[tid := pc], mu, n)
    ensures UsersOk(topics[apps[tid].call.name := t], apps[tid := pc], mu)
  {
    hide Open;
  }

  // ----- a topic whose handles stay -----

  ghost predicate SameHandles(t: Topic, t': Topic)
  {
    && t.sub.schemaReader == t'.sub.schemaReader && t.sub.dataReader == t'.sub.dataReader && t.sub.listener == t'.sub.listener
    && t.sub.arrival == t'.sub.arrival && t.sub.resolver == t'.sub.resolver
  }

  function Look(topics: Topics, n: Name): Topic { if n in topics then topics[n] else EMPTY_TOPIC }

  /** The tables that only follow handles do not notice. */
  lemma Touched(topics: Topics, n: Name, t: Topic, s: State)
    requires SameHandles(Look(topics, n), t)
    requires RegistryOk(topics, s.registry) && ArrivalsOk(topics, s.arrivals)
    requires ReadersOk(topics, s.dds, s.listeners, s.apps) && ListenersOk(topics, s.dds, s.listeners, s.apps)
    ensures var topics' := topics[n := t];
            && RegistryOk(topics', s.registry) && ArrivalsOk(topics', s.arrivals)
            && ReadersOk(topics', s.dds, s.listeners, s.apps) && ListenersOk(topics', s.dds, s.listeners, s.apps)
  {
    hide ReadersOk, ListenersOk;
    TouchedData(topics, n, t, s);
  }

  lemma TouchedData(topics: Topics, n: Name, t: Topic, s: State)
    requires Look(topics, n).sub.dataReader == t.sub.dataReader && Look(topics, n).sub.listener == t.sub.listener
    requires ReadersOk(topics, s.dds, s.listeners, s.apps) && ListenersOk(topics, s.dds, s.listeners, s.apps)
    ensures var topics' := topics[n := t];
            ReadersOk(topics', s.dds, s.listeners, s.apps) && ListenersOk(topics', s.dds, s.listeners, s.apps)
  {
    hide CarriedReader, CarriedListener;
  }

  lemma OneDataSide(topics: Topics, n: Name, t: Topic, dds: Dds)
    requires DataSidesOk(topics, dds) && DataSideOk(n, t, dds)
    ensures DataSidesOk(topics[n := t], dds)
  {
    hide DataSideOk;
  }

  lemma OneChannel(topics: Topics, n: Name, t: Topic, arrivals: map<Id, Arrival>)
    requires ChannelsOk(topics, arrivals) && ChannelOk(n, t, arrivals)
    ensures ChannelsOk(topics[n := t], arrivals)
  {
    hide ChannelOk;
  }

  /** A step of the call that holds `mu`: its topic keeps its handles, the shared tables stay, and the
      call goes on or returns. */
  ghost predicate Moves(s: State, s': State, tid: Tid, t: Topic, pc: Pc, leaves: bool)
    requires tid in s.apps && HoldsMu(s.apps[tid])
  {
    && s'.ownBound == s.ownBound && s'.topics == s.topics[s.apps[tid].call.name := t]
    && s'.dds == s.dds && s'.schemaReaders == s.schemaReaders && s'.registry == s.registry && s'.listeners == s.listeners && s'.arrivals == s.arrivals
    && s'.apps == s.apps[tid := pc] && s'.sharers == s.sharers && s'.schemaThread == s.schemaThread
    && s'.mu == (if leaves then None else s.mu)
    && s'.schemaMu == if s.apps[tid].InSchema? then None else s.schemaMu
  }

  lemma MovesKeeps(s: State, s': State, tid: Tid, t: Topic, pc: Pc, leaves: bool)
    requires Inv(s) && s.mu == Some(tid) && tid in s.apps && HoldsMu(s.apps[tid]) && Moves(s, s', tid, t, pc, leaves)
    requires var n := s.apps[tid].call.name;
             && SameHandles(Look(s.topics, n), t) && DataSideOk(n, t, s.dds) && ChannelOk(n, t, s.arrivals)
             && (Open(t) ==> t.sub.watches > 0 || t.sub.listener.Some? || Changing(s'.apps, s'.mu, n))
    requires SameLocals(s.apps[tid], pc) && StageOk(s'.topics, pc)
    requires if leaves then !HoldsMu(pc) && !pc.Sharing? else HoldsMu(pc) && !pc.InSchema? && PcOk(pc)
    ensures Inv(s')
  {
    hide DataSidesOk, ChannelsOk, ArrivalsOk, RegistryOk, SchemaReadersOk, ReadersOk, ListenersOk, StagesOk, LocksOk, UsersOk,
      StageOk, DataSideOk, ChannelOk, SameHandles, SameLocals, Changing, Open;
    var n := s.apps[tid].call.name;
    Touched(s.topics, n, t, s);
    OneDataSide(s.topics, n, t, s.dds);
    OneChannel(s.topics, n, t, s.arrivals);
    MovedReaders(s'.topics, s, s.apps, tid, pc);
    StagesAfter(s'.topics, s.apps, tid, pc, s.sharers, s.schemaMu, s.schemaThread);
    UsersAfter(s.topics, s.apps, tid, t, pc, s'.mu);
    if leaves {
      LocksLeave(s.apps, tid, pc, s.sharers, s.schemaMu, s.schemaThread);
    } else {
      LocksStay(s.apps, tid, pc, s.sharers, s.schemaMu, s.schemaThread);
    }
  }

  // ----- steps that only take or release a lock -----

  lemma InvokeKeeps(s: State, tid: Tid, call: Call)
    requires Inv(s) && tid in s.apps && s.apps[tid] == Idle
    ensures Inv(Goto(s, tid, WantMu(call)))
  {
    hide DataSidesOk, ChannelsOk, ArrivalsOk, RegistryOk, SchemaReadersOk, ReadersOk, ListenersOk;
    MovedReaders(s.topics, s, s.apps, tid, WantMu(call));
  }

  lemma LockMuKeeps(s: State, tid: Tid)
    requires Inv(s) && tid in s.apps && s.apps[tid].WantMu? && !s.apps[tid].call.Publish? && s.mu == None && s.sharers == {}
    ensures Inv(Goto(s, tid, InMu(s.apps[tid].call, Start)).(mu := Some(tid)))
  {
    hide DataSidesOk, ChannelsOk, ArrivalsOk, RegistryOk, SchemaReadersOk, ReadersOk, ListenersOk;
    MovedReaders(s.topics, s, s.apps, tid, InMu(s.apps[tid].call, Start));
  }

  lemma ShareKeeps(s: State, tid: Tid)
    requires Inv(s) && tid in s.apps && s.apps[tid].WantMu? && s.mu == None
    ensures Inv(Goto(s, tid, Sharing(s.apps[tid].call)).(sharers := s.sharers + {tid}))
  {
    hide DataSidesOk, ChannelsOk, ArrivalsOk, RegistryOk, SchemaReadersOk, ReadersOk, ListenersOk;
    MovedReaders(s.topics, s, s.apps, tid, Sharing(s.apps[tid].call));
  }

  lemma UnshareKeeps(s: State, tid: Tid)
    requires Inv(s) && tid in s.apps && s.apps[tid].Sharing?
    ensures Inv(Goto(s, tid, Idle).(sharers := s.sharers - {tid}))
  {
    hide DataSidesOk, ChannelsOk, ArrivalsOk, RegistryOk, SchemaReadersOk, ReadersOk, ListenersOk;
    MovedReaders(s.topics, s, s.apps, tid, Idle);
  }

  lemma LockSchemaKeeps(s: State, tid: Tid)
    requires Inv(s) && tid in s.apps && s.apps[tid].WantSchema? && s.schemaMu == None
    ensures Inv(Goto(s, tid, InSchema(s.apps[tid].call, s.apps[tid].stage)).(schemaMu := Some(App(tid))))
  {
    hide DataSidesOk, ChannelsOk, ArrivalsOk, RegistryOk, SchemaReadersOk, ReadersOk, ListenersOk;
    MovedReaders(s.topics, s, s.apps, tid, InSchema(s.apps[tid].call, s.apps[tid].stage));
  }

  // ----- calls under `mu` alone -----

  lemma EmptyIsOk(n: Name, s: State)
    ensures DataSideOk(n, EMPTY_TOPIC, s.dds) && ChannelOk(n, EMPTY_TOPIC, s.arrivals)
  {
  }

  lemma CountKeeps(s: State, tid: Tid)
    requires Inv(s) && tid in s.apps && s.apps[tid].InMu? && s.apps[tid].stage == Count
    ensures Inv(Apply(s, CountWatch(tid)))
  {
    hide ArrivalsOk, RegistryOk, SchemaReadersOk, ReadersOk, ListenersOk, UsersOk, DataSideOk;
    var n := s.apps[tid].call.name;
    var t := s.topics[n];
    var t' := t.(sub := t.sub.(watches := t.sub.watches + 1));
    assert DataSideOk(n, t', s.dds) by { SameDataSide(n, t, t', s.dds); }
    MovesKeeps(s, Apply(s, CountWatch(tid)), tid, t', Idle, true);
  }

  /** What the data side does not read. */
  lemma SameDataSide(n: Name, t: Topic, t': Topic, dds: Dds)
    requires DataSideOk(n, t, dds)
    requires t'.dataTopic == t.dataTopic && t'.pub == t.pub && t'.sub.dataReader == t.sub.dataReader
    requires t'.sub.listener == t.sub.listener && t'.sub.bound == t.sub.bound && t'.sub.schema == t.sub.schema
    ensures DataSideOk(n, t', dds)
  {
  }

  /** A call that returns without having changed its topic. */
  lemma DoneKeeps(s: State, tid: Tid)
    requires Inv(s) && s.mu == Some(tid) && tid in s.apps && SameLocals(s.apps[tid], Idle)
    requires forall n | n in s.topics :: !Changing(s.apps, s.mu, n)
    ensures Inv(Done(s, tid).(schemaMu := if s.apps[tid].InSchema? then None else s.schemaMu))
  {
    hide DataSidesOk, ChannelsOk, ArrivalsOk, RegistryOk, SchemaReadersOk, ReadersOk, ListenersOk, StagesOk, LocksOk, Changing, Open;
    MovedReaders(s.topics, s, s.apps, tid, Idle);
    StagesAfter(s.topics, s.apps, tid, Idle, s.sharers, s.schemaMu, s.schemaThread);
    LocksLeave(s.apps, tid, Idle, s.sharers, s.schemaMu, s.schemaThread);
  }

  lemma TopicIsOk(s: State, n: Name)
    requires Inv(s)
    ensures DataSideOk(n, At(s, n), s.dds) && ChannelOk(n, At(s, n), s.arrivals)
    ensures At(s, n) == Look(s.topics, n)
    ensures Open(At(s, n)) ==> At(s, n).sub.watches > 0 || At(s, n).sub.listener.Some? || Changing(s.apps, s.mu, n)
  {
    hide DataSideOk, ChannelOk, Changing;
    EmptyIsOk(n, s);
  }

  /** The holder of `mu` at its start: it has changed nothing yet. */
  ghost predicate AtStart(s: State, tid: Tid, call: Call)
  {
    Inv(s) && s.mu == Some(tid) && tid in s.apps && s.apps[tid] == InMu(call, Start)
  }

  lemma StartIsQuiet(s: State, tid: Tid, call: Call)
    requires AtStart(s, tid, call)
    ensures !call.Publish? && forall n :: !Changing(s.apps, s.mu, n)
  {
    hide DataSidesOk, ChannelsOk, ArrivalsOk, RegistryOk, SchemaReadersOk, ReadersOk, ListenersOk, LocksOk;
  }

  /** A call that leaves its topic as it was, apart from entering it in the map. */
  lemma SameTopicKeeps(s: State, tid: Tid, call: Call, pc: Pc, leaves: bool)
    requires AtStart(s, tid, call) && StageOk(s.topics[call.name := At(s, call.name)], pc)
    requires CarriedSchema(pc) == None && CarriedReader(pc) == None && CarriedListener(pc) == None
    requires if leaves then pc == Idle else HoldsMu(pc) && !pc.InSchema? && PcOk(pc)
    ensures Inv(Goto(Put(s, call.name, At(s, call.name)), tid, pc).(mu := if leaves then None else s.mu))
  {
    hide StageOk, DataSideOk, ChannelOk, Inv, Changing;
    StartIsQuiet(s, tid, call);
    TopicIsOk(s, call.name);
    MovesKeeps(s, Goto(Put(s, call.name, At(s, call.name)), tid, pc).(mu := if leaves then None else s.mu), tid,
               At(s, call.name), pc, leaves);
  }

  lemma EnsureKeeps(s: State, tid: Tid, call: Call, ch: BeginChoice)
    requires AtStart(s, tid, call) && (call.SubscribeSchema? || (call.Subscribe? && At(s, call.name).sub.listener.None?))
    requires ch.reader.Some? ==> ch.reader.value !in s.schemaReaders
    ensures Inv(EnsureChannel(s, tid, call, ch))
  {
    hide Inv;
    var n, t := call.name, At(s, call.name);
    if Open(t) {
      SameTopicKeeps(s, tid, call, if call.Subscribe? then WantSchema(call, Body) else InMu(call, Count), false);
    } else if t.pub.schema.Some? {
      if ch.decodes { SameTopicKeeps(s, tid, call, WantSchema(call, Channel(None)), false); }
      else { SameTopicKeeps(s, tid, call, Idle, true); }
    } else if !t.schemaTopic && !ch.schemaTopic {
      SameTopicKeeps(s, tid, call, Idle, true);
    } else {
      SchemaTopicKeeps(s, tid, call, ch.reader);
    }
  }

  /** The schema topic exists; its reader is created and held by the thread, or could not be. */
  lemma SchemaTopicKeeps(s: State, tid: Tid, call: Call, reader: Option<Id>)
    requires AtStart(s, tid, call) && (call.SubscribeSchema? || call.Subscribe?)
    requires !Open(At(s, call.name)) && (reader.Some? ==> reader.value !in s.schemaReaders)
    ensures var n, t := call.name, At(s, call.name);
            var s1 := Put(s, n, t.(schemaTopic := true));
            Inv(if reader.None? then Done(s1, tid)
                else Goto(s1, tid, WantSchema(call, Channel(reader)))
                       .(schemaReaders := s1.schemaReaders[reader.value := ByThread(tid)]))
  {
    hide Inv, DataSideOk, ChannelOk, Changing;
    var n, t := call.name, At(s, call.name);
    var t' := t.(schemaTopic := true);
    StartIsQuiet(s, tid, call);
    TopicIsOk(s, n);
    SameDataSide(n, t, t', s.dds);
    SameChannel(n, t, t', s.arrivals);
    if reader.None? {
      MovesKeeps(s, Done(Put(s, n, t'), tid), tid, t', Idle, true);
    } else {
      HeldReaderKeeps(s, tid, call, t', reader.value);
    }
  }

  lemma SameChannel(n: Name, t: Topic, t': Topic, arrivals: map<Id, Arrival>)
    requires ChannelOk(n, t, arrivals) && t'.sub == t.sub
    ensures ChannelOk(n, t', arrivals)
  {
  }

  lemma HeldReaderKeeps(s: State, tid: Tid, call: Call, t: Topic, c: Id)
    requires AtStart(s, tid, call) && (call.SubscribeSchema? || call.Subscribe?) && c !in s.schemaReaders
    requires var n := call.name;
             && SameHandles(Look(s.topics, n), t) && DataSideOk(n, t, s.dds) && ChannelOk(n, t, s.arrivals) && !Open(t)
    ensures Inv(Goto(Put(s, call.name, t), tid, WantSchema(call, Channel(Some(c))))
                  .(schemaReaders := s.schemaReaders[c := ByThread(tid)]))
  {
    var n, pc := call.name, WantSchema(call, Channel(Some(c)));
    var topics := s.topics[n := t];
    assert StageOk(topics, pc);
    hide DataSidesOk, ChannelsOk, ArrivalsOk, RegistryOk, SchemaReadersOk, ReadersOk, ListenersOk, StagesOk, LocksOk, UsersOk,
      StageOk, DataSideOk, ChannelOk, SameHandles, Changing, Open;
    Touched(s.topics, n, t, s);
    OneDataSide(s.topics, n, t, s.dds);
    OneChannel(s.topics, n, t, s.arrivals);
    HeldReader(s.registry, s.schemaReaders, s.apps, tid, pc, c);
    MovedData(topics, s.dds, s.listeners, s.apps, tid, pc);
    StagesAfter(topics, s.apps, tid, pc, s.sharers, s.schemaMu, s.schemaThread);
    UsersAfter(s.topics, s.apps, tid, t, pc, s.mu);
    LocksStay(s.apps, tid, pc, s.sharers, s.schemaMu, s.schemaThread);
  }

  /** A new schema reader in the locals of a thread that had none. */
  lemma HeldReader(registry: map<Id, Name>, schemaReaders: map<Id, Owner>, apps: Apps, tid: Tid, pc: Pc, c: Id)
    requires SchemaReadersOk(registry, schemaReaders, apps) && c !in schemaReaders
    requires tid in apps && CarriedSchema(pc) == Some(c)
    ensures SchemaReadersOk(registry, schemaReaders[c := ByThread(tid)], apps[tid := pc])
  {
    hide CarriedSchema;
  }

  lemma BeginKeeps(s: State, tid: Tid, call: Call, ch: BeginChoice)
    requires AtStart(s, tid, call) && (ch.reader.Some? ==> ch.reader.value !in s.schemaReaders)
    ensures Inv(BeginCall(s, tid, call, ch))
  {
    hide Inv, Changing, EnsureChannel;
    StartIsQuiet(s, tid, call);
    var n, t := call.name, At(s, call.name);
    match call
    case Create(_, _, _, _) => SameTopicKeeps(s, tid, call, WantSchema(call, Body), false);
    case Subscribe(_, _) =>
      if t.sub.listener.Some? { SameTopicKeeps(s, tid, call, Idle, true); } else { EnsureKeeps(s, tid, call, ch); }
    case Unsubscribe(_) =>
      if n !in s.topics { DoneKeeps(s, tid); }
      else {
        assert Put(s, n, t).topics == s.topics;
        SameTopicKeeps(s, tid, call, WantSchema(call, Body), false);
      }
    case SubscribeSchema(_) => EnsureKeeps(s, tid, call, ch);
    case UnsubscribeSchema(_) =>
      if t.sub.watches == 0 { DoneKeeps(s, tid); } else { UncountKeeps(s, tid, call); }
  }

  lemma UncountKeeps(s: State, tid: Tid, call: Call)
    requires AtStart(s, tid, call) && call.UnsubscribeSchema? && At(s, call.name).sub.watches > 0
    ensures var n, t := call.name, At(s, call.name);
            var s1 := Put(s, n, t.(sub := t.sub.(watches := t.sub.watches - 1)));
            Inv(if t.sub.watches > 1 || t.sub.listener.Some? then Done(s1, tid)
                else Goto(s1, tid, WantSchema(call, Closing(None, None))))
  {
    hide Inv, DataSideOk;
    var n, t := call.name, At(s, call.name);
    var t' := t.(sub := t.sub.(watches := t.sub.watches - 1));
    StartIsQuiet(s, tid, call);
    TopicIsOk(s, n);
    SameDataSide(n, t, t', s.dds);
    if t.sub.watches > 1 || t.sub.listener.Some? {
      MovesKeeps(s, Done(Put(s, n, t'), tid), tid, t', Idle, true);
    } else {
      MovesKeeps(s, Goto(Put(s, n, t'), tid, WantSchema(call, Closing(None, None))), tid, t',
                 WantSchema(call, Closing(None, None)), false);
    }
  }

  // ----- the announcement -----

  lemma AnnounceKeeps(s: State, tid: Tid, call: Call, ch: AnnounceChoice)
    requires Inv(s) && s.mu == Some(tid) && tid in s.apps && s.apps[tid] == InMu(call, Announcing) && call.Create?
    ensures Inv(AnnounceSchema(s, tid, call, ch))
  {
    hide Inv;
    var n, t := call.name, At(s, call.name);
    AnnouncerIsQuiet(s, tid, call);
    TopicIsOk(s, n);
    if call.schema.None? || t.pub.schemaWriter || (!t.schemaTopic && !ch.schemaTopic) {
      DoneKeeps(s, tid);
    } else {
      var t1 := t.(schemaTopic := true);
      var t' := if ch.writer && ch.write then t1.(pub := t1.pub.(schemaWriter := true, schema := call.schema)) else t1;
      MovesKeeps(s, Done(Put(s, n, t'), tid), tid, t', Idle, true);
    }
  }

  lemma AnnouncerIsQuiet(s: State, tid: Tid, call: Call)
    requires Inv(s) && s.mu == Some(tid) && tid in s.apps && s.apps[tid] == InMu(call, Announcing)
    ensures call.name in s.topics && forall n :: !Changing(s.apps, s.mu, n)
  {
    hide DataSidesOk, ChannelsOk, ArrivalsOk, RegistryOk, SchemaReadersOk, ReadersOk, ListenersOk, LocksOk;
  }

  // ----- opening a channel -----

  lemma MoreArrivals(topics: Topics, n: Name, t: Topic, arrivals: map<Id, Arrival>, a: Id, x: Arrival)
    requires ChannelsOk(topics, arrivals) && a !in arrivals && ChannelOk(n, t, arrivals[a := x])
    ensures ChannelsOk(topics[n := t], arrivals[a := x])
  {
  }

  lemma NewArrival(topics: Topics, n: Name, t: Topic, arrivals: map<Id, Arrival>, a: Id, o: Outcome)
    requires ArrivalsOk(topics, arrivals) && a !in arrivals && n in topics && !topics[n].sub.resolver
    requires o == Pending ==> t.sub.arrival == Some(a) && t.sub.resolver
    ensures ArrivalsOk(topics[n := t], arrivals[a := Arrival(n, o)])
  {
  }

  lemma NewRegistration(topics: Topics, n: Name, t: Topic, registry: map<Id, Name>, c: Id)
    requires RegistryOk(topics, registry) && c !in registry && n in topics && topics[n].sub.schemaReader.None?
    requires t.sub.schemaReader == Some(c)
    ensures RegistryOk(topics[n := t], registry[c := n])
  {
  }

  /** The schema reader passes from the thread to the topic. */
  lemma HandedOver(registry: map<Id, Name>, schemaReaders: map<Id, Owner>, apps: Apps, tid: Tid, pc: Pc, n: Name, c: Id)
    requires SchemaReadersOk(registry, schemaReaders, apps)
    requires tid in apps && CarriedSchema(apps[tid]) == Some(c) && CarriedSchema(pc) == None
    ensures c !in registry && SchemaReadersOk(registry[c := n], schemaReaders[c := ByTopic(n)], apps[tid := pc])
  {
    hide CarriedSchema;
  }

  /** What a thread that is about to fill in a channel knows. */
  lemma ChannelStage(s: State, tid: Tid, call: Call, reader: Option<Id>)
    requires Inv(s) && tid in s.apps && s.apps[tid] == InSchema(call, Channel(reader))
    ensures s.mu == Some(tid) && (call.Subscribe? || call.SubscribeSchema?) && call.name in s.topics
    ensures var t := s.topics[call.name];
            && t == At(s, call.name) && !Open(t) && !t.sub.resolver && t.sub.listener.None? && t.sub.dataReader.None?
            && t.sub.watches == 0 && DataSideOk(call.name, t, s.dds) && (reader.None? ==> t.pub.schema.Some?)
  {
    hide ArrivalsOk, RegistryOk, SchemaReadersOk, ReadersOk, ListenersOk, UsersOk;
    assert StageOk(s.topics, s.apps[tid]);
    assert DataSideOk(call.name, s.topics[call.name], s.dds) && ChannelOk(call.name, s.topics[call.name], s.arrivals);
  }

  lemma NewChannel(n: Name, t: Topic, reader: Option<Id>, a: Id, s: State)
    requires DataSideOk(n, t, s.dds) && !Open(t) && t.sub.listener.None? && t.sub.dataReader.None?
    requires reader.None? ==> t.pub.schema.Some?
    ensures var t' := WithChannel(t, reader, a);
            && DataSideOk(n, t', s.dds) && ChannelOk(n, t', s.arrivals[a := Arrival(n, FirstOutcome(t, reader))])
            && Open(t') && t'.sub.listener.None?
  {
  }

  lemma RegisteredTopic(s: State, tid: Tid, call: Call, reader: Option<Id>, a: Id)
    requires Inv(s) && tid in s.apps && s.apps[tid] == InSchema(call, Channel(reader)) && a !in s.arrivals
    ensures var s', n := RegisterChannel(s, tid, call, reader, a), call.name;
            && s.mu == Some(tid) && n in s.topics && s'.topics == s.topics[n := s'.topics[n]]
            && s'.apps == s.apps[tid := s'.apps[tid]] && HoldsMu(s'.apps[tid]) && !s'.apps[tid].InSchema? && PcOk(s'.apps[tid])
            && CarriedReader(s'.apps[tid]) == CarriedListener(s'.apps[tid]) == None
            && DataSideOk(n, s'.topics[n], s.dds) && ChannelOk(n, s'.topics[n], s'.arrivals)
            && StageOk(s'.topics, s'.apps[tid]) && Changing(s'.apps, s'.mu, n)
            && s.topics[n].sub.schemaReader.None? && !s.topics[n].sub.resolver
            && s.topics[n].sub.dataReader == s'.topics[n].sub.dataReader && s.topics[n].sub.listener == s'.topics[n].sub.listener
  {
    ChannelStage(s, tid, call, reader);
    hide Inv, DataSideOk, ChannelOk, StageOk, Changing, WithChannel, FirstOutcome, Open;
    NewChannel(call.name, s.topics[call.name], reader, a, s);
    RegisteredParts(s, tid, call, reader, a);
    ChannelPlace(s, tid, call, reader, a);
  }

  /** What the critical section does to each table it touches. */
  lemma RegisteredParts(s: State, tid: Tid, call: Call, reader: Option<Id>, a: Id)
    requires call.name in s.topics
    ensures var s', n, t := RegisterChannel(s, tid, call, reader, a), call.name, s.topics[call.name];
            && s'.topics == s.topics[n := WithChannel(t, reader, a)] && s'.arrivals == s.arrivals[a := Arrival(n, FirstOutcome(t, reader))]
            && s'.apps == s.apps[tid := if call.Subscribe? then WantSchema(call, Body) else InMu(call, Count)] && s'.mu == s.mu
    ensures var t := s.topics[call.name]; var t' := WithChannel(t, reader, a); t'.sub.dataReader == t.sub.dataReader && t'.sub.listener == t.sub.listener
  {
    hide FirstOutcome;
  }

  lemma ChannelPlace(s: State, tid: Tid, call: Call, reader: Option<Id>, a: Id)
    requires call.name in s.topics && (call.Subscribe? || call.SubscribeSchema?) && s.mu == Some(tid)
    requires var t' := WithChannel(s.topics[call.name], reader, a); Open(t') && t'.sub.listener.None?
    ensures var pc := if call.Subscribe? then WantSchema(call, Body) else InMu(call, Count);
            var topics := s.topics[call.name := WithChannel(s.topics[call.name], reader, a)];
            && HoldsMu(pc) && !pc.InSchema? && PcOk(pc) && CarriedReader(pc) == CarriedListener(pc) == None
            && StageOk(topics, pc) && Changing(s.apps[tid := pc], s.mu, call.name)
  {
    hide WithChannel, Open;
  }

  lemma RegisterKeeps(s: State, tid: Tid, call: Call, reader: Option<Id>, a: Id)
    requires Inv(s) && tid in s.apps && s.apps[tid] == InSchema(call, Channel(reader)) && a !in s.arrivals
    ensures Inv(RegisterChannel(s, tid, call, reader, a))
  {
    hide DataSidesOk, ChannelsOk, ArrivalsOk, RegistryOk, SchemaReadersOk, ReadersOk, ListenersOk, StagesOk, LocksOk, UsersOk,
      StageOk, DataSideOk, ChannelOk, Changing, Open;
    var s', n := RegisterChannel(s, tid, call, reader, a), call.name;
    RegisteredTopic(s, tid, call, reader, a);
    ChannelStage(s, tid, call, reader);
    var t', pc, x := s'.topics[n], s'.apps[tid], s'.arrivals[a];
    OneDataSide(s.topics, n, t', s.dds);
    MoreArrivals(s.topics, n, t', s.arrivals, a, x);
    NewArrival(s.topics, n, t', s.arrivals, a, x.outcome);
    TouchedData(s.topics, n, t', s);
    MovedData(s'.topics, s.dds, s.listeners, s.apps, tid, pc);
    StagesAfter(s'.topics, s.apps, tid, pc, s.sharers, s.schemaMu, s.schemaThread);
    UsersAfter(s.topics, s.apps, tid, t', pc, s.mu);
    LocksStay(s.apps, tid, pc, s.sharers, s.schemaMu, s.schemaThread);
    RegisteredReaders(s, tid, call, reader, a);
  }

  lemma RegisteredReaders(s: State, tid: Tid, call: Call, reader: Option<Id>, a: Id)
    requires RegistryOk(s.topics, s.registry) && SchemaReadersOk(s.registry, s.schemaReaders, s.apps)
    requires tid in s.apps && s.apps[tid] == InSchema(call, Channel(reader)) && call.name in s.topics
    requires (call.Subscribe? || call.SubscribeSchema?) && s.topics[call.name].sub.schemaReader.None?
    ensures var s' := RegisterChannel(s, tid, call, reader, a);
            RegistryOk(s'.topics, s'.registry) && SchemaReadersOk(s'.registry, s'.schemaReaders, s'.apps)
  {
    hide RegistryOk, SchemaReadersOk;
    var s', n := RegisterChannel(s, tid, call, reader, a), call.name;
    if reader.Some? {
      HandedOver(s.registry, s.schemaReaders, s.apps, tid, s'.apps[tid], n, reader.value);
      NewRegistration(s.topics, n, s'.topics[n], s.registry, reader.value);
    } else {
      SameRegistry(s.topics, n, s'.topics[n], s.registry);
      MovedSchema(s.registry, s.schemaReaders, s.apps, tid, s'.apps[tid]);
    }
  }

  lemma SameRegistry(topics: Topics, n: Name, t: Topic, registry: map<Id, Name>)
    requires RegistryOk(topics, registry) && Look(topics, n).sub.schemaReader == t.sub.schemaReader
    ensures RegistryOk(topics[n := t], registry)
  {
  }

  lemma MovedSchema(registry: map<Id, Name>, schemaReaders: map<Id, Owner>, apps: Apps, tid: Tid, pc: Pc)
    requires SchemaReadersOk(registry, schemaReaders, apps) && tid in apps && CarriedSchema(pc) == CarriedSchema(apps[tid])
    ensures SchemaReadersOk(registry, schemaReaders, apps[tid := pc])
  {
    hide CarriedSchema;
  }

  // ----- taking a data subscription out -----

  lemma BodyStage(s: State, tid: Tid, call: Call)
    requires Inv(s) && tid in s.apps && s.apps[tid] == InSchema(call, Body)
    ensures s.mu == Some(tid) && call.name in s.topics && s.topics[call.name] == At(s, call.name)
    ensures DataSideOk(call.name, At(s, call.name), s.dds) && ChannelOk(call.name, At(s, call.name), s.arrivals)
    ensures call.Subscribe? ==> Open(At(s, call.name)) && At(s, call.name).sub.listener.None?
    ensures !call.Subscribe? && Open(At(s, call.name)) ==>
              At(s, call.name).sub.watches > 0 || At(s, call.name).sub.listener.Some?
    ensures !call.Subscribe? ==> forall n :: !Changing(s.apps, s.mu, n)
  {
    hide ArrivalsOk, RegistryOk, SchemaReadersOk, ReadersOk, ListenersOk, DataSideOk, ChannelOk;
    assert StageOk(s.topics, s.apps[tid]);
  }

  /** Reader and listener pass from the topic to the thread together. */
  lemma TakenData(topics: Topics, n: Name, t: Topic, dds: Dds, listeners: map<Id, Owner>, apps: Apps, tid: Tid, pc: Pc)
    requires n in topics && DataSideOk(n, topics[n], dds) && tid in apps
    requires ReadersOk(topics, dds, listeners, apps) && ListenersOk(topics, dds, listeners, apps)
    requires t.sub.dataReader.None? && t.sub.listener.None?
    requires CarriedReader(apps[tid]).None? && CarriedListener(apps[tid]).None?
    requires CarriedReader(pc) == topics[n].sub.dataReader && CarriedListener(pc) == topics[n].sub.listener
    ensures var l := topics[n].sub.listener;
            var listeners' := if l.Some? then listeners[l.value := ByThread(tid)] else listeners;
            && ReadersOk(topics[n := t], dds, listeners', apps[tid := pc])
            && ListenersOk(topics[n := t], dds, listeners', apps[tid := pc])
  {
    hide CarriedReader, CarriedListener;
    var l := topics[n].sub.listener;
    var topics', apps' := topics[n := t], apps[tid := pc];
    var listeners' := if l.Some? then listeners[l.value := ByThread(tid)] else listeners;
    forall d | d in dds.readers
      ensures ReaderOk(d, dds.readers[d], topics', dds.topics, listeners', apps')
    {
      assert ReaderOk(d, dds.readers[d], topics, dds.topics, listeners, apps);
    }
  }

  lemma TakenTopic(n: Name, t: Topic, dds: Dds, arrivals: map<Id, Arrival>)
    requires DataSideOk(n, t, dds) && ChannelOk(n, t, arrivals)
    ensures var t' := t.(sub := t.sub.(dataReader := None, listener := None, profile := 0));
            DataSideOk(n, t', dds) && ChannelOk(n, t', arrivals)
  {
  }

  lemma TakenStage(s: State, tid: Tid, call: Call)
    requires call.Unsubscribe? && tid in s.apps && s.mu == Some(tid) && call.name in s.topics
    requires DataSideOk(call.name, s.topics[call.name], s.dds) && ChannelOk(call.name, s.topics[call.name], s.arrivals)
    ensures var s', n := TakeReader(s, tid, call), call.name;
            && DataSideOk(n, s'.topics[n], s.dds) && ChannelOk(n, s'.topics[n], s.arrivals) && StageOk(s'.topics, s'.apps[tid])
            && (Open(s'.topics[n]) ==>
                  s'.topics[n].sub.watches > 0 || s'.topics[n].sub.listener.Some? || Changing(s'.apps, s'.mu, n))
  {
    TakenTopic(call.name, s.topics[call.name], s.dds, s.arrivals);
    hide DataSideOk, ChannelOk;
  }

  /** What the critical section does to each table. */
  lemma TakenParts(s: State, tid: Tid, call: Call)
    requires call.name in s.topics
    ensures var s', n, t := TakeReader(s, tid, call), call.name, s.topics[call.name];
            var d, l := t.sub.dataReader, t.sub.listener;
            && s'.topics == s.topics[n := t.(sub := t.sub.(dataReader := None, listener := None, profile := 0))]
            && s'.listeners == (if l.Some? then s.listeners[l.value := ByThread(tid)] else s.listeners)
            && s'.apps == s.apps[tid := if t.sub.watches == 0 then WantSchema(call, Closing(d, l)) else Cleanup(None, d, l)]
            && s'.mu == (if t.sub.watches == 0 then s.mu else None) && s'.schemaMu == None
  {
    var n, t := call.name, s.topics[call.name];
    var d, l := t.sub.dataReader, t.sub.listener;
    var s1 := Put(s, n, t.(sub := t.sub.(dataReader := None, listener := None, profile := 0)))
                .(schemaMu := None, listeners := if l.Some? then s.listeners[l.value := ByThread(tid)] else s.listeners);
    assert s1.apps == s.apps && s1.mu == s.mu && s1.schemaMu == None
        && s1.topics == s.topics[n := t.(sub := t.sub.(dataReader := None, listener := None, profile := 0))];
    if t.sub.watches == 0 {
      assert TakeReader(s, tid, call) == Goto(s1, tid, WantSchema(call, Closing(d, l)));
    } else {
      assert TakeReader(s, tid, call) == Done(s1, tid).(apps := s1.apps[tid := Cleanup(None, d, l)]);
    }
  }

  lemma TakenFrame(s: State, tid: Tid, call: Call)
    ensures var s' := TakeReader(s, tid, call);
            && s'.ownBound == s.ownBound && s'.dds == s.dds && s'.schemaReaders == s.schemaReaders && s'.registry == s.registry
            && s'.arrivals == s.arrivals && s'.sharers == s.sharers && s'.schemaThread == s.schemaThread
  {
  }

  lemma TakeKeeps(s: State, tid: Tid, call: Call)
    requires Inv(s) && tid in s.apps && s.apps[tid] == InSchema(call, Body) && call.Unsubscribe?
    ensures Inv(TakeReader(s, tid, call))
  {
    hide DataSidesOk, ChannelsOk, ArrivalsOk, RegistryOk, SchemaReadersOk, ReadersOk, ListenersOk, StagesOk, LocksOk, UsersOk,
      StageOk, DataSideOk, ChannelOk, Changing, Open;
    BodyStage(s, tid, call);
    TakenStage(s, tid, call);
    TakenParts(s, tid, call);
    TakenFrame(s, tid, call);
    hide TakeReader;
    var s', n := TakeReader(s, tid, call), call.name;
    var t, t', pc := s.topics[n], s'.topics[n], s'.apps[tid];
    OneDataSide(s.topics, n, t', s.dds);
    OneChannel(s.topics, n, t', s.arrivals);
    SameRegistry(s.topics, n, t', s.registry);
    SameArrivals(s.topics, n, t', s.arrivals);
    MovedSchema(s.registry, s.schemaReaders, s.apps, tid, pc);
    TakenData(s.topics, n, t', s.dds, s.listeners, s.apps, tid, pc);
    StagesAfter(s'.topics, s.apps, tid, pc, s.sharers, s.schemaMu, s.schemaThread);
    UsersAfter(s.topics, s.apps, tid, t', pc, s'.mu);
    if t.sub.watches == 0 {
      LocksStay(s.apps, tid, pc, s.sharers, s.schemaMu, s.schemaThread);
    } else {
      LocksLeave(s.apps, tid, pc, s.sharers, s.schemaMu, s.schemaThread);
    }
  }

  lemma SameArrivals(topics: Topics, n: Name, t: Topic, arrivals: map<Id, Arrival>)
    requires ArrivalsOk(topics, arrivals) && Look(topics, n).sub.arrival == t.sub.arrival
    requires Look(topics, n).sub.resolver == t.sub.resolver
    ensures ArrivalsOk(topics[n := t], arrivals)
  {
  }

  // ----- closing a channel -----

  /** Settling a topic's own arrival leaves every other topic's alone. */
  lemma SettledChannels(topics: Topics, n: Name, t: Topic, arrivals: map<Id, Arrival>, o: Outcome)
    requires ChannelsOk(topics, arrivals) && n in topics && ChannelOk(n, topics[n], arrivals)
    requires ChannelOk(n, t, Settle(arrivals, topics[n], o))
    ensures ChannelsOk(topics[n := t], Settle(arrivals, topics[n], o))
  {
    forall m | m in topics && m != n
      ensures ChannelOk(m, topics[m], Settle(arrivals, topics[n], o))
    {
      assert ChannelOk(m, topics[m], arrivals);
    }
  }

  lemma SettledArrivals(topics: Topics, n: Name, t: Topic, arrivals: map<Id, Arrival>, o: Outcome)
    requires ArrivalsOk(topics, arrivals) && n in topics && ChannelOk(n, topics[n], arrivals) && o != Pending
    ensures ArrivalsOk(topics[n := t], Settle(arrivals, topics[n], o))
  {
  }

  lemma Unregistered(topics: Topics, n: Name, t: Topic, registry: map<Id, Name>)
    requires RegistryOk(topics, registry) && n in topics && t.sub.schemaReader.None?
    ensures var c := topics[n].sub.schemaReader;
            RegistryOk(topics[n := t], if c.Some? then registry - {c.value} else registry)
  {
  }

  /** The schema reader passes from the topic to the thread that will delete it. */
  lemma HandedBack(topics: Topics, n: Name, registry: map<Id, Name>, schemaReaders: map<Id, Owner>, apps: Apps, tid: Tid, pc: Pc)
    requires RegistryOk(topics, registry) && SchemaReadersOk(registry, schemaReaders, apps) && n in topics && tid in apps
    requires CarriedSchema(apps[tid]).None? && CarriedSchema(pc) == topics[n].sub.schemaReader
    ensures var c := topics[n].sub.schemaReader;
            SchemaReadersOk(if c.Some? then registry - {c.value} else registry,
                            if c.Some? then schemaReaders[c.value := ByThread(tid)] else schemaReaders, apps[tid := pc])
  {
    hide CarriedSchema;
  }

  lemma ClosingStage(s: State, tid: Tid, call: Call, stage: Stage)
    requires Inv(s) && tid in s.apps && s.apps[tid] == InSchema(call, stage) && stage.Closing?
    ensures s.mu == Some(tid) && call.name in s.topics && s.topics[call.name] == At(s, call.name)
    ensures var t := s.topics[call.name];
            && t.sub.listener.None? && t.sub.dataReader.None? && t.sub.watches == 0
            && DataSideOk(call.name, t, s.dds) && ChannelOk(call.name, t, s.arrivals)
  {
    hide ArrivalsOk, RegistryOk, SchemaReadersOk, ReadersOk, ListenersOk, UsersOk;
    assert StageOk(s.topics, s.apps[tid]);
  }

  lemma ClosedTopic(n: Name, t: Topic, dds: Dds, arrivals: map<Id, Arrival>)
    requires DataSideOk(n, t, dds) && t.sub.listener.None? && t.sub.dataReader.None? && t.sub.watches == 0
    ensures var t' := t.(sub := t.sub.(schemaReader := None, schema := None, bound := 0, resolver := false));
            DataSideOk(n, t', dds) && ChannelOk(n, t', arrivals) && !Open(t')
  {
  }

  lemma OutsideStage(topics: Topics, pc: Pc)
    requires !HoldsMu(pc)
    ensures StageOk(topics, pc)
  {
  }

  lemma CloseKeeps(s: State, tid: Tid, call: Call, stage: Stage)
    requires Inv(s) && tid in s.apps && s.apps[tid] == InSchema(call, stage) && stage.Closing?
    ensures Inv(CloseChannel(s, tid, call.name, stage))
  {
    hide DataSidesOk, ChannelsOk, ArrivalsOk, RegistryOk, SchemaReadersOk, ReadersOk, ListenersOk, StagesOk, LocksOk, UsersOk,
      StageOk, DataSideOk, ChannelOk, Changing, Open, Settle;
    ClosingStage(s, tid, call, stage);
    var s', n := CloseChannel(s, tid, call.name, stage), call.name;
    var t, t', pc := s.topics[n], s'.topics[n], s'.apps[tid];
    ClosedTopic(n, t, s.dds, s'.arrivals);
    OutsideStage(s'.topics, pc);
    OneDataSide(s.topics, n, t', s.dds);
    SettledChannels(s.topics, n, t', s.arrivals, Ended);
    SettledArrivals(s.topics, n, t', s.arrivals, Ended);
    Unregistered(s.topics, n, t', s.registry);
    HandedBack(s.topics, n, s.registry, s.schemaReaders, s.apps, tid, pc);
    TouchedData(s.topics, n, t', s);
    MovedData(s'.topics, s.dds, s.listeners, s.apps, tid, pc);
    StagesAfter(s'.topics, s.apps, tid, pc, s.sharers, s.schemaMu, s.schemaThread);
    UsersAfter(s.topics, s.apps, tid, t', pc, None);
    LocksLeave(s.apps, tid, pc, s.sharers, s.schemaMu, s.schemaThread);
  }

  // ----- the end of a teardown, under no lock -----

  /** A thread outside `mu` moves on. */
  lemma OutsideKeeps(s: State, tid: Tid, pc: Pc)
    requires Inv(s) && tid in s.apps && s.apps[tid].Cleanup? && (pc.Cleanup? || pc.Idle?)
    ensures var apps := s.apps[tid := pc];
            StagesOk(s.topics, apps) && LocksOk(apps, s.mu, s.sharers, s.schemaMu, s.schemaThread) && UsersOk(s.topics, apps, s.mu)
  {
    hide DataSidesOk, ChannelsOk, ArrivalsOk, RegistryOk, SchemaReadersOk, ReadersOk, ListenersOk;
  }

  lemma DeleteSchemaReaderKeeps(s: State, tid: Tid)
    requires Inv(s) && tid in s.apps && s.apps[tid].Cleanup? && s.apps[tid].schemaReader.Some?
    ensures Inv(Goto(s, tid, s.apps[tid].(schemaReader := None))
                  .(schemaReaders := s.schemaReaders - {s.apps[tid].schemaReader.value}))
  {
    var pc := s.apps[tid].(schemaReader := None);
    OutsideKeeps(s, tid, pc);
    hide DataSidesOk, ChannelsOk, ArrivalsOk, RegistryOk, ReadersOk, ListenersOk, StagesOk, LocksOk, UsersOk;
    MovedData(s.topics, s.dds, s.listeners, s.apps, tid, pc);
    DroppedSchema(s.registry, s.schemaReaders, s.apps, tid, pc);
  }

  lemma DroppedSchema(registry: map<Id, Name>, schemaReaders: map<Id, Owner>, apps: Apps, tid: Tid, pc: Pc)
    requires SchemaReadersOk(registry, schemaReaders, apps) && tid in apps && CarriedSchema(apps[tid]).Some?
    requires CarriedSchema(pc).None?
    ensures SchemaReadersOk(registry, schemaReaders - {CarriedSchema(apps[tid]).value}, apps[tid := pc])
  {
    hide CarriedSchema;
  }

  lemma DeleteDataReaderKeeps(s: State, tid: Tid)
    requires Inv(s) && tid in s.apps && s.apps[tid].Cleanup? && s.apps[tid].dataReader.Some?
    ensures Inv(Goto(s, tid, s.apps[tid].(dataReader := None))
                  .(dds := s.dds.(readers := s.dds.readers - {s.apps[tid].dataReader.value})))
  {
    var pc := s.apps[tid].(dataReader := None);
    OutsideKeeps(s, tid, pc);
    hide ChannelsOk, ArrivalsOk, RegistryOk, SchemaReadersOk, StagesOk, LocksOk, UsersOk;
    MovedSchema(s.registry, s.schemaReaders, s.apps, tid, pc);
    DroppedReader(s.topics, s.dds, s.listeners, s.apps, tid, pc);
  }

  lemma DroppedReader(topics: Topics, dds: Dds, listeners: map<Id, Owner>, apps: Apps, tid: Tid, pc: Pc)
    requires DataSidesOk(topics, dds) && ReadersOk(topics, dds, listeners, apps) && ListenersOk(topics, dds, listeners, apps)
    requires tid in apps && CarriedReader(apps[tid]).Some? && CarriedReader(pc).None? && CarriedListener(pc) == CarriedListener(apps[tid])
    ensures var dds' := dds.(readers := dds.readers - {CarriedReader(apps[tid]).value});
            && DataSidesOk(topics, dds')
            && ReadersOk(topics, dds', listeners, apps[tid := pc]) && ListenersOk(topics, dds', listeners, apps[tid := pc])
  {
    hide CarriedReader, CarriedListener;
    var d := CarriedReader(apps[tid]).value;
    var dds' := dds.(readers := dds.readers - {d});
    forall n | n in topics
      ensures DataSideOk(n, topics[n], dds')
    {
      assert DataSideOk(n, topics[n], dds);
    }
    forall e | e in dds'.readers
      ensures ReaderOk(e, dds'.readers[e], topics, dds'.topics, listeners, apps[tid := pc])
    {
      assert ReaderOk(e, dds.readers[e], topics, dds.topics, listeners, apps);
    }
  }

  lemma DropListenerKeeps(s: State, tid: Tid)
    requires Inv(s) && tid in s.apps && s.apps[tid].Cleanup? && s.apps[tid].schemaReader.None? && s.apps[tid].dataReader.None?
    ensures var l := s.apps[tid].listener;
            Inv(Goto(s, tid, Idle).(listeners := if l.Some? then s.listeners - {l.value} else s.listeners))
  {
    OutsideKeeps(s, tid, Idle);
    hide DataSidesOk, ChannelsOk, ArrivalsOk, RegistryOk, SchemaReadersOk, StagesOk, LocksOk, UsersOk;
    MovedSchema(s.registry, s.schemaReaders, s.apps, tid, Idle);
    DroppedListener(s.topics, s.dds, s.listeners, s.apps, tid);
  }

  /** No live reader uses a listener whose thread has deleted its reader. */
  lemma DroppedListener(topics: Topics, dds: Dds, listeners: map<Id, Owner>, apps: Apps, tid: Tid)
    requires ReadersOk(topics, dds, listeners, apps) && ListenersOk(topics, dds, listeners, apps)
    requires tid in apps && CarriedReader(apps[tid]).None?
    ensures var l := CarriedListener(apps[tid]);
            var listeners' := if l.Some? then listeners - {l.value} else listeners;
            && ReadersOk(topics, dds, listeners', apps[tid := Idle]) && ListenersOk(topics, dds, listeners', apps[tid := Idle])
  {
    var l := CarriedListener(apps[tid]);
    var listeners' := if l.Some? then listeners - {l.value} else listeners;
    assert CarriedReader(Idle).None? && CarriedListener(Idle).None?;
    hide CarriedReader, CarriedListener;
    forall d | d in dds.readers
      ensures ReaderOk(d, dds.readers[d], topics, dds.topics, listeners', apps[tid := Idle])
    {
      assert ReaderOk(d, dds.readers[d], topics, dds.topics, listeners, apps);
    }
  }

  // ----- steps that create DDS entities -----

  /** `dds'` keeps everything of `dds` that a topic other than `n`, or any reader or writer, relies on. */
  ghost predicate Extends(dds: Dds, dds': Dds, n: Name)
  {
    && (forall e | e in dds.topics && (dds.topics[e].name != n || InUse(dds, e)) ::
          e in dds'.topics && dds'.topics[e] == dds.topics[e])
    && (forall d | d in dds.readers :: d in dds'.readers && dds'.readers[d] == dds.readers[d])
    && (forall w | w in dds.writers :: w in dds'.writers && dds'.writers[w] == dds.writers[w])
  }

  lemma PlacedTopic(n: Name, was: Option<Id>, dds: Dds, bound: nat, deletes: bool, spare: Option<Id>)
    requires was.Some? ==> was.value in dds.topics && dds.topics[was.value].name == n
    ensures var p := PlaceTopic(n, was, dds, bound, deletes, spare);
            && Extends(dds, p.dds, n) && p.dds.readers == dds.readers && p.dds.writers == dds.writers
            && (p.ok ==> p.topic.Some?)
            && (p.topic.Some? ==> p.topic.value in p.dds.topics && p.dds.topics[p.topic.value].name == n)
            && (p.ok ==> p.dds.topics[p.topic.value] == DataTopic(n, bound))
  {
    hide InUse;
  }

  /** What opening a data reader leaves behind, whether or not it succeeds. */
  lemma OpenedReader(n: Name, t: Topic, dds: Dds, ch: OpenChoice)
    requires DataSideOk(n, t, dds) && t.sub.listener.Some? && t.sub.dataReader.None? && t.sub.schema.Some?
    ensures var o := OpenDataReader(n, t, dds, ch);
            && DataSideOk(n, o.topic, o.dds) && Extends(dds, o.dds, n) && o.dds.writers == dds.writers
            && o.topic.pub == t.pub && o.topic.sub == t.sub.(dataReader := o.topic.sub.dataReader)
            && (if o.ok then
                  && o.topic.sub.dataReader.Some? && o.topic.sub.dataReader.value !in dds.readers && o.topic.dataTopic.Some?
                  && o.dds.readers
                     == dds.readers[o.topic.sub.dataReader.value := DataReader(o.topic.dataTopic.value, t.sub.listener.value)]
                else o.topic.sub.dataReader.None? && o.dds.readers == dds.readers)
  {
    hide InUse, PlaceTopic;
    PlacedTopic(n, t.dataTopic, dds, t.sub.bound, ch.deletes, ch.topic);
  }

  lemma OtherSides(topics: Topics, n: Name, t: Topic, dds: Dds, dds': Dds)
    requires DataSidesOk(topics, dds) && Extends(dds, dds', n) && DataSideOk(n, t, dds')
    ensures DataSidesOk(topics[n := t], dds')
  {
    hide InUse;
    forall m | m in topics && m != n
      ensures DataSideOk(m, topics[m], dds')
    {
      assert DataSideOk(m, topics[m], dds);
    }
  }

  /** Readers and listeners after a topic got a listener, a reader on it, both or neither. */
  lemma ListenedData(topics: Topics, n: Name, t: Topic, dds: Dds, dds': Dds, listeners: map<Id, Owner>, listeners': map<Id, Owner>,
                     apps: Apps)
    requires ReadersOk(topics, dds, listeners, apps) && ListenersOk(topics, dds, listeners, apps) && Extends(dds, dds', n)
    requires n in topics && topics[n].sub.dataReader.None? && DataSideOk(n, t, dds')
    requires if t.sub.dataReader.None? then dds'.readers == dds.readers
             else t.sub.dataReader.value !in dds.readers && dds'.readers.Keys == dds.readers.Keys + {t.sub.dataReader.value}
    requires if topics[n].sub.listener.Some? then t.sub.listener == topics[n].sub.listener && listeners' == listeners
             else if t.sub.listener.None? then listeners' == listeners
             else t.sub.listener.value !in listeners && listeners' == listeners[t.sub.listener.value := ByTopic(n)]
    ensures ReadersOk(topics[n := t], dds', listeners', apps) && ListenersOk(topics[n := t], dds', listeners', apps)
  {
    hide CarriedReader, CarriedListener;
    forall d | d in dds'.readers
      ensures ReaderOk(d, dds'.readers[d], topics[n := t], dds'.topics, listeners', apps)
    {
      if d in dds.readers {
        assert ReaderOk(d, dds.readers[d], topics, dds.topics, listeners, apps);
        assert InUse(dds, dds.readers[d].topic);
      }
    }
  }

  /** A critical section that may have created entities and listeners for its own topic. */
  lemma BodyKeeps(s: State, s': State, tid: Tid, t: Topic, pc: Pc, leaves: bool)
    requires Inv(s) && s.mu == Some(tid) && tid in s.apps && s.apps[tid].InSchema? && s.apps[tid].call.name in s.topics
    requires s' == s.(topics := s.topics[s.apps[tid].call.name := t], dds := s'.dds, listeners := s'.listeners,
                      apps := s.apps[tid := pc], mu := if leaves then None else s.mu, schemaMu := None)
    requires DataSidesOk(s'.topics, s'.dds) && ChannelOk(s.apps[tid].call.name, t, s.arrivals)
    requires ReadersOk(s'.topics, s'.dds, s'.listeners, s.apps) && ListenersOk(s'.topics, s'.dds, s'.listeners, s.apps)
    requires var u := s.topics[s.apps[tid].call.name].sub;
             t.sub.schemaReader == u.schemaReader && t.sub.arrival == u.arrival && t.sub.resolver == u.resolver
    requires Open(t) ==> t.sub.watches > 0 || t.sub.listener.Some? || Changing(s'.apps, s'.mu, s.apps[tid].call.name)
    requires SameLocals(s.apps[tid], pc) && StageOk(s'.topics, pc)
    requires if leaves then !HoldsMu(pc) && !pc.Sharing? else HoldsMu(pc) && !pc.InSchema? && PcOk(pc)
    ensures Inv(s')
  {
    hide DataSidesOk, ChannelsOk, ArrivalsOk, RegistryOk, SchemaReadersOk, ReadersOk, ListenersOk, StagesOk, LocksOk, UsersOk,
      StageOk, DataSideOk, ChannelOk, Changing, Open;
    var n := s.apps[tid].call.name;
    OneChannel(s.topics, n, t, s.arrivals);
    SameRegistry(s.topics, n, t, s.registry);
    SameArrivals(s.topics, n, t, s.arrivals);
    MovedSchema(s.registry, s.schemaReaders, s.apps, tid, pc);
    MovedData(s'.topics, s'.dds, s'.listeners, s.apps, tid, pc);
    StagesAfter(s'.topics, s.apps, tid, pc, s.sharers, s.schemaMu, s.schemaThread);
    UsersAfter(s.topics, s.apps, tid, t, pc, s'.mu);
    if leaves {
      LocksLeave(s.apps, tid, pc, s.sharers, s.schemaMu, s.schemaThread);
    } else {
      LocksStay(s.apps, tid, pc, s.sharers, s.schemaMu, s.schemaThread);
    }
  }

  lemma SameEntities(dds: Dds, n: Name)
    ensures Extends(dds, dds, n)
  {
  }

  lemma NoReaderYet(n: Name, t: Topic, dds: Dds)
    requires DataSideOk(n, t, dds) && t.sub.listener.None?
    ensures t.sub.dataReader.None?
  {
  }

  /** The schema is not known yet: the listener waits for it. */
  lemma ListenWaits(s: State, tid: Tid, call: Call, l: Id, t': Topic)
    requires Inv(s) && tid in s.apps && s.apps[tid] == InSchema(call, Body) && call.Subscribe? && l !in s.listeners
    requires At(s, call.name).sub.schema.None?
    requires t' == At(s, call.name).(sub := At(s, call.name).sub.(listener := Some(l), profile := call.profile))
    ensures Inv(Done(Put(s, call.name, t'), tid).(schemaMu := None, listeners := s.listeners[l := ByTopic(call.name)]))
  {
    hide DataSidesOk, ChannelsOk, ArrivalsOk, RegistryOk, SchemaReadersOk, ReadersOk, ListenersOk, StagesOk, LocksOk, UsersOk;
    BodyStage(s, tid, call);
    var n, listeners' := call.name, s.listeners[l := ByTopic(call.name)];
    NoReaderYet(n, s.topics[n], s.dds);
    SameEntities(s.dds, n);
    assert DataSideOk(n, t', s.dds) && ChannelOk(n, t', s.arrivals);
    OtherSides(s.topics, n, t', s.dds, s.dds);
    ListenedData(s.topics, n, t', s.dds, s.dds, s.listeners, listeners', s.apps);
    BodyKeeps(s, Done(Put(s, n, t'), tid).(schemaMu := None, listeners := listeners'), tid, t', Idle, true);
  }

  /** The schema is known and the reader opens. */
  lemma ListenOpens(s: State, tid: Tid, call: Call, l: Id, t1: Topic, o: Opened)
    requires Inv(s) && tid in s.apps && s.apps[tid] == InSchema(call, Body) && call.Subscribe? && l !in s.listeners
    requires At(s, call.name).sub.schema.Some? && o.ok
    requires t1 == At(s, call.name).(sub := At(s, call.name).sub.(listener := Some(l), profile := call.profile))
    requires exists ch :: o == OpenDataReader(call.name, t1, s.dds, ch)
    ensures Inv(Done(Put(s, call.name, o.topic), tid)
                  .(schemaMu := None, dds := o.dds, listeners := s.listeners[l := ByTopic(call.name)]))
  {
    hide DataSidesOk, ChannelsOk, ArrivalsOk, RegistryOk, SchemaReadersOk, ReadersOk, ListenersOk, StagesOk, LocksOk, UsersOk,
      OpenDataReader, Extends;
    BodyStage(s, tid, call);
    var n, t', listeners' := call.name, o.topic, s.listeners[l := ByTopic(call.name)];
    NoReaderYet(n, s.topics[n], s.dds);
    var ch :| o == OpenDataReader(n, t1, s.dds, ch);
    OpenedReader(n, t1, s.dds, ch);
    assert ChannelOk(n, t', s.arrivals);
    hide DataSideOk, ChannelOk;
    OtherSides(s.topics, n, t', s.dds, o.dds);
    ListenedData(s.topics, n, t', s.dds, o.dds, s.listeners, listeners', s.apps);
    BodyKeeps(s, Done(Put(s, n, t'), tid).(schemaMu := None, dds := o.dds, listeners := listeners'), tid, t', Idle, true);
  }

  /** The schema is known and the reader does not open: the listener goes, and the channel with it if
      nobody else uses it. */
  lemma ListenFails(s: State, tid: Tid, call: Call, l: Id, t1: Topic, o: Opened)
    requires Inv(s) && tid in s.apps && s.apps[tid] == InSchema(call, Body) && call.Subscribe?
    requires At(s, call.name).sub.schema.Some? && !o.ok
    requires t1 == At(s, call.name).(sub := At(s, call.name).sub.(listener := Some(l), profile := call.profile))
    requires exists ch :: o == OpenDataReader(call.name, t1, s.dds, ch)
    ensures var s1 := Put(s, call.name, o.topic.(sub := o.topic.sub.(listener := None))).(schemaMu := None, dds := o.dds);
            Inv(if t1.sub.watches == 0 then Goto(s1, tid, WantSchema(call, Closing(None, None))) else Done(s1, tid))
  {
    hide DataSidesOk, ChannelsOk, ArrivalsOk, RegistryOk, SchemaReadersOk, ReadersOk, ListenersOk, StagesOk, LocksOk, UsersOk,
      OpenDataReader, Extends;
    BodyStage(s, tid, call);
    var n, t' := call.name, o.topic.(sub := o.topic.sub.(listener := None));
    var pc := if t1.sub.watches == 0 then WantSchema(call, Closing(None, None)) else Idle;
    NoReaderYet(n, s.topics[n], s.dds);
    var ch :| o == OpenDataReader(n, t1, s.dds, ch);
    OpenedReader(n, t1, s.dds, ch);
    assert DataSideOk(n, t', o.dds) && ChannelOk(n, t', s.arrivals);
    hide DataSideOk, ChannelOk;
    OtherSides(s.topics, n, t', s.dds, o.dds);
    ListenedData(s.topics, n, t', s.dds, o.dds, s.listeners, s.listeners, s.apps);
    var s1 := Put(s, n, t').(schemaMu := None, dds := o.dds);
    BodyKeeps(s, if t1.sub.watches == 0 then Goto(s1, tid, pc) else Done(s1, tid), tid, t', pc, t1.sub.watches != 0);
  }

  lemma ListenKeeps(s: State, tid: Tid, call: Call, l: Id, ch: OpenChoice)
    requires Inv(s) && tid in s.apps && s.apps[tid] == InSchema(call, Body) && call.Subscribe? && l !in s.listeners
    ensures Inv(ListenOn(s, tid, call, l, ch))
  {
    hide Inv, OpenDataReader;
    var t := At(s, call.name);
    var t1 := t.(sub := t.sub.(listener := Some(l), profile := call.profile));
    if t.sub.schema.None? {
      ListenWaits(s, tid, call, l, t1);
    } else {
      var o := OpenDataReader(call.name, t1, s.dds, ch);
      if o.ok { ListenOpens(s, tid, call, l, t1, o); } else { ListenFails(s, tid, call, l, t1, o); }
    }
  }

  // ----- declaring a topic -----

  lemma DeclareKeeps(s: State, tid: Tid, call: Call, ch: DeclareChoice)
    requires Inv(s) && tid in s.apps && s.apps[tid] == InSchema(call, Body) && call.Create?
    requires ch.writer.Some? ==> ch.writer.value !in s.dds.writers
    ensures Inv(DeclareTopic(s, tid, call, ch))
  {
    hide Inv;
    var n, t := call.name, At(s, call.name);
    BodyStage(s, tid, call);
    if t.pub.writer.Some? {
      if Conflicts(t, call) { DoneKeeps(s, tid); } else { DeclaredAlready(s, tid, call); }
    } else if HeldElsewhere(s, t, Effective(s, call.bound)) {
      DoneKeeps(s, tid);
    } else {
      DeclaresAnew(s, tid, call, ch);
    }
  }

  lemma DeclaredAlready(s: State, tid: Tid, call: Call)
    requires Inv(s) && tid in s.apps && s.apps[tid] == InSchema(call, Body) && call.Create?
    ensures Inv(Goto(s, tid, InMu(call, Announcing)).(schemaMu := None))
  {
    hide Inv, DataSideOk, ChannelOk, Changing;
    BodyStage(s, tid, call);
    var n := call.name;
    assert s.topics[n := s.topics[n]] == s.topics;
    MovesKeeps(s, Goto(s, tid, InMu(call, Announcing)).(schemaMu := None), tid, s.topics[n], InMu(call, Announcing), false);
  }

  /** The state that `DeclareTopic` leaves when this instance does not publish the topic yet. */
  ghost function Declared(s: State, call: Call, ch: DeclareChoice): (Topic, Dds, bool)
    requires call.Create?
  {
    var n, t := call.name, At(s, call.name);
    var p := PlaceTopic(n, t.dataTopic, s.dds, Effective(s, call.bound), ch.deletes, ch.topic);
    var t1 := t.(dataTopic := p.topic);
    if !p.ok || p.topic.None? || ch.writer.None? then (t1, p.dds, false)
    else (t1.(pub := t1.pub.(writer := ch.writer, bound := Effective(s, call.bound), profile := call.profile)),
          p.dds.(writers := p.dds.writers[ch.writer.value := p.topic.value]), true)
  }

  lemma DeclaredTopic(s: State, call: Call, ch: DeclareChoice)
    requires call.Create? && DataSideOk(call.name, At(s, call.name), s.dds)
    requires At(s, call.name).pub.writer.None? && !HeldElsewhere(s, At(s, call.name), Effective(s, call.bound))
    requires ch.writer.Some? ==> ch.writer.value !in s.dds.writers
    ensures var (t, dds, ok) := Declared(s, call, ch);
            && DataSideOk(call.name, t, dds) && Extends(s.dds, dds, call.name) && dds.readers == s.dds.readers
            && t.sub == At(s, call.name).sub
  {
    hide InUse, PlaceTopic;
    var n, t := call.name, At(s, call.name);
    PlacedTopic(n, t.dataTopic, s.dds, Effective(s, call.bound), ch.deletes, ch.topic);
    if t.sub.dataReader.Some? { PlacedSame(n, t.dataTopic, s.dds, Effective(s, call.bound), ch.deletes, ch.topic); }
  }

  lemma PlacedSame(n: Name, was: Option<Id>, dds: Dds, bound: nat, deletes: bool, spare: Option<Id>)
    requires was.Some? && was.value in dds.topics && dds.topics[was.value].bound == bound
    ensures PlaceTopic(n, was, dds, bound, deletes, spare) == Placed(was, dds, true)
  {
  }

  lemma DeclaredData(topics: Topics, n: Name, t: Topic, dds: Dds, dds': Dds, listeners: map<Id, Owner>, apps: Apps)
    requires ReadersOk(topics, dds, listeners, apps) && ListenersOk(topics, dds, listeners, apps) && Extends(dds, dds', n)
    requires n in topics && t.sub.dataReader == topics[n].sub.dataReader && t.sub.listener == topics[n].sub.listener
    requires dds'.readers == dds.readers
    ensures ReadersOk(topics[n := t], dds', listeners, apps) && ListenersOk(topics[n := t], dds', listeners, apps)
  {
    hide CarriedReader, CarriedListener;
    forall d | d in dds'.readers
      ensures ReaderOk(d, dds'.readers[d], topics[n := t], dds'.topics, listeners, apps)
    {
      assert ReaderOk(d, dds.readers[d], topics, dds.topics, listeners, apps);
      assert InUse(dds, dds.readers[d].topic);
    }
  }

  lemma DeclaresAnew(s: State, tid: Tid, call: Call, ch: DeclareChoice)
    requires Inv(s) && tid in s.apps && s.apps[tid] == InSchema(call, Body) && call.Create?
    requires At(s, call.name).pub.writer.None? && !HeldElsewhere(s, At(s, call.name), Effective(s, call.bound))
    requires ch.writer.Some? ==> ch.writer.value !in s.dds.writers
    ensures Inv(DeclareTopic(s, tid, call, ch))
  {
    hide DataSidesOk, ChannelsOk, ArrivalsOk, RegistryOk, SchemaReadersOk, ReadersOk, ListenersOk, StagesOk, LocksOk, UsersOk,
      DataSideOk, ChannelOk, Extends, PlaceTopic;
    BodyStage(s, tid, call);
    var n := call.name;
    DeclaredTopic(s, call, ch);
    var (t', dds', ok) := Declared(s, call, ch);
    var pc := if ok then InMu(call, Announcing) else Idle;
    var s' := Goto(Put(s, n, t'), tid, pc).(schemaMu := None, dds := dds', mu := if ok then s.mu else None);
    assert s' == DeclareTopic(s, tid, call, ch);
    SameChannel(n, s.topics[n], t', s.arrivals);
    OtherSides(s.topics, n, t', s.dds, dds');
    DeclaredData(s.topics, n, t', s.dds, dds', s.listeners, s.apps);
    BodyKeeps(s, s', tid, t', pc, !ok);
  }

  // ----- the schema thread -----

  /** A topic in the registry has an open channel, and nothing is known about its schema by a data reader. */
  lemma RegisteredTopicIs(s: State, c: Id)
    requires Inv(s) && c in s.registry
    ensures var n := s.registry[c];
            && n in s.topics && At(s, n) == s.topics[n] && Open(s.topics[n]) && s.topics[n].sub.schemaReader == Some(c)
            && DataSideOk(n, s.topics[n], s.dds) && ChannelOk(n, s.topics[n], s.arrivals)
            && (s.topics[n].sub.schema.None? ==> s.topics[n].sub.dataReader.None?)
  {
    hide ArrivalsOk, SchemaReadersOk, ReadersOk, ListenersOk, StagesOk, LocksOk, UsersOk;
  }

  /** A sample changes nothing that a call waiting for `schema_mu` relies on. */
  lemma SampledStages(topics: Topics, n: Name, t: Topic, apps: Apps, mu: Option<Tid>)
    requires StagesOk(topics, apps) && UsersOk(topics, apps, mu) && n in topics && Open(topics[n]) && Open(t)
    requires t.sub.watches == topics[n].sub.watches && t.sub.listener == topics[n].sub.listener && t.pub == topics[n].pub
    ensures StagesOk(topics[n := t], apps) && UsersOk(topics[n := t], apps, mu)
  {
    hide Changing;
    forall tid | tid in apps
      ensures StageOk(topics[n := t], apps[tid])
    {
      assert StageOk(topics, apps[tid]);
    }
  }

  /** A sample that settles its topic's arrival. */
  lemma SampleKeeps(s: State, s': State, c: Id, t: Topic, o: Outcome)
    requires Inv(s) && c in s.registry && s.schemaThread.Serving? && o != Pending && !t.sub.resolver
    requires s' == s.(topics := s.topics[s.registry[c] := t], dds := s'.dds,
                      arrivals := Settle(s.arrivals, At(s, s.registry[c]), o), schemaThread := s'.schemaThread)
    requires s'.schemaThread.Serving?
    requires DataSidesOk(s'.topics, s'.dds) && ChannelOk(s.registry[c], t, s'.arrivals)
    requires ReadersOk(s'.topics, s'.dds, s.listeners, s.apps) && ListenersOk(s'.topics, s'.dds, s.listeners, s.apps)
    requires var u := At(s, s.registry[c]);
             && t.sub.schemaReader == u.sub.schemaReader && t.sub.watches == u.sub.watches
             && t.sub.listener == u.sub.listener && t.pub == u.pub
    ensures Inv(s')
  {
    hide DataSidesOk, ChannelsOk, ArrivalsOk, RegistryOk, SchemaReadersOk, ReadersOk, ListenersOk, StagesOk, UsersOk,
      StageOk, DataSideOk, ChannelOk, Changing, Settle;
    var n := s.registry[c];
    RegisteredTopicIs(s, c);
    SettledChannels(s.topics, n, t, s.arrivals, o);
    SettledArrivals(s.topics, n, t, s.arrivals, o);
    SameRegistry(s.topics, n, t, s.registry);
    SampledStages(s.topics, n, t, s.apps, s.mu);
  }

  lemma BadSampleKeeps(s: State, c: Id)
    requires Inv(s) && c in s.registry && s.schemaThread.Serving? && At(s, s.registry[c]).sub.schema.None?
    ensures var n, t := s.registry[c], At(s, s.registry[c]);
            Inv(Put(s, n, t.(sub := t.sub.(resolver := false)))
                  .(arrivals := Settle(s.arrivals, t, Failed), schemaThread := Serving(s.schemaThread.active - {c})))
  {
    hide DataSidesOk, ChannelsOk, ArrivalsOk, RegistryOk, SchemaReadersOk, ReadersOk, ListenersOk, StagesOk, LocksOk, UsersOk;
    RegisteredTopicIs(s, c);
    var n, t := s.registry[c], s.topics[s.registry[c]];
    var t' := t.(sub := t.sub.(resolver := false));
    SameDataSide(n, t, t', s.dds);
    OneDataSide(s.topics, n, t', s.dds);
    TouchedData(s.topics, n, t', s);
    SampleKeeps(s, Put(s, n, t').(arrivals := Settle(s.arrivals, t, Failed), schemaThread := Serving(s.schemaThread.active - {c})),
                c, t', Failed);
  }

  lemma GoodSampleKeeps(s: State, c: Id, schema: nat, bound: nat)
    requires Inv(s) && c in s.registry && s.schemaThread.Serving? && At(s, s.registry[c]).sub.schema.None?
    requires At(s, s.registry[c]).sub.listener.None?
    ensures var n, t := s.registry[c], At(s, s.registry[c]);
            Inv(Put(s, n, t.(sub := t.sub.(schema := Some(schema), bound := bound, resolver := false)))
                  .(arrivals := Settle(s.arrivals, t, Arrived(schema))))
  {
    hide DataSidesOk, ChannelsOk, ArrivalsOk, RegistryOk, SchemaReadersOk, ReadersOk, ListenersOk, StagesOk, LocksOk, UsersOk;
    RegisteredTopicIs(s, c);
    var n, t := s.registry[c], s.topics[s.registry[c]];
    var t' := t.(sub := t.sub.(schema := Some(schema), bound := bound, resolver := false));
    assert DataSideOk(n, t', s.dds);
    OneDataSide(s.topics, n, t', s.dds);
    TouchedData(s.topics, n, t', s);
    SampleKeeps(s, Put(s, n, t').(arrivals := Settle(s.arrivals, t, Arrived(schema))), c, t', Arrived(schema));
  }

  lemma OpeningSampleKeeps(s: State, c: Id, schema: nat, bound: nat, ch: OpenChoice)
    requires Inv(s) && c in s.registry && s.schemaThread.Serving? && At(s, s.registry[c]).sub.schema.None?
    requires At(s, s.registry[c]).sub.listener.Some?
    ensures var n, t := s.registry[c], At(s, s.registry[c]);
            var o := OpenDataReader(n, t.(sub := t.sub.(schema := Some(schema), bound := bound)), s.dds, ch);
            Inv(Put(s, n, o.topic.(sub := o.topic.sub.(resolver := false)))
                  .(dds := o.dds, arrivals := Settle(s.arrivals, t, if o.ok then Arrived(schema) else Failed)))
  {
    hide DataSidesOk, ChannelsOk, ArrivalsOk, RegistryOk, SchemaReadersOk, ReadersOk, ListenersOk, StagesOk, LocksOk, UsersOk,
      OpenDataReader, Extends;
    RegisteredTopicIs(s, c);
    var n, t := s.registry[c], s.topics[s.registry[c]];
    var t1 := t.(sub := t.sub.(schema := Some(schema), bound := bound));
    assert DataSideOk(n, t1, s.dds);
    var o := OpenDataReader(n, t1, s.dds, ch);
    OpenedReader(n, t1, s.dds, ch);
    var t' := o.topic.(sub := o.topic.sub.(resolver := false));
    var outcome := if o.ok then Arrived(schema) else Failed;
    assert ChannelOk(n, t', Settle(s.arrivals, t, outcome));
    SameDataSide(n, o.topic, t', o.dds);
    hide DataSideOk, ChannelOk, Settle;
    OtherSides(s.topics, n, t', s.dds, o.dds);
    ListenedData(s.topics, n, t', s.dds, o.dds, s.listeners, s.listeners, s.apps);
    SampleKeeps(s, Put(s, n, t').(dds := o.dds, arrivals := Settle(s.arrivals, t, outcome)), c, t', outcome);
  }

  lemma ReceiveKeeps(s: State, c: Id, sample: Sample, ch: OpenChoice)
    requires Inv(s) && c in s.registry && s.schemaThread.Serving?
    ensures Inv(HandleSample(s, c, sample, ch))
  {
    hide Inv, OpenDataReader;
    var t := At(s, s.registry[c]);
    RegisteredTopicIs(s, c);
    if !sample.valid || t.sub.schema.Some? {
    } else if !sample.decodes || !IsPayloadBound(sample.bound) {
      BadSampleKeeps(s, c);
    } else if t.sub.listener.Some? {
      OpeningSampleKeeps(s, c, sample.schema, sample.bound, ch);
    } else {
      GoodSampleKeeps(s, c, sample.schema, sample.bound);
    }
  }

  lemma SchemaThreadKeeps(s: State, step: Step)
    requires Inv(s) && Enabled(s, step) && (step.Wake? || step.SchemaLock? || step.Forget? || step.SchemaUnlock?)
    ensures Inv(Apply(s, step))
  {
    hide DataSidesOk, ChannelsOk, ArrivalsOk, RegistryOk, SchemaReadersOk, ReadersOk, ListenersOk, StagesOk, UsersOk;
  }

  // ----- every step -----

  lemma HolderIs(s: State, tid: Tid)
    requires Inv(s) && tid in s.apps && HoldsMu(s.apps[tid])
    ensures s.mu == Some(tid)
  {
    hide DataSidesOk, ChannelsOk, ArrivalsOk, RegistryOk, SchemaReadersOk, ReadersOk, ListenersOk, StagesOk, UsersOk;
  }

  /** Whatever the threads and DDS do, one step at a time, the invariant holds. */
  lemma StepKeeps(s: State, step: Step)
    requires Inv(s) && Enabled(s, step)
    ensures Inv(Apply(s, step))
  {
    hide Inv, BeginCall, RegisterChannel, ListenOn, TakeReader, DeclareTopic, AnnounceSchema, CloseChannel, HandleSample;
    match step
    case Invoke(tid, call) => InvokeKeeps(s, tid, call);
    case LockMu(tid) => LockMuKeeps(s, tid);
    case LockShared(tid) => ShareKeeps(s, tid);
    case Unshare(tid) => UnshareKeeps(s, tid);
    case Begin(tid, ch) =>
      HolderIs(s, tid);
      BeginKeeps(s, tid, s.apps[tid].call, ch);
    case LockSchema(tid) => LockSchemaKeeps(s, tid);
    case Register(tid, a) => RegisterKeeps(s, tid, s.apps[tid].call, s.apps[tid].stage.reader, a);
    case CountWatch(tid) => CountKeeps(s, tid);
    case Listen(tid, l, ch) => ListenKeeps(s, tid, s.apps[tid].call, l, ch);
    case Take(tid) => TakeKeeps(s, tid, s.apps[tid].call);
    case Declare(tid, ch) => DeclareKeeps(s, tid, s.apps[tid].call, ch);
    case Announce(tid, ch) =>
      HolderIs(s, tid);
      AnnounceKeeps(s, tid, s.apps[tid].call, ch);
    case Close(tid) => CloseKeeps(s, tid, s.apps[tid].call, s.apps[tid].stage);
    case DeleteSchemaReader(tid) => DeleteSchemaReaderKeeps(s, tid);
    case DeleteDataReader(tid) => DeleteDataReaderKeeps(s, tid);
    case DropListener(tid) => DropListenerKeeps(s, tid);
    case Receive(c, sample, ch) => ReceiveKeeps(s, c, sample, ch);
    case _ => SchemaThreadKeeps(s, step);
  }
}
