/** Nothing is leaked: every listener, reader, writer and data topic that exists is named by the topic or
    the thread that owns it, so that a provider at rest holds exactly what its topics say. */
module ProviderLeaks {
  import opened RowReader
  import opened Provider
  import opened ProviderInv
  import opened ProviderSteps
  import opened ProviderRuns
  import opened ProviderHistory

  // ----- the invariant -----

  ghost predicate ListenersOwned(topics: Topics, listeners: map<Id, Owner>, apps: Apps)
  {
    forall l | l in listeners ::
      match listeners[l]
      case ByTopic(n) => n in topics && topics[n].sub.listener == Some(l)
      case ByThread(tid) => tid in apps && CarriedListener(apps[tid]) == Some(l)
  }

  ghost predicate SchemaReadersOwned(topics: Topics, schemaReaders: map<Id, Owner>, apps: Apps)
  {
    forall c | c in schemaReaders ::
      match schemaReaders[c]
      case ByTopic(n) => n in topics && topics[n].sub.schemaReader == Some(c)
      case ByThread(tid) => tid in apps && CarriedSchema(apps[tid]) == Some(c)
  }

  ghost predicate EntitiesOwned(topics: Topics, dds: Dds)
  {
    && (forall e | e in dds.topics :: dds.topics[e].name in topics && topics[dds.topics[e].name].dataTopic == Some(e))
    && (forall w | w in dds.writers ::
          dds.writers[w] in dds.topics && topics[dds.topics[dds.writers[w]].name].pub.writer == Some(w))
  }

  ghost predicate Owned(s: State)
  {
    ListenersOwned(s.topics, s.listeners, s.apps) && SchemaReadersOwned(s.topics, s.schemaReaders, s.apps) && EntitiesOwned(s.topics, s.dds)
  }

  // ----- tables that a step leaves alone -----

  lemma SameListeners(topics: Topics, n: Name, t: Topic, listeners: map<Id, Owner>, apps: Apps, tid: Tid, pc: Pc)
    requires ListenersOwned(topics, listeners, apps) && Look(topics, n).sub.listener == t.sub.listener
    requires tid in apps && CarriedListener(apps[tid]) == CarriedListener(pc)
    ensures ListenersOwned(topics[n := t], listeners, apps[tid := pc]) && ListenersOwned(topics, listeners, apps[tid := pc])
    ensures ListenersOwned(topics[n := t], listeners, apps)
  {
    hide CarriedListener;
  }

  lemma SameSchemaReaders(topics: Topics, n: Name, t: Topic, readers: map<Id, Owner>, apps: Apps, tid: Tid, pc: Pc)
    requires SchemaReadersOwned(topics, readers, apps) && Look(topics, n).sub.schemaReader == t.sub.schemaReader
    requires tid in apps && CarriedSchema(apps[tid]) == CarriedSchema(pc)
    ensures SchemaReadersOwned(topics[n := t], readers, apps[tid := pc]) && SchemaReadersOwned(topics, readers, apps[tid := pc])
    ensures SchemaReadersOwned(topics[n := t], readers, apps)
  {
    hide CarriedSchema;
  }

  lemma SameEntities(topics: Topics, n: Name, t: Topic, dds: Dds)
    requires EntitiesOwned(topics, dds) && Look(topics, n).dataTopic == t.dataTopic && Look(topics, n).pub.writer == t.pub.writer
    ensures EntitiesOwned(topics[n := t], dds)
  {
  }

  /** The two threads carry the same things. */
  predicate SameLoad(pc: Pc, pc': Pc) { CarriedListener(pc) == CarriedListener(pc') && CarriedSchema(pc) == CarriedSchema(pc') }

  predicate SameHolds(t: Topic, t': Topic)
  {
    && t'.sub.listener == t.sub.listener && t'.sub.schemaReader == t.sub.schemaReader
    && t'.dataTopic == t.dataTopic && t'.pub.writer == t.pub.writer
  }

  /** A step that moves a thread and touches at most what nobody owns. */
  lemma Quiet(s: State, s': State, tid: Tid, pc: Pc, n: Name, t: Topic)
    requires Owned(s) && tid in s.apps && SameLoad(s.apps[tid], pc) && SameHolds(Look(s.topics, n), t)
    requires s'.topics == s.topics[n := t] || s'.topics == s.topics
    requires s'.apps == s.apps[tid := pc] && s'.listeners == s.listeners && s'.schemaReaders == s.schemaReaders && s'.dds.topics == s.dds.topics
    requires s'.dds.writers == s.dds.writers
    ensures Owned(s')
  {
    hide ListenersOwned, SchemaReadersOwned, CarriedListener, CarriedSchema;
    SameListeners(s.topics, n, t, s.listeners, s.apps, tid, pc);
    SameSchemaReaders(s.topics, n, t, s.schemaReaders, s.apps, tid, pc);
    SameEntities(s.topics, n, t, s.dds);
  }

  // ----- each step -----

  lemma LookIs(s: State, n: Name)
    ensures Look(s.topics, n) == At(s, n)
  {
  }

  /** A call that goes on or returns, having put its topic back. */
  lemma Moves(s: State, n: Name, t: Topic, tid: Tid, pc: Pc)
    requires Owned(s) && tid in s.apps && SameLoad(s.apps[tid], pc) && SameLoad(s.apps[tid], Idle) && SameHolds(At(s, n), t)
    ensures Owned(Goto(Put(s, n, t), tid, pc)) && Owned(Goto(s, tid, pc)) && Owned(Done(Put(s, n, t), tid)) && Owned(Done(s, tid))
  {
    hide Owned, SameLoad, SameHolds;
    LookIs(s, n);
    Quiet(s, Goto(Put(s, n, t), tid, pc), tid, pc, n, t);
    Quiet(s, Goto(s, tid, pc), tid, pc, n, t);
    Quiet(s, Done(Put(s, n, t), tid), tid, Idle, n, t);
    Quiet(s, Done(s, tid), tid, Idle, n, t);
  }

  lemma EnsureOwned(s: State, tid: Tid, call: Call, ch: BeginChoice)
    requires Owned(s) && tid in s.apps && s.apps[tid] == InMu(call, Start) && (ch.reader.Some? ==> ch.reader.value !in s.schemaReaders)
    ensures Owned(EnsureChannel(s, tid, call, ch))
  {
    var n, t := call.name, At(s, call.name);
    var t1 := t.(schemaTopic := true);
    LoadOf(call);
    assert SameHolds(t, t) && SameHolds(t, t1);
    hide Owned, Open, Put, Goto, Done, SameLoad, SameHolds;
    Moves(s, n, t, tid, if call.Subscribe? then WantSchema(call, Body) else InMu(call, Count));
    Moves(s, n, t, tid, WantSchema(call, Channel(None)));
    Moves(s, n, t1, tid, Idle);
    if ch.reader.Some? {
      var c := ch.reader.value;
      WithReader(s, n, t1, tid, WantSchema(call, Channel(Some(c))), c);
      LookIs(s, n);
      NewSchemaReader(s, Goto(Put(s, n, t1), tid, WantSchema(call, Channel(Some(c)))).(schemaReaders := s.schemaReaders[c := ByThread(tid)]),
                      tid, call, c, t1);
    }
  }

  lemma LoadOf(call: Call)
    ensures var pc := InMu(call, Start);
            && SameLoad(pc, Idle) && SameLoad(pc, WantSchema(call, Body)) && SameLoad(pc, InMu(call, Count))
            && SameLoad(pc, WantSchema(call, Channel(None))) && SameLoad(pc, WantSchema(call, Closing(None, None)))
  {
  }

  lemma WithReader(s: State, n: Name, t: Topic, tid: Tid, pc: Pc, c: Id)
    ensures var s1 := Put(s, n, t);
            var s' := Goto(s1, tid, pc).(schemaReaders := s.schemaReaders[c := ByThread(tid)]);
            && s1.schemaReaders == s.schemaReaders && s'.topics == s.topics[n := t] && s'.apps == s.apps[tid := pc]
            && s'.listeners == s.listeners && s'.schemaReaders == s.schemaReaders[c := ByThread(tid)] && s'.dds == s.dds
  {
  }

  lemma NewSchemaReader(s: State, s': State, tid: Tid, call: Call, c: Id, t: Topic)
    requires Owned(s) && tid in s.apps && s.apps[tid] == InMu(call, Start) && c !in s.schemaReaders && SameHolds(Look(s.topics, call.name), t)
    requires s'.topics == s.topics[call.name := t] && s'.apps == s.apps[tid := WantSchema(call, Channel(Some(c)))]
    requires s'.listeners == s.listeners && s'.schemaReaders == s.schemaReaders[c := ByThread(tid)] && s'.dds == s.dds
    ensures Owned(s')
  {
    SameListeners(s.topics, call.name, t, s.listeners, s.apps, tid, WantSchema(call, Channel(Some(c))));
    SameEntities(s.topics, call.name, t, s.dds);
    hide ListenersOwned, EntitiesOwned, CarriedListener;
  }

  lemma BeginOwned(s: State, tid: Tid, ch: BeginChoice)
    requires Owned(s) && Enabled(s, Begin(tid, ch))
    ensures Owned(BeginCall(s, tid, s.apps[tid].call, ch))
  {
    var call := s.apps[tid].call;
    var n, t := call.name, At(s, call.name);
    var t' := if t.sub.watches == 0 then t else t.(sub := t.sub.(watches := t.sub.watches - 1));
    LoadOf(call);
    assert SameHolds(t, t) && SameHolds(t, t');
    hide Owned, EnsureChannel, Put, Goto, Done, SameLoad, SameHolds;
    Moves(s, n, t, tid, WantSchema(call, Body));
    Moves(s, n, t', tid, WantSchema(call, Closing(None, None)));
    if call.SubscribeSchema? || call.Subscribe? { EnsureOwned(s, tid, call, ch); }
  }

  lemma RegisterOwned(s: State, tid: Tid, a: Id)
    requires Inv(s) && Owned(s) && Enabled(s, Register(tid, a))
    ensures Owned(Apply(s, Register(tid, a)))
  {
    hide Inv, Open, DataSideOk, FirstOutcome;
    var call, reader := s.apps[tid].call, s.apps[tid].stage.reader;
    ChannelStage(s, tid, call, reader);
    NotOpen(s, call.name);
    var n, t, s' := call.name, s.topics[call.name], RegisterChannel(s, tid, call, reader, a);
    var t', pc := WithChannel(t, reader, a), if call.Subscribe? then WantSchema(call, Body) else InMu(call, Count);
    assert s'.topics == s.topics[n := t'] && s'.apps == s.apps[tid := pc] && s'.listeners == s.listeners && s'.dds == s.dds;
    if reader.None? {
      assert SameHolds(t, t');
      Quiet(s, s', tid, pc, n, t');
    } else {
      SameListeners(s.topics, n, t', s.listeners, s.apps, tid, pc);
      SameEntities(s.topics, n, t', s.dds);
      Handed(s.topics, n, t', s.schemaReaders, s.apps, tid, pc, reader.value);
    }
  }

  lemma NotOpen(s: State, n: Name)
    requires n in s.topics && !Open(s.topics[n])
    ensures s.topics[n].sub.schemaReader.None?
  {
  }

  /** A schema reader passes from a thread's locals to a topic that has none. */
  lemma Handed(topics: Topics, n: Name, t: Topic, readers: map<Id, Owner>, apps: Apps, tid: Tid, pc: Pc, c: Id)
    requires SchemaReadersOwned(topics, readers, apps) && n in topics && topics[n].sub.schemaReader.None? && t.sub.schemaReader == Some(c)
    requires tid in apps && CarriedSchema(apps[tid]) == Some(c)
    ensures SchemaReadersOwned(topics[n := t], readers[c := ByTopic(n)], apps[tid := pc])
  {
    hide CarriedSchema;
  }

  // ----- data topics, readers and writers -----

  lemma PlacedOwned(topics: Topics, n: Name, dds: Dds, bound: nat, deletes: bool, spare: Option<Id>, t': Topic)
    requires EntitiesOwned(topics, dds) && n in topics && topics[n].pub.writer.None?
    requires topics[n].dataTopic.Some? ==> topics[n].dataTopic.value in dds.topics && dds.topics[topics[n].dataTopic.value].name == n
    requires var p := PlaceTopic(n, topics[n].dataTopic, dds, bound, deletes, spare); t'.dataTopic == p.topic && t'.pub.writer.None?
    ensures EntitiesOwned(topics[n := t'], PlaceTopic(n, topics[n].dataTopic, dds, bound, deletes, spare).dds)
  {
    var was, p := topics[n].dataTopic, PlaceTopic(n, topics[n].dataTopic, dds, bound, deletes, spare);
    forall w | w in dds.writers
      ensures dds.topics[dds.writers[w]].name != n
      ensures dds.writers[w] in p.dds.topics && p.dds.topics[dds.writers[w]] == dds.topics[dds.writers[w]]
    {
      assert InUse(dds, dds.writers[w]);
    }
    hide InUse;
    assert p.dds.writers == dds.writers;
    forall e | e in p.dds.topics
      ensures p.dds.topics[e].name in topics[n := t'] && topics[n := t'][p.dds.topics[e].name].dataTopic == Some(e)
    {
      if e in dds.topics { assert topics[dds.topics[e].name].dataTopic == Some(e); }
    }
  }

  lemma OpenedOwned(topics: Topics, n: Name, t1: Topic, dds: Dds, ch: OpenChoice, t': Topic)
    requires EntitiesOwned(topics, dds) && n in topics && t1.sub.listener.Some? && t1.pub == topics[n].pub && t1.dataTopic == topics[n].dataTopic
    requires DataSideOk(n, topics[n], dds)
    requires var o := OpenDataReader(n, t1, dds, ch); t'.dataTopic == o.topic.dataTopic && t'.pub.writer == t1.pub.writer
    ensures EntitiesOwned(topics[n := t'], OpenDataReader(n, t1, dds, ch).dds)
  {
    if t1.dataTopic.Some? && t1.pub.writer.Some? {
      SameEntities(topics, n, t', dds);
    } else {
      PlacedOwned(topics, n, dds, t1.sub.bound, ch.deletes, ch.topic, t');
    }
    hide PlaceTopic;
  }

  lemma ListenOwned(s: State, tid: Tid, l: Id, ch: OpenChoice)
    requires Inv(s) && Owned(s) && Enabled(s, Listen(tid, l, ch))
    ensures Owned(ListenOn(s, tid, s.apps[tid].call, l, ch))
  {
    hide Inv, OpenDataReader, Changing, Open, ChannelOk, DataSideOk, Extends, Owned, EntitiesOwned, Put, Goto, Done, SameLoad;
    var call := s.apps[tid].call;
    BodyStage(s, tid, call);
    BodyLoad(call);
    var s', n, t := ListenOn(s, tid, call, l, ch), call.name, At(s, call.name);
    var t1 := t.(sub := t.sub.(listener := Some(l), profile := call.profile));
    if t.sub.schema.None? {
      Ended(s, n, t1, tid, Idle, s.dds);
      SameOwned(s, n, t1);
      Joined(s, s', tid, n, t1, l);
    } else {
      NoReaderYet(n, t, s.dds);
      ListeningSide(n, t, t1, s.dds);
      OpenedReader(n, t1, s.dds, ch);
      var o := OpenDataReader(n, t1, s.dds, ch);
      if o.ok {
        Ended(s, n, o.topic, tid, Idle, o.dds);
        Opens(s, n, t1, ch, o.topic);
        Joined(s, s', tid, n, o.topic, l);
      } else {
        var t' := o.topic.(sub := o.topic.sub.(listener := None));
        var pc := if t.sub.watches == 0 then WantSchema(call, Closing(None, None)) else Idle;
        Ended(s, n, t', tid, pc, o.dds);
        Opens(s, n, t1, ch, t');
        Assembled(s, s', tid, pc, n, t');
      }
    }
  }

  lemma Opens(s: State, n: Name, t1: Topic, ch: OpenChoice, t': Topic)
    requires Owned(s) && n in s.topics && t1.sub.listener.Some? && t1.pub == s.topics[n].pub && t1.dataTopic == s.topics[n].dataTopic
    requires DataSideOk(n, s.topics[n], s.dds)
    requires var o := OpenDataReader(n, t1, s.dds, ch); t'.dataTopic == o.topic.dataTopic && t'.pub.writer == t1.pub.writer
    ensures EntitiesOwned(s.topics[n := t'], OpenDataReader(n, t1, s.dds, ch).dds)
  {
    hide EntitiesOwned, OpenDataReader, DataSideOk;
    OpenedOwned(s.topics, n, t1, s.dds, ch, t');
  }

  lemma SameOwned(s: State, n: Name, t: Topic)
    requires Owned(s) && n in s.topics && t.dataTopic == s.topics[n].dataTopic && t.pub == s.topics[n].pub
    ensures EntitiesOwned(s.topics[n := t], s.dds)
  {
    hide EntitiesOwned;
    SameEntities(s.topics, n, t, s.dds);
  }

  /** How the critical section of `Subscribe` ends. */
  lemma Ended(s: State, n: Name, t: Topic, tid: Tid, pc: Pc, dds: Dds)
    ensures var s1 := Put(s, n, t).(schemaMu := None, dds := dds);
            && Goto(s1, tid, pc).topics == Done(s1, tid).topics == Done(Put(s, n, t), tid).topics == s.topics[n := t]
            && Goto(s1, tid, pc).apps == s.apps[tid := pc] && Done(s1, tid).apps == Done(Put(s, n, t), tid).apps == s.apps[tid := Idle]
            && Goto(s1, tid, pc).dds == Done(s1, tid).dds == dds && Done(Put(s, n, t), tid).dds == s.dds
            && Goto(s1, tid, pc).listeners == Done(s1, tid).listeners == s.listeners
            && Goto(s1, tid, pc).schemaReaders == Done(s1, tid).schemaReaders == Done(Put(s, n, t), tid).schemaReaders == s.schemaReaders
  {
  }

  /** A new listener joins a topic that has none, and the call returns. */
  lemma Joined(s: State, s': State, tid: Tid, n: Name, t: Topic, l: Id)
    requires Owned(s) && n in s.topics && s.topics[n].sub.listener.None? && t.sub.listener == Some(l) && l !in s.listeners
    requires t.sub.schemaReader == s.topics[n].sub.schemaReader && tid in s.apps && SameLoad(s.apps[tid], Idle)
    requires s'.topics == s.topics[n := t] && s'.apps == s.apps[tid := Idle] && s'.listeners == s.listeners[l := ByTopic(n)]
    requires s'.schemaReaders == s.schemaReaders && EntitiesOwned(s'.topics, s'.dds)
    ensures Owned(s')
  {
    hide EntitiesOwned, ListenersOwned, SchemaReadersOwned, CarriedListener, CarriedSchema;
    SameSchemaReaders(s.topics, n, t, s.schemaReaders, s.apps, tid, Idle);
    Added(s.topics, n, t, s.listeners, s.apps, tid, Idle, l);
  }

  /** A listener that is new to a topic without one. */
  lemma Added(topics: Topics, n: Name, t: Topic, listeners: map<Id, Owner>, apps: Apps, tid: Tid, pc: Pc, l: Id)
    requires ListenersOwned(topics, listeners, apps) && n in topics && topics[n].sub.listener.None? && t.sub.listener == Some(l)
    requires tid in apps && CarriedListener(apps[tid]) == CarriedListener(pc) && l !in listeners
    ensures ListenersOwned(topics[n := t], listeners[l := ByTopic(n)], apps[tid := pc])
  {
    hide CarriedListener;
  }

  lemma TakeOwned(s: State, tid: Tid)
    requires Inv(s) && Owned(s) && Enabled(s, Take(tid))
    ensures Owned(TakeReader(s, tid, s.apps[tid].call))
  {
    hide Inv, Changing, Open, ChannelOk, DataSideOk, EntitiesOwned, SchemaReadersOwned, ListenersOwned, TakeReader;
    var call := s.apps[tid].call;
    BodyStage(s, tid, call);
    TakenParts(s, tid, call);
    TakenFrame(s, tid, call);
    var s', n, t := TakeReader(s, tid, call), call.name, s.topics[call.name];
    SameEntities(s.topics, n, s'.topics[n], s.dds);
    SameSchemaReaders(s.topics, n, s'.topics[n], s.schemaReaders, s.apps, tid, s'.apps[tid]);
    Taken(s.topics, n, s'.topics[n], s.listeners, s.apps, tid, s'.apps[tid]);
  }

  /** A topic's listener passes to the thread that tears it down. */
  lemma Taken(topics: Topics, n: Name, t: Topic, listeners: map<Id, Owner>, apps: Apps, tid: Tid, pc: Pc)
    requires ListenersOwned(topics, listeners, apps) && n in topics && t.sub.listener.None?
    requires tid in apps && CarriedListener(apps[tid]).None? && CarriedListener(pc) == topics[n].sub.listener
    ensures var l := topics[n].sub.listener;
            ListenersOwned(topics[n := t], if l.Some? then listeners[l.value := ByThread(tid)] else listeners, apps[tid := pc])
  {
    hide CarriedListener;
  }

  lemma DeclareOwned(s: State, tid: Tid, ch: DeclareChoice)
    requires Inv(s) && Owned(s) && Enabled(s, Declare(tid, ch))
    ensures Owned(DeclareTopic(s, tid, s.apps[tid].call, ch))
  {
    hide Inv, Changing, Open, ChannelOk, DataSideOk, PlaceTopic, Conflicts, HeldElsewhere, Owned, Put, Goto, Done, SameLoad, SameHolds;
    var call := s.apps[tid].call;
    BodyStage(s, tid, call);
    BodyLoad(call);
    var s', n, t := DeclareTopic(s, tid, call, ch), call.name, s.topics[call.name];
    if t.pub.writer.Some? || HeldElsewhere(s, t, Effective(s, call.bound)) {
      Itself(t);
      Moves(s, n, t, tid, InMu(call, Announcing));
      var s1 := if t.pub.writer.Some? && !Conflicts(t, call) then Goto(s, tid, InMu(call, Announcing)) else Done(s, tid);
      SameTables(s1, s');
    } else {
      DeclaresOwned(s, tid, call, ch);
    }
  }

  lemma BodyLoad(call: Call)
    ensures var pc := InSchema(call, Body);
            SameLoad(pc, Idle) && SameLoad(pc, InMu(call, Announcing)) && SameLoad(pc, WantSchema(call, Closing(None, None)))
  {
  }

  lemma Itself(t: Topic)
    ensures SameHolds(t, t)
  {
  }

  /** A step that moves a thread and changes one topic and the DDS entities behind it. */
  lemma Assembled(s: State, s': State, tid: Tid, pc: Pc, n: Name, t: Topic)
    requires Owned(s) && n in s.topics && t.sub.listener == s.topics[n].sub.listener && t.sub.schemaReader == s.topics[n].sub.schemaReader
    requires tid in s.apps && SameLoad(s.apps[tid], pc) && s'.topics == s.topics[n := t] && s'.apps == s.apps[tid := pc]
    requires s'.listeners == s.listeners && s'.schemaReaders == s.schemaReaders && EntitiesOwned(s'.topics, s'.dds)
    ensures Owned(s')
  {
    hide EntitiesOwned, ListenersOwned, SchemaReadersOwned, CarriedListener, CarriedSchema;
    SameListeners(s.topics, n, t, s.listeners, s.apps, tid, pc);
    SameSchemaReaders(s.topics, n, t, s.schemaReaders, s.apps, tid, pc);
  }

  lemma DeclaresOwned(s: State, tid: Tid, call: Call, ch: DeclareChoice)
    requires Owned(s) && tid in s.apps && s.apps[tid] == InSchema(call, Body) && call.Create? && call.name in s.topics
    requires DataSideOk(call.name, s.topics[call.name], s.dds) && s.topics[call.name].pub.writer.None?
    requires !HeldElsewhere(s, s.topics[call.name], Effective(s, call.bound)) && (ch.writer.Some? ==> ch.writer.value !in s.dds.writers)
    ensures Owned(DeclareTopic(s, tid, call, ch))
  {
    hide PlaceTopic, HeldElsewhere, Owned, EntitiesOwned, SameLoad;
    BodyLoad(call);
    DeclaredOwned(s, call, ch);
    var (t', dds', ok) := Declared(s, call, ch);
    var pc := if ok then InMu(call, Announcing) else Idle;
    var s' := Goto(Put(s, call.name, t'), tid, pc).(schemaMu := None, dds := dds', mu := if ok then s.mu else None);
    assert s' == DeclareTopic(s, tid, call, ch);
    Assembled(s, s', tid, pc, call.name, t');
  }

  lemma DeclaredOwned(s: State, call: Call, ch: DeclareChoice)
    requires Owned(s) && call.Create? && call.name in s.topics && s.topics[call.name].pub.writer.None?
    requires DataSideOk(call.name, s.topics[call.name], s.dds) && (ch.writer.Some? ==> ch.writer.value !in s.dds.writers)
    ensures var (t', dds', _) := Declared(s, call, ch); EntitiesOwned(s.topics[call.name := t'], dds')
  {
    hide PlaceTopic, EntitiesOwned, ListenersOwned, SchemaReadersOwned, Extends, Effective;
    var n, t, own := call.name, s.topics[call.name], Effective(s, call.bound);
    var p := PlaceTopic(n, t.dataTopic, s.dds, own, ch.deletes, ch.topic);
    var t1 := t.(dataTopic := p.topic);
    PlacedOwned(s.topics, n, s.dds, own, ch.deletes, ch.topic, t1);
    PlacedTopic(n, t.dataTopic, s.dds, own, ch.deletes, ch.topic);
    hide DataSideOk;
    if p.ok && p.topic.Some? && ch.writer.Some? {
      Written(s.topics, n, t1, t1.(pub := t1.pub.(writer := ch.writer, bound := own, profile := call.profile)), p.dds, ch.writer.value);
    }
  }

  lemma Written(topics: Topics, n: Name, t1: Topic, t': Topic, dds: Dds, w: Id)
    requires EntitiesOwned(topics[n := t1], dds) && t1.dataTopic.Some? && t1.dataTopic.value in dds.topics && w !in dds.writers
    requires dds.topics[t1.dataTopic.value].name == n && t1.pub.writer.None? && t'.dataTopic == t1.dataTopic && t'.pub.writer == Some(w)
    ensures EntitiesOwned(topics[n := t'], dds.(writers := dds.writers[w := t1.dataTopic.value]))
  {
  }

  lemma AnnounceOwned(s: State, tid: Tid, ch: AnnounceChoice)
    requires Owned(s) && Enabled(s, Announce(tid, ch))
    ensures Owned(AnnounceSchema(s, tid, s.apps[tid].call, ch))
  {
    var call := s.apps[tid].call;
    var n, t := call.name, At(s, call.name);
    var t1 := t.(schemaTopic := true);
    var t2 := t1.(pub := t1.pub.(schemaWriter := true, schema := call.schema));
    assert SameLoad(s.apps[tid], Idle) && SameHolds(t, t1) && SameHolds(t, t2);
    hide Owned, Put, Goto, Done, SameLoad, SameHolds;
    Moves(s, n, t1, tid, Idle);
    Moves(s, n, t2, tid, Idle);
  }

  lemma CloseOwned(s: State, tid: Tid)
    requires Inv(s) && Owned(s) && Enabled(s, Close(tid))
    ensures Owned(Apply(s, Close(tid)))
  {
    hide Inv, Settle, DataSideOk, ChannelOk, EntitiesOwned, ListenersOwned;
    var call, stage := s.apps[tid].call, s.apps[tid].stage;
    ClosingStage(s, tid, call, stage);
    var s', n, t := CloseChannel(s, tid, call.name, stage), call.name, s.topics[call.name];
    SameEntities(s.topics, n, s'.topics[n], s.dds);
    SameListeners(s.topics, n, s'.topics[n], s.listeners, s.apps, tid, s'.apps[tid]);
  }

  lemma SchemaReaderGone(s: State, tid: Tid)
    requires Owned(s) && Enabled(s, DeleteSchemaReader(tid))
    ensures Owned(Apply(s, DeleteSchemaReader(tid)))
  {
    hide EntitiesOwned;
  }

  lemma DataReaderGone(s: State, tid: Tid)
    requires Owned(s) && Enabled(s, DeleteDataReader(tid))
    ensures Owned(Apply(s, DeleteDataReader(tid)))
  {
    hide Owned;
    Quiet(s, Apply(s, DeleteDataReader(tid)), tid, s.apps[tid].(dataReader := None), 0, Look(s.topics, 0));
  }

  lemma ListenerGone(s: State, tid: Tid)
    requires Owned(s) && Enabled(s, DropListener(tid))
    ensures Owned(Apply(s, DropListener(tid)))
  {
    hide EntitiesOwned;
  }

  /** A sample that changes one topic's state and perhaps opens its data reader. */
  lemma Sampled(s: State, s': State, n: Name, t: Topic)
    requires Owned(s) && n in s.topics && t.sub.listener == s.topics[n].sub.listener && t.sub.schemaReader == s.topics[n].sub.schemaReader
    requires s'.topics == s.topics[n := t] && s'.apps == s.apps && s'.listeners == s.listeners && s'.schemaReaders == s.schemaReaders
    requires EntitiesOwned(s'.topics, s'.dds)
    ensures Owned(s')
  {
    hide EntitiesOwned, CarriedListener, CarriedSchema;
  }

  lemma ReceiveOwned(s: State, c: Id, sample: Sample, ch: OpenChoice)
    requires Inv(s) && Owned(s) && c in s.registry && s.schemaThread.Serving?
    ensures Owned(HandleSample(s, c, sample, ch))
  {
    hide Inv, OpenDataReader, Settle, Open, ChannelOk, Extends, EntitiesOwned, ListenersOwned, SchemaReadersOwned, DataSideOk, IsPayloadBound;
    RegisteredTopicIs(s, c);
    var s', n, t := HandleSample(s, c, sample, ch), s.registry[c], s.topics[s.registry[c]];
    var t1 := t.(sub := t.sub.(schema := Some(sample.schema), bound := sample.bound));
    if !sample.valid || t.sub.schema.Some? {
    } else if sample.decodes && IsPayloadBound(sample.bound) && t.sub.listener.Some? {
      ListeningSide(n, t, t1, s.dds);
      OpenedReader(n, t1, s.dds, ch);
      var o := OpenDataReader(n, t1, s.dds, ch);
      OpenedOwned(s.topics, n, t1, s.dds, ch, o.topic.(sub := o.topic.sub.(resolver := false)));
      Sampled(s, s', n, o.topic.(sub := o.topic.sub.(resolver := false)));
    } else {
      SameEntities(s.topics, n, s'.topics[n], s.dds);
      Sampled(s, s', n, s'.topics[n]);
    }
  }

  lemma EntryOwned(s: State, step: Step)
    requires Owned(s) && Enabled(s, step) && (step.Invoke? || step.LockMu? || step.LockShared? || step.Unshare? || step.LockSchema?)
    ensures Owned(Apply(s, step))
  {
    hide Owned, BeginCall, RegisterChannel, ListenOn, TakeReader, DeclareTopic, AnnounceSchema, CloseChannel, HandleSample;
    var pc := match step
              case Invoke(_, call) => WantMu(call)
              case LockMu(tid) => InMu(s.apps[tid].call, Start)
              case LockShared(tid) => Sharing(s.apps[tid].call)
              case LockSchema(tid) => InSchema(s.apps[tid].call, s.apps[tid].stage)
              case _ => Idle;
    Quiet(s, Apply(s, step), step.tid, pc, 0, Look(s.topics, 0));
  }

  lemma CountOwned(s: State, tid: Tid)
    requires Owned(s) && Enabled(s, CountWatch(tid))
    ensures Owned(Apply(s, CountWatch(tid)))
  {
    hide Owned;
    var n := s.apps[tid].call.name;
    LookIs(s, n);
    Quiet(s, Apply(s, CountWatch(tid)), tid, Idle, n, At(s, n).(sub := At(s, n).sub.(watches := At(s, n).sub.watches + 1)));
  }

  lemma StepOwned(s: State, step: Step)
    requires Inv(s) && Owned(s) && Enabled(s, step)
    ensures Owned(Apply(s, step))
  {
    hide Inv, Owned, BeginCall, RegisterChannel, ListenOn, TakeReader, DeclareTopic, AnnounceSchema, CloseChannel, HandleSample;
    match step
    case Invoke(_, _) => EntryOwned(s, step);
    case LockMu(_) => EntryOwned(s, step);
    case LockShared(_) => EntryOwned(s, step);
    case Unshare(_) => EntryOwned(s, step);
    case LockSchema(_) => EntryOwned(s, step);
    case CountWatch(tid) => CountOwned(s, tid);
    case Begin(tid, ch) => BeginOwned(s, tid, ch);
    case Register(tid, a) => RegisterOwned(s, tid, a);
    case Listen(tid, l, ch) => ListenOwned(s, tid, l, ch);
    case Take(tid) => TakeOwned(s, tid);
    case Declare(tid, ch) => DeclareOwned(s, tid, ch);
    case Announce(tid, ch) => AnnounceOwned(s, tid, ch);
    case Close(tid) => CloseOwned(s, tid);
    case Receive(c, sample, ch) => ReceiveOwned(s, c, sample, ch);
    case DeleteSchemaReader(tid) => SchemaReaderGone(s, tid);
    case DeleteDataReader(tid) => DataReaderGone(s, tid);
    case DropListener(tid) => ListenerGone(s, tid);
    case _ => SameTables(s, Apply(s, step));
  }

  lemma SameTables(s: State, s': State)
    requires Owned(s) && s'.topics == s.topics && s'.apps == s.apps && s'.listeners == s.listeners && s'.schemaReaders == s.schemaReaders
    requires s'.dds == s.dds
    ensures Owned(s')
  {
  }

  // ----- whole runs -----

  lemma {:induction false} RunOwned(run: seq<State>, i: nat)
    requires Run(run) && i < |run|
    ensures Owned(run[i])
    decreases i
  {
    hide Inv, Owned, Enabled, Apply, Init;
    if i == 0 {
      StartOwned(run[0]);
    } else {
      RunOwned(run, i - 1);
      RunKeeps(run, i - 1);
      assert Next(run[i - 1], run[i - 1 + 1]);
      var step :| Enabled(run[i - 1], step) && run[i] == Apply(run[i - 1], step);
      StepOwned(run[i - 1], step);
    }
  }

  lemma StartOwned(s: State)
    requires Init(s)
    ensures Owned(s)
  {
  }

  /** In every state of every run in which no call is under way, whatever exists is named by a topic, and
      named entities exist. */
  lemma RestHoldsNothingElse(run: seq<State>, i: nat)
    requires Run(run) && i < |run| && !Busy(run[i])
    ensures var s := run[i];
            && (forall l | l in s.listeners :: exists n :: n in s.topics && s.topics[n].sub.listener == Some(l))
            && (forall c | c in s.schemaReaders :: exists n :: n in s.topics && s.topics[n].sub.schemaReader == Some(c))
            && (forall d | d in s.dds.readers :: exists n :: n in s.topics && s.topics[n].sub.dataReader == Some(d))
            && (forall w | w in s.dds.writers :: exists n :: n in s.topics && s.topics[n].pub.writer == Some(w))
            && (forall e | e in s.dds.topics :: exists n :: n in s.topics && s.topics[n].dataTopic == Some(e))
  {
    RunKeeps(run, i);
    RunOwned(run, i);
    hide Run, DataSidesOk, ChannelsOk, ArrivalsOk, RegistryOk, SchemaReadersOk, StagesOk, LocksOk, UsersOk;
    var s := run[i];
    assert forall tid | tid in s.apps :: s.apps[tid] == Idle;
    assert forall tid | tid in s.apps :: CarriedListener(s.apps[tid]).None? && CarriedSchema(s.apps[tid]).None? && CarriedReader(s.apps[tid]).None?;
    hide Busy, CarriedListener, CarriedSchema, CarriedReader;
    forall d | d in s.dds.readers
      ensures exists n :: n in s.topics && s.topics[n].sub.dataReader == Some(d)
    {
      assert ReaderOk(d, s.dds.readers[d], s.topics, s.dds.topics, s.listeners, s.apps);
    }
  }

  /** When the last subscriber has gone and no call is under way, no reader and no listener is left. */
  lemma LastSubscriberLeavesNothing(run: seq<State>, i: nat)
    requires Run(run) && i < |run| && !Busy(run[i])
    requires forall n | n in run[i].topics :: run[i].topics[n].sub.listener.None? && run[i].topics[n].sub.watches == 0
    ensures run[i].listeners == map[] && run[i].dds.readers == map[] && run[i].schemaReaders == map[] && run[i].registry == map[]
  {
    RestHoldsNothingElse(run, i);
    RunKeeps(run, i);
    hide Run, ArrivalsOk, SchemaReadersOk, ReadersOk, ListenersOk, StagesOk, Busy;
    var s := run[i];
    NoHolder(s);
    forall n | n in s.topics
      ensures s.topics[n].sub.schemaReader.None? && s.topics[n].sub.dataReader.None?
    {
      assert DataSideOk(n, s.topics[n], s.dds) && ChannelOk(n, s.topics[n], s.arrivals);
    }
  }

  lemma NoHolder(s: State)
    requires Inv(s) && !Busy(s)
    ensures s.mu == None && forall n :: !Changing(s.apps, s.mu, n)
  {
    hide DataSidesOk, ChannelsOk, ArrivalsOk, RegistryOk, SchemaReadersOk, ReadersOk, ListenersOk, StagesOk, UsersOk;
  }
}
