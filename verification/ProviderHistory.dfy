/** How the provider's state may change over a run: arrivals settle once, a writer stays, the first
    announcement stands. */
module ProviderHistory {
  import opened RowReader
  import opened Provider
  import opened ProviderInv
  import opened ProviderSteps
  import opened ProviderRuns

  // ----- one step -----

  /** What one step may do to a topic. */
  ghost predicate TopicStep(t: Topic, t': Topic)
  {
    // a writer keeps its bound and profile for good
    && (t.pub.writer.Some? ==> t'.pub.writer == t.pub.writer && t'.pub.bound == t.pub.bound && t'.pub.profile == t.pub.profile)
    // an announcement made by this instance stands
    && (t.pub.schema.Some? ==> t'.pub.schema == t.pub.schema)
    // a received announcement stands until the channel closes
    && (t.sub.schema.Some? ==> (t'.sub.schema == t.sub.schema && t'.sub.bound == t.sub.bound) || !Open(t'))
  }

  /** What one step may do to an arrival: settle it once. */
  ghost predicate ArrivalStep(arrivals: map<Id, Arrival>, arrivals': map<Id, Arrival>)
  {
    forall a | a in arrivals ::
      && a in arrivals' && arrivals'[a].name == arrivals[a].name
      && (arrivals[a].outcome != Pending ==> arrivals'[a] == arrivals[a])
  }

  ghost predicate Steps(s: State, s': State)
  {
    && ArrivalStep(s.arrivals, s'.arrivals)
    && forall n | n in s.topics :: n in s'.topics && TopicStep(s.topics[n], s'.topics[n])
  }

  /** A step that touches one topic and no arrival. */
  lemma OneTopic(s: State, s': State, n: Name, t: Topic)
    requires s'.arrivals == s.arrivals && s'.topics == s.topics[n := t] && TopicStep(At(s, n), t)
    ensures Steps(s, s')
  {
  }

  lemma NoTopic(s: State, s': State)
    requires s'.arrivals == s.arrivals && s'.topics == s.topics
    ensures Steps(s, s')
  {
  }

  lemma SameTopic(t: Topic, t': Topic)
    requires t'.pub == t.pub && t'.sub.schema == t.sub.schema && t'.sub.bound == t.sub.bound
    ensures TopicStep(t, t')
  {
  }

  lemma SettledOnce(s: State, n: Name, o: Outcome)
    requires Inv(s) && n in s.topics
    ensures ArrivalStep(s.arrivals, Settle(s.arrivals, s.topics[n], o))
  {
    hide DataSidesOk, ArrivalsOk, RegistryOk, SchemaReadersOk, ReadersOk, ListenersOk, StagesOk, LocksOk, UsersOk;
    assert ChannelOk(n, s.topics[n], s.arrivals);
  }

  /** Where a call goes does not touch topics or arrivals. */
  lemma Placement(s: State, n: Name, t: Topic, tid: Tid, pc: Pc)
    ensures Goto(Put(s, n, t), tid, pc).topics == Done(Put(s, n, t), tid).topics == s.topics[n := t]
    ensures Goto(Put(s, n, t), tid, pc).arrivals == Done(Put(s, n, t), tid).arrivals == s.arrivals
    ensures Goto(s, tid, pc).topics == Done(s, tid).topics == s.topics
    ensures Goto(s, tid, pc).arrivals == Done(s, tid).arrivals == s.arrivals
  {
  }

  lemma EnsureSteps(s: State, tid: Tid, call: Call, ch: BeginChoice)
    ensures Steps(s, EnsureChannel(s, tid, call, ch))
  {
    hide Steps, TopicStep, Open, Put, Goto, Done;
    var s', n, t := EnsureChannel(s, tid, call, ch), call.name, At(s, call.name);
    var made := !Open(t) && t.pub.schema.None? && (t.schemaTopic || ch.schemaTopic);
    var t' := if made then t.(schemaTopic := true) else t;
    SameTopic(t, t');
    if Open(t) {
      Placement(s, n, t', tid, if call.Subscribe? then WantSchema(call, Body) else InMu(call, Count));
    } else {
      Placement(s, n, t', tid, WantSchema(call, Channel(if made then ch.reader else None)));
    }
    OneTopic(s, s', n, t');
  }

  lemma BeginSteps(s: State, tid: Tid, call: Call, ch: BeginChoice)
    ensures Steps(s, BeginCall(s, tid, call, ch))
  {
    hide Steps, TopicStep, EnsureChannel, Put, Goto, Done;
    var s', n, t := BeginCall(s, tid, call, ch), call.name, At(s, call.name);
    var t' := if call.UnsubscribeSchema? && t.sub.watches > 0 then t.(sub := t.sub.(watches := t.sub.watches - 1)) else t;
    SameTopic(t, t');
    Placement(s, n, t', tid, WantSchema(call, if call.UnsubscribeSchema? then Closing(None, None) else Body));
    if call.SubscribeSchema? || (call.Subscribe? && t.sub.listener.None?) {
      EnsureSteps(s, tid, call, ch);
    } else if call.Create? || call.Subscribe? || (call.UnsubscribeSchema? && t.sub.watches > 0) {
      OneTopic(s, s', n, t');
    } else {
      NoTopic(s, s');
    }
  }

  lemma NewArrival(arrivals: map<Id, Arrival>, a: Id, x: Arrival)
    requires a !in arrivals
    ensures ArrivalStep(arrivals, arrivals[a := x])
  {
  }

  lemma RegisterSteps(s: State, tid: Tid, call: Call, reader: Option<Id>, a: Id)
    requires Inv(s) && tid in s.apps && s.apps[tid] == InSchema(call, Channel(reader)) && a !in s.arrivals
    ensures Steps(s, RegisterChannel(s, tid, call, reader, a))
  {
    hide Inv, ArrivalStep, FirstOutcome;
    ChannelStage(s, tid, call, reader);
    NewArrival(s.arrivals, a, Arrival(call.name, FirstOutcome(s.topics[call.name], reader)));
    assert TopicStep(s.topics[call.name], WithChannel(s.topics[call.name], reader, a));
    hide TopicStep, WithChannel;
  }

  lemma ListeningSide(n: Name, t: Topic, t1: Topic, dds: Dds)
    requires DataSideOk(n, t, dds) && t.sub.dataReader.None? && t1 == t.(sub := t1.sub) && t1.sub.dataReader.None?
    ensures DataSideOk(n, t1, dds)
  {
  }

  lemma FailedPlacement(s: State, n: Name, t: Topic, tid: Tid, call: Call, dds: Dds)
    ensures var s1 := Put(s, n, t).(schemaMu := None, dds := dds);
            && Goto(s1, tid, WantSchema(call, Closing(None, None))).topics == Done(s1, tid).topics == s.topics[n := t]
            && Goto(s1, tid, WantSchema(call, Closing(None, None))).arrivals == Done(s1, tid).arrivals == s.arrivals
  {
  }

  lemma ListenSteps(s: State, tid: Tid, call: Call, l: Id, ch: OpenChoice)
    requires Inv(s) && tid in s.apps && s.apps[tid] == InSchema(call, Body) && call.Subscribe?
    ensures Steps(s, ListenOn(s, tid, call, l, ch))
  {
    BodyStage(s, tid, call);
    hide Steps, TopicStep, Inv, OpenDataReader, Put, Goto, Done, Changing, Open;
    var s', n, t := ListenOn(s, tid, call, l, ch), call.name, At(s, call.name);
    var t1 := t.(sub := t.sub.(listener := Some(l), profile := call.profile));
    if t.sub.schema.None? {
      SameTopic(t, t1);
      Placement(s, n, t1, tid, Idle);
      OneTopic(s, s', n, t1);
    } else {
      NoReaderYet(n, t, s.dds);
      OpenedReader(n, t1, s.dds, ch) by { ListeningSide(n, t, t1, s.dds); }
      var o := OpenDataReader(n, t1, s.dds, ch);
      hide DataSideOk, ChannelOk;
      var t' := if o.ok then o.topic else o.topic.(sub := o.topic.sub.(listener := None));
      SameTopic(t, t');
      FailedPlacement(s, n, t', tid, call, o.dds);
      Placement(s, n, t', tid, Idle);
      OneTopic(s, s', n, t');
    }
  }

  lemma TakeSteps(s: State, tid: Tid, call: Call)
    requires call.name in s.topics
    ensures Steps(s, TakeReader(s, tid, call))
  {
    hide Steps, TopicStep;
    var t := At(s, call.name);
    var t' := t.(sub := t.sub.(dataReader := None, listener := None, profile := 0));
    SameTopic(t, t');
    OneTopic(s, TakeReader(s, tid, call), call.name, t');
  }

  lemma DeclareSteps(s: State, tid: Tid, call: Call, ch: DeclareChoice)
    requires Inv(s) && tid in s.apps && s.apps[tid] == InSchema(call, Body) && call.Create?
    ensures Steps(s, DeclareTopic(s, tid, call, ch))
  {
    BodyStage(s, tid, call);
    hide Steps, Inv, PlaceTopic, Conflicts, HeldElsewhere, Put, Goto, Done, DataSideOk, ChannelOk, Changing;
    var s', n, t := DeclareTopic(s, tid, call, ch), call.name, At(s, call.name);
    var (t', dds', ok) := Declared(s, call, ch);
    Placement(s, n, t', tid, InMu(call, Announcing));
    if t.pub.writer.Some? || HeldElsewhere(s, t, Effective(s, call.bound)) {
      NoTopic(s, s');
    } else {
      assert TopicStep(t, t');
      OneTopic(s, s', n, t');
    }
  }

  lemma AnnounceSteps(s: State, tid: Tid, call: Call, ch: AnnounceChoice)
    requires Inv(s) && tid in s.apps && s.apps[tid] == InMu(call, Announcing) && call.Create? && s.mu == Some(tid)
    ensures Steps(s, AnnounceSchema(s, tid, call, ch))
  {
    AnnouncerIsQuiet(s, tid, call);
    TopicIsOk(s, call.name);
    hide Steps, Inv;
    var s', n, t := AnnounceSchema(s, tid, call, ch), call.name, At(s, call.name);
    if call.schema.None? || t.pub.schemaWriter || (!t.schemaTopic && !ch.schemaTopic) {
      NoTopic(s, s');
    } else {
      assert TopicStep(t, s'.topics[n]);
      OneTopic(s, s', n, s'.topics[n]);
    }
  }

  lemma CloseSteps(s: State, tid: Tid, n: Name, stage: Stage)
    requires Inv(s) && stage.Closing? && n in s.topics
    ensures Steps(s, CloseChannel(s, tid, n, stage))
  {
    SettledOnce(s, n, Ended);
    hide Inv, Settle;
  }

  lemma Settles(s: State, s': State, n: Name, t: Topic, o: Outcome)
    requires Inv(s) && n in s.topics && s'.arrivals == Settle(s.arrivals, s.topics[n], o) && s'.topics == s.topics[n := t]
    requires t.pub == s.topics[n].pub && s.topics[n].sub.schema.None?
    ensures Steps(s, s')
  {
    SettledOnce(s, n, o);
    hide Inv, Settle, ArrivalStep;
  }

  lemma SampleSteps(s: State, c: Id, sample: Sample, ch: OpenChoice)
    requires Inv(s) && c in s.registry && s.schemaThread.Serving?
    ensures Steps(s, HandleSample(s, c, sample, ch))
  {
    hide Inv, Settle, OpenDataReader, Steps, ChannelOk, DataSideOk, Extends;
    RegisteredTopicIs(s, c);
    var s', n := HandleSample(s, c, sample, ch), s.registry[c];
    var t := s.topics[n];
    var t1 := t.(sub := t.sub.(schema := Some(sample.schema), bound := sample.bound));
    if !sample.valid || t.sub.schema.Some? {
      NoTopic(s, s');
    } else if !sample.decodes || !IsPayloadBound(sample.bound) {
      Settles(s, s', n, t.(sub := t.sub.(resolver := false)), Failed);
    } else if t.sub.listener.Some? {
      ListeningSide(n, t, t1, s.dds);
      OpenedReader(n, t1, s.dds, ch);
      var o := OpenDataReader(n, t1, s.dds, ch);
      Settles(s, s', n, o.topic.(sub := o.topic.sub.(resolver := false)), if o.ok then Arrived(sample.schema) else Failed);
    } else {
      Settles(s, s', n, t1.(sub := t1.sub.(resolver := false)), Arrived(sample.schema));
    }
  }

  /** Every step keeps to these rules. */
  lemma EveryStep(s: State, step: Step)
    requires Inv(s) && Enabled(s, step)
    ensures Steps(s, Apply(s, step))
  {
    hide Inv, Steps, BeginCall, RegisterChannel, ListenOn, TakeReader, DeclareTopic, AnnounceSchema, CloseChannel, HandleSample;
    match step
    case Begin(tid, ch) => BeginSteps(s, tid, s.apps[tid].call, ch);
    case Register(tid, a) => RegisterSteps(s, tid, s.apps[tid].call, s.apps[tid].stage.reader, a);
    case CountWatch(tid) =>
      var n := s.apps[tid].call.name;
      var t' := At(s, n).(sub := At(s, n).sub.(watches := At(s, n).sub.watches + 1));
      SameTopic(At(s, n), t');
      OneTopic(s, Apply(s, step), n, t');
    case Listen(tid, l, ch) => ListenSteps(s, tid, s.apps[tid].call, l, ch);
    case Take(tid) =>
      BodyStage(s, tid, s.apps[tid].call);
      TakeSteps(s, tid, s.apps[tid].call);
    case Declare(tid, ch) => DeclareSteps(s, tid, s.apps[tid].call, ch);
    case Announce(tid, ch) =>
      HolderIs(s, tid);
      AnnounceSteps(s, tid, s.apps[tid].call, ch);
    case Close(tid) =>
      ClosingStage(s, tid, s.apps[tid].call, s.apps[tid].stage);
      CloseSteps(s, tid, s.apps[tid].call.name, s.apps[tid].stage);
    case Receive(c, sample, ch) => SampleSteps(s, c, sample, ch);
    case _ => NoTopic(s, Apply(s, step));
  }

  // ----- whole runs -----

  lemma RunSteps(run: seq<State>, i: nat)
    requires Run(run) && i + 1 < |run|
    ensures Steps(run[i], run[i + 1])
  {
    hide Inv, Steps, Enabled, Apply;
    RunKeeps(run, i);
    assert Next(run[i], run[i + 1]);
    var step :| Enabled(run[i], step) && run[i + 1] == Apply(run[i], step);
    EveryStep(run[i], step);
  }

  /** An arrival, once settled, keeps its outcome for the rest of the run. */
  lemma {:induction false} ArrivalsSettleOnce(run: seq<State>, i: nat, j: nat, a: Id)
    requires Run(run) && i <= j < |run| && a in run[i].arrivals && run[i].arrivals[a].outcome != Pending
    ensures a in run[j].arrivals && run[j].arrivals[a] == run[i].arrivals[a]
    decreases j
  {
    hide Run;
    if i < j {
      ArrivalsSettleOnce(run, i, j - 1, a);
      RunSteps(run, j - 1);
    }
  }

  /** An arrival is pending exactly while the open channel it belongs to holds a valid resolver for it. */
  lemma PendingMeansResolver(run: seq<State>, i: nat, a: Id)
    requires Run(run) && i < |run| && a in run[i].arrivals
    ensures var s, n := run[i], run[i].arrivals[a].name;
            s.arrivals[a].outcome == Pending
            <==> n in s.topics && Open(s.topics[n]) && s.topics[n].sub.arrival == Some(a) && s.topics[n].sub.resolver
  {
    RunKeeps(run, i);
    hide DataSidesOk, RegistryOk, SchemaReadersOk, ReadersOk, ListenersOk, StagesOk, LocksOk, UsersOk, Run;
    var s, n := run[i], run[i].arrivals[a].name;
    if n in s.topics { assert ChannelOk(n, s.topics[n], s.arrivals); }
  }

  /** A call that opens a channel never replaces a resolver that is still valid. */
  lemma NeverOverwritten(run: seq<State>, i: nat, tid: Tid, a: Id)
    requires Run(run) && i < |run| && Enabled(run[i], Register(tid, a))
    ensures var n := run[i].apps[tid].call.name; n in run[i].topics && !run[i].topics[n].sub.resolver
  {
    RunKeeps(run, i);
    hide Run;
    ChannelStage(run[i], tid, run[i].apps[tid].call, run[i].apps[tid].stage.reader);
  }

  /** Closing a channel ends an arrival that is still pending. */
  lemma ClosingEnds(run: seq<State>, i: nat, tid: Tid)
    requires Run(run) && i < |run| && Enabled(run[i], Close(tid))
    ensures var s, s', n := run[i], Apply(run[i], Close(tid)), run[i].apps[tid].call.name;
            && n in s.topics && !Open(s'.topics[n])
            && (s.topics[n].sub.resolver ==>
                  && s.topics[n].sub.arrival.Some? && s.topics[n].sub.arrival.value in s.arrivals
                  && s'.arrivals[s.topics[n].sub.arrival.value] == Arrival(n, Ended))
  {
    RunKeeps(run, i);
    var s := run[i];
    ClosingStage(s, tid, s.apps[tid].call, s.apps[tid].stage);
    hide Run, Inv;
  }

  /** An arrival that succeeded while a data subscription is live means that its reader is open. */
  lemma ArrivedMeansOpen(run: seq<State>, i: nat, n: Name)
    requires Run(run) && i < |run| && n in run[i].topics && Open(run[i].topics[n]) && run[i].topics[n].sub.listener.Some?
    ensures var s, t := run[i], run[i].topics[n];
            && t.sub.arrival.Some? && t.sub.arrival.value in s.arrivals
            && (s.arrivals[t.sub.arrival.value].outcome.Arrived? ==>
                  && t.sub.schema == Some(s.arrivals[t.sub.arrival.value].outcome.schema)
                  && t.sub.dataReader.Some? && t.sub.dataReader.value in s.dds.readers)
  {
    RunKeeps(run, i);
    hide ArrivalsOk, RegistryOk, SchemaReadersOk, ReadersOk, ListenersOk, StagesOk, LocksOk, UsersOk, Run;
    assert ChannelOk(n, run[i].topics[n], run[i].arrivals) && DataSideOk(n, run[i].topics[n], run[i].dds);
  }

  /** Whenever `mu` is free a channel is open exactly when it is watched or has a data subscription. */
  lemma ChannelIsCounted(run: seq<State>, i: nat, n: Name)
    requires Run(run) && i < |run| && run[i].mu == None && n in run[i].topics
    ensures Open(run[i].topics[n]) <==> run[i].topics[n].sub.watches > 0 || run[i].topics[n].sub.listener.Some?
  {
    RunKeeps(run, i);
    hide DataSidesOk, ArrivalsOk, RegistryOk, SchemaReadersOk, ReadersOk, ListenersOk, StagesOk, LocksOk, Run;
    assert ChannelOk(n, run[i].topics[n], run[i].arrivals);
  }

  /** A channel that opens starts from "unknown", or from this instance's own announcement. */
  lemma ReopensFresh(run: seq<State>, i: nat, tid: Tid, a: Id)
    requires Run(run) && i < |run| && Enabled(run[i], Register(tid, a))
    ensures var s, s', n := run[i], Apply(run[i], Register(tid, a)), run[i].apps[tid].call.name;
            && n in s.topics
            && (s'.topics[n].sub.schema == None || (s.topics[n].pub.schema.Some? && s'.topics[n].sub.schema == s.topics[n].pub.schema))
            && s'.arrivals[a] == Arrival(n, if s'.topics[n].sub.schema == None then Pending else Arrived(s'.topics[n].sub.schema.value))
  {
    RunKeeps(run, i);
    var s := run[i];
    ChannelStage(s, tid, s.apps[tid].call, s.apps[tid].stage.reader);
    hide Run, Inv;
  }

  /** The first usable announcement stands until the channel closes. */
  lemma {:induction false} FirstAnnouncementStands(run: seq<State>, i: nat, j: nat, n: Name)
    requires Run(run) && i <= j < |run| && n in run[i].topics && run[i].topics[n].sub.schema.Some?
    requires forall k | i <= k <= j && n in run[k].topics :: Open(run[k].topics[n])
    ensures n in run[j].topics
    ensures run[j].topics[n].sub.schema == run[i].topics[n].sub.schema && run[j].topics[n].sub.bound == run[i].topics[n].sub.bound
    decreases j
  {
    hide Run, Open;
    if i < j {
      FirstAnnouncementStands(run, i, j - 1, n);
      RunSteps(run, j - 1);
      assert TopicStep(run[j - 1].topics[n], run[j - 1 + 1].topics[n]);
    }
  }

  // ----- the data topic -----

  /** The data topic has the type of this instance's writer, or, without one, of the open reader. */
  lemma TypesAgree(run: seq<State>, i: nat, n: Name)
    requires Run(run) && i < |run| && n in run[i].topics
    ensures var t, dds := run[i].topics[n], run[i].dds;
            && (t.pub.writer.Some? ==>
                  && t.dataTopic.Some? && t.dataTopic.value in dds.topics
                  && dds.topics[t.dataTopic.value] == DataTopic(n, t.pub.bound)
                  && t.pub.writer.value in dds.writers && dds.writers[t.pub.writer.value] == t.dataTopic.value)
            && (t.pub.writer.None? && t.sub.dataReader.Some? ==>
                  && t.dataTopic.Some? && t.dataTopic.value in dds.topics
                  && dds.topics[t.dataTopic.value] == DataTopic(n, t.sub.bound))
  {
    RunKeeps(run, i);
    hide ChannelsOk, ArrivalsOk, RegistryOk, SchemaReadersOk, ReadersOk, ListenersOk, StagesOk, LocksOk, UsersOk, Run;
    assert DataSideOk(n, run[i].topics[n], run[i].dds);
  }

  /** A writer, once created, keeps its bound and profile for the rest of the run. */
  lemma {:induction false} WriterStays(run: seq<State>, i: nat, j: nat, n: Name)
    requires Run(run) && i <= j < |run| && n in run[i].topics && run[i].topics[n].pub.writer.Some?
    ensures n in run[j].topics
    ensures var p, q := run[i].topics[n].pub, run[j].topics[n].pub;
            q.writer == p.writer && q.bound == p.bound && q.profile == p.profile
    decreases j
  {
    hide Run;
    if i < j {
      WriterStays(run, i, j - 1, n);
      RunSteps(run, j - 1);
      assert TopicStep(run[j - 1].topics[n], run[j - 1 + 1].topics[n]);
    }
  }

  // ----- a refused declaration -----

  /** `tid` is inside `CreateTopic`, before or at its critical section. */
  ghost predicate Creating(s: State, tid: Tid, call: Call)
  {
    call.Create? && (PcOf(s, tid) == InMu(call, Start) || PcOf(s, tid) == WantSchema(call, Body) || PcOf(s, tid) == InSchema(call, Body))
  }

  /** The critical section will refuse: for a bound or profile conflict, or for a live subscription at
      another bound. */
  ghost predicate Refuses(s: State, call: Call)
    requires call.Create?
  {
    var t := At(s, call.name);
    if t.pub.writer.Some? then Conflicts(t, call) else HeldElsewhere(s, t, Effective(s, call.bound))
  }

  /** The step took a schema sample of topic `n`. */
  ghost predicate Sampled(s: State, s': State, n: Name)
  {
    exists c, sample, ch :: Enabled(s, Receive(c, sample, ch)) && s' == Apply(s, Receive(c, sample, ch)) && s.registry[c] == n
  }

  /** One step while `tid` is inside `CreateTopic`: the topic stays as it is unless a sample of its own is
      taken, and a sample leaves the publishing side and the watches alone. */
  ghost predicate Untouched(s: State, s': State, n: Name)
  {
    && At(s', n).pub == At(s, n).pub && At(s', n).schemaTopic == At(s, n).schemaTopic && At(s', n).sub.watches == At(s, n).sub.watches
    && (At(s', n) == At(s, n) || Sampled(s, s', n))
  }

  /** Nobody else is past `mu`. */
  lemma OnlyCaller(s: State, tid: Tid, call: Call, other: Tid)
    requires Inv(s) && Creating(s, tid, call) && HoldsMu(PcOf(s, other))
    ensures other == tid
  {
    hide DataSidesOk, ChannelsOk, ArrivalsOk, RegistryOk, SchemaReadersOk, ReadersOk, ListenersOk, StagesOk, UsersOk;
    assert HoldsMu(s.apps[tid]) && HoldsMu(s.apps[other]);
  }

  lemma SampleSpares(s: State, c: Id, sample: Sample, ch: OpenChoice, n: Name)
    requires Inv(s) && Enabled(s, Receive(c, sample, ch))
    ensures Untouched(s, Apply(s, Receive(c, sample, ch)), n)
  {
    hide Inv, ChannelOk, HandleSample;
    RegisteredTopicIs(s, c);
    var s', m := Apply(s, Receive(c, sample, ch)), s.registry[c];
    assert m == n ==> Sampled(s, s', n);
    hide Sampled;
    if m != n {
      if n in s.topics { SampleTouchesOneTopic(s, c, sample, ch, n); } else { SampleAddsNone(s, c, sample, ch); }
    } else {
      SampledTopic(s, c, sample, ch);
    }
  }

  lemma SampleAddsNone(s: State, c: Id, sample: Sample, ch: OpenChoice)
    requires c in s.registry && s.schemaThread.Serving? && s.registry[c] in s.topics
    ensures HandleSample(s, c, sample, ch).topics.Keys == s.topics.Keys
  {
    hide OpenDataReader, Settle;
  }

  /** The topic a usable or unusable sample leaves behind. */
  ghost function SampleResult(n: Name, t: Topic, dds: Dds, sample: Sample, ch: OpenChoice): Topic
  {
    var t1 := t.(sub := t.sub.(schema := Some(sample.schema), bound := sample.bound));
    if !sample.valid || t.sub.schema.Some? then t
    else if !sample.decodes || !IsPayloadBound(sample.bound) then t.(sub := t.sub.(resolver := false))
    else if t.sub.listener.Some? && t.sub.dataReader.None? then
      var o := OpenDataReader(n, t1, dds, ch).topic;
      o.(sub := o.sub.(resolver := false))
    else t1.(sub := t1.sub.(resolver := false))
  }

  lemma SampleLeaves(s: State, c: Id, sample: Sample, ch: OpenChoice)
    requires c in s.registry && s.schemaThread.Serving?
    ensures var n := s.registry[c]; At(HandleSample(s, c, sample, ch), n) == SampleResult(n, At(s, n), s.dds, sample, ch)
  {
    hide OpenDataReader, Settle, IsPayloadBound;
  }

  lemma SampledTopic(s: State, c: Id, sample: Sample, ch: OpenChoice)
    requires c in s.registry && s.schemaThread.Serving?
    ensures var n, s' := s.registry[c], HandleSample(s, c, sample, ch);
            At(s', n).pub == At(s, n).pub && At(s', n).schemaTopic == At(s, n).schemaTopic && At(s', n).sub.watches == At(s, n).sub.watches
  {
    var n := s.registry[c];
    var t := At(s, n);
    var t1 := t.(sub := t.sub.(schema := Some(sample.schema), bound := sample.bound));
    SampleLeaves(s, c, sample, ch);
    hide OpenDataReader, HandleSample, At, IsPayloadBound;
    if t.sub.listener.Some? { OpeningSpares(n, t1, s.dds, ch); }
  }

  lemma OpeningSpares(n: Name, t: Topic, dds: Dds, ch: OpenChoice)
    requires t.sub.listener.Some?
    ensures var t' := OpenDataReader(n, t, dds, ch).topic;
            t'.pub == t.pub && t'.schemaTopic == t.schemaTopic && t'.sub.watches == t.sub.watches
  {
    hide PlaceTopic;
  }

  /** A step of another thread, or one of the caller's own steps up to its critical section. */
  lemma CreatingSpares(s: State, step: Step, tid: Tid, call: Call)
    requires Inv(s) && Enabled(s, step) && Creating(s, tid, call) && (step.Declare? ==> Refuses(s, call))
    ensures Untouched(s, Apply(s, step), call.name)
  {
    hide Inv, Sampled, Refuses, Apply, Untouched;
    if step.Receive? {
      SampleSpares(s, step.reader, step.sample, step.open, call.name);
    } else if StepThread(step).Some? && HoldsMu(PcOf(s, StepThread(step).value)) {
      OnlyCaller(s, tid, call, StepThread(step).value);
      OwnStepSpares(s, step, tid, call);
    } else {
      FreeStepSpares(s, step, call.name);
    }
  }

  lemma FreeStepSpares(s: State, step: Step, n: Name)
    requires Enabled(s, step) && !step.Receive? && (StepThread(step).Some? ==> !HoldsMu(PcOf(s, StepThread(step).value)))
    ensures Untouched(s, Apply(s, step), n)
  {
    hide Sampled, HandleSample, BeginCall, RegisterChannel, ListenOn, TakeReader, DeclareTopic, AnnounceSchema, CloseChannel;
  }

  lemma OwnStepSpares(s: State, step: Step, tid: Tid, call: Call)
    requires Enabled(s, step) && Creating(s, tid, call) && StepThread(step) == Some(tid) && (step.Declare? ==> Refuses(s, call))
    ensures Untouched(s, Apply(s, step), call.name)
  {
    hide Sampled, HandleSample, EnsureChannel, RegisterChannel, ListenOn, TakeReader, DeclareTopic, AnnounceSchema, CloseChannel, Refuses;
    if step.Declare? { RefusedDeclare(s, tid, call, step.declare); }
  }

  lemma RefusedDeclare(s: State, tid: Tid, call: Call, ch: DeclareChoice)
    requires call.Create? && Refuses(s, call)
    ensures var s' := DeclareTopic(s, tid, call, ch);
            && s'.topics == s.topics && s'.dds == s.dds && s'.registry == s.registry && s'.listeners == s.listeners
            && s'.arrivals == s.arrivals && PcOf(s', tid) == Idle
  {
    Returned(s, tid);
    hide Conflicts, HeldElsewhere, PlaceTopic, Put, Goto, Done;
  }

  lemma Returned(s: State, tid: Tid)
    ensures var s' := Done(s, tid).(schemaMu := None);
            && s'.topics == s.topics && s'.dds == s.dds && s'.registry == s.registry && s'.listeners == s.listeners
            && s'.arrivals == s.arrivals && PcOf(s', tid) == Idle
  {
  }

  /** A refused declaration, over a whole run: from the moment the call holds `mu` until it has returned,
      its topic keeps its publishing side, its schema topic and its watches, every step in between leaves
      the topic alone unless it takes a schema sample of that topic, and the refusing step itself changes
      no entity, listener or arrival. */
  lemma {:induction false} RefusalChangesNothing(run: seq<State>, i: nat, j: nat, tid: Tid, call: Call)
    requires Run(run) && i <= j < |run| && call.Create?
    requires forall k | i <= k < j :: Creating(run[k], tid, call)
    requires j > i && !Creating(run[j], tid, call) ==> Refuses(run[j - 1], call)
    ensures var t, t', n := At(run[i], call.name), At(run[j], call.name), call.name;
            && t'.pub == t.pub && t'.schemaTopic == t.schemaTopic && t'.sub.watches == t.sub.watches
            && (forall k | i <= k < j :: At(run[k + 1], n) == At(run[k], n) || Sampled(run[k], run[k + 1], n))
    ensures j > i && !Creating(run[j], tid, call) ==>
              && PcOf(run[j], tid) == Idle && run[j].topics == run[j - 1].topics && run[j].dds == run[j - 1].dds
              && run[j].listeners == run[j - 1].listeners && run[j].arrivals == run[j - 1].arrivals
    decreases j
  {
    hide Run, Inv, Creating, Sampled, Refuses, Enabled, Apply;
    if i < j {
      RefusalChangesNothing(run, i, j - 1, tid, call);
      var step := StepTaken(run, j - 1);
      RunKeeps(run, j - 1);
      CreatingStays(run[j - 1], step, tid, call);
      CreatingSpares(run[j - 1], step, tid, call);
    }
  }

  lemma StepTaken(run: seq<State>, k: nat) returns (step: Step)
    requires Run(run) && k + 1 < |run|
    ensures Enabled(run[k], step) && run[k + 1] == Apply(run[k], step)
  {
    hide Enabled, Apply;
    assert Next(run[k], run[k + 1]);
    step :| Enabled(run[k], step) && run[k + 1] == Apply(run[k], step);
  }

  /** The call is left only through its critical section. */
  lemma CreatingStays(s: State, step: Step, tid: Tid, call: Call)
    requires Inv(s) && Enabled(s, step) && Creating(s, tid, call)
    ensures !step.Declare? ==> Creating(Apply(s, step), tid, call)
    ensures step.Declare? ==> !Creating(Apply(s, step), tid, call)
    ensures step.Declare? && Refuses(s, call) ==>
              var s' := Apply(s, step);
              && PcOf(s', tid) == Idle && s'.topics == s.topics && s'.dds == s.dds && s'.listeners == s.listeners && s'.arrivals == s.arrivals
  {
    if StepThread(step) == Some(tid) {
      OwnStepStays(s, step, tid, call);
    } else {
      if step.Declare? { OnlyCaller(s, tid, call, step.tid); }
      hide Inv, Enabled, Apply, Refuses;
      OtherStepStays(s, step, tid);
    }
  }

  lemma OtherStepStays(s: State, step: Step, tid: Tid)
    requires Inv(s) && Enabled(s, step) && StepThread(step) != Some(tid)
    ensures PcOf(Apply(s, step), tid) == PcOf(s, tid)
  {
    if !step.Invoke? {
      StepAdvances(s, step);
      hide Inv, Enabled, Apply;
    }
  }

  lemma OwnStepStays(s: State, step: Step, tid: Tid, call: Call)
    requires Inv(s) && Enabled(s, step) && Creating(s, tid, call) && StepThread(step) == Some(tid)
    ensures !step.Declare? ==> Creating(Apply(s, step), tid, call)
    ensures step.Declare? ==> !Creating(Apply(s, step), tid, call)
    ensures step.Declare? && Refuses(s, call) ==>
              var s' := Apply(s, step);
              && PcOf(s', tid) == Idle && s'.topics == s.topics && s'.dds == s.dds && s'.listeners == s.listeners && s'.arrivals == s.arrivals
  {
    if step.Declare? {
      hide Inv, Refuses, DeclareTopic;
      if Refuses(s, call) { RefusedDeclare(s, tid, call, step.declare); }
      DeclareEnds(s, tid, call, step.declare);
    } else {
      EarlierStepStays(s, step, tid, call);
    }
  }

  lemma EarlierStepStays(s: State, step: Step, tid: Tid, call: Call)
    requires Enabled(s, step) && Creating(s, tid, call) && StepThread(step) == Some(tid) && !step.Declare?
    ensures Creating(Apply(s, step), tid, call)
  {
    hide RegisterChannel, ListenOn, TakeReader, AnnounceSchema, CloseChannel, HandleSample, DeclareTopic, EnsureChannel;
    assert step.Begin? || step.LockSchema?;
  }

  lemma DeclareEnds(s: State, tid: Tid, call: Call, ch: DeclareChoice)
    requires call.Create?
    ensures !Creating(DeclareTopic(s, tid, call, ch), tid, call)
  {
    hide DeclareTopic;
    DeclareAdvances(s, tid, call, ch);
  }

  /** The schema writer exists exactly when an announcement went out, so a failed one can be retried. */
  lemma AnnouncedMeansWriter(run: seq<State>, i: nat, n: Name)
    requires Run(run) && i < |run| && n in run[i].topics
    ensures run[i].topics[n].pub.schemaWriter <==> run[i].topics[n].pub.schema.Some?
  {
    RunKeeps(run, i);
    hide ChannelsOk, ArrivalsOk, RegistryOk, SchemaReadersOk, ReadersOk, ListenersOk, StagesOk, LocksOk, UsersOk, Run;
    assert DataSideOk(n, run[i].topics[n], run[i].dds);
  }

  lemma SampleTouchesOneTopic(s: State, c: Id, sample: Sample, ch: OpenChoice, n: Name)
    requires c in s.registry && s.schemaThread.Serving? && n in s.topics && n != s.registry[c]
    ensures var s' := HandleSample(s, c, sample, ch); n in s'.topics && s'.topics[n] == s.topics[n]
  {
    hide OpenDataReader, Settle;
  }

  /** The schema thread leaves closed channels alone, which is what lets a call read one under `mu`. */
  lemma SchemaThreadStaysOut(run: seq<State>, i: nat, step: Step, n: Name)
    requires Run(run) && i < |run| && Enabled(run[i], step) && StepThread(step) == None
    requires n in run[i].topics && !Open(run[i].topics[n])
    ensures n in Apply(run[i], step).topics && Apply(run[i], step).topics[n] == run[i].topics[n]
  {
    RunKeeps(run, i);
    hide Run, Inv, HandleSample;
    if step.Receive? {
      RegisteredTopicIs(run[i], step.reader);
      SampleTouchesOneTopic(run[i], step.reader, step.sample, step.open, n);
    }
  }
}
