/** Where every fact in a topic's state comes from: whatever a step changes was asked for by the call or
    announced by the sample that the step serves, with the values given there. */
module ProviderCauses {
  import opened RowReader
  import opened Provider
  import opened ProviderInv
  import opened ProviderSteps
  import opened ProviderRuns
  import opened ProviderHistory

  /** `step` is taken by a thread in the middle of `call`. */
  ghost predicate Serves(s: State, step: Step, call: Call)
  {
    StepThread(step).Some? && HoldsMu(PcOf(s, StepThread(step).value)) && PcOf(s, StepThread(step).value).call == call
  }

  /** An announcement that can be followed: it decodes, and its bound frames a sample whose size fits 32 bits. */
  predicate Usable(sample: Sample)
  {
    sample.valid && sample.decodes && sample.bound % 4 == 0 && 4 <= sample.bound && sample.bound + 8 < 0x1_0000_0000
  }

  // ----- the causes -----

  ghost predicate SchemaCause(s: State, step: Step, n: Name, t: Topic, t': Topic)
  {
    t'.sub.schema != t.sub.schema || t'.sub.bound != t.sub.bound ==>
      || (&& step.Receive? && step.reader in s.registry && s.registry[step.reader] == n && t.sub.schema.None?
          && Usable(step.sample) && t'.sub.schema == Some(step.sample.schema) && t'.sub.bound == step.sample.bound)
      || (&& step.Register? && (Serves(s, step, SubscribeSchema(n)) || exists p :: Serves(s, step, Subscribe(n, p)))
          && !Open(t) && t.pub.schema.Some? && t'.sub.schema == t.pub.schema && t'.sub.bound == t.pub.bound)
      || (step.Close? && !Open(t'))
  }

  ghost predicate WriterCause(s: State, step: Step, n: Name, t: Topic, t': Topic)
  {
    t'.pub.writer != t.pub.writer || t'.pub.bound != t.pub.bound || t'.pub.profile != t.pub.profile ==>
      && step.Declare? && t.pub.writer.None? && t'.pub.writer.Some?
      && exists bound, profile, schema ::
           && Serves(s, step, Create(n, bound, profile, schema))
           && t'.pub.bound == (if bound == 0 then s.ownBound else bound) && t'.pub.profile == profile
  }

  ghost predicate AnnouncementCause(s: State, step: Step, n: Name, t: Topic, t': Topic)
  {
    t'.pub.schema != t.pub.schema ==>
      && step.Announce? && step.announce.write && t.pub.schema.None? && t'.pub.schema.Some?
      && exists bound, profile :: Serves(s, step, Create(n, bound, profile, t'.pub.schema))
  }

  ghost predicate ListenerCause(s: State, step: Step, n: Name, t: Topic, t': Topic)
  {
    t'.sub.listener != t.sub.listener ==>
      || (step.Listen? && t.sub.listener.None? && t'.sub.listener == Some(step.listener) && Serves(s, step, Subscribe(n, t'.sub.profile)))
      || (step.Take? && t'.sub.listener.None? && Serves(s, step, Unsubscribe(n)))
  }

  ghost predicate WatchCause(s: State, step: Step, n: Name, t: Topic, t': Topic)
  {
    t'.sub.watches != t.sub.watches ==>
      || (step.CountWatch? && t'.sub.watches == t.sub.watches + 1 && Serves(s, step, SubscribeSchema(n)))
      || (step.Begin? && t'.sub.watches == t.sub.watches - 1 && Serves(s, step, UnsubscribeSchema(n)))
  }

  ghost predicate ReaderCause(s: State, step: Step, n: Name, t: Topic, t': Topic)
  {
    t'.sub.dataReader != t.sub.dataReader ==>
      || (step.Listen? && t'.sub.dataReader == step.open.reader && t'.sub.schema.Some?)
      || (step.Receive? && t'.sub.dataReader == step.open.reader && t.sub.schema.None? && t'.sub.schema.Some? && t.sub.listener.Some?)
      || (step.Take? && t'.sub.dataReader.None?)
  }

  ghost predicate Caused(s: State, step: Step, n: Name, t: Topic, t': Topic)
  {
    && SchemaCause(s, step, n, t, t') && WriterCause(s, step, n, t, t') && AnnouncementCause(s, step, n, t, t')
    && ListenerCause(s, step, n, t, t') && WatchCause(s, step, n, t, t') && ReaderCause(s, step, n, t, t')
  }

  lemma Unchanged(s: State, step: Step, n: Name, t: Topic, t': Topic)
    requires t' == t.(dataTopic := t'.dataTopic, schemaTopic := t'.schemaTopic)
    ensures Caused(s, step, n, t, t')
  {
  }

  /** A step that changes one topic. */
  lemma OneChange(s: State, step: Step, s': State, m: Name, t': Topic, n: Name)
    requires s'.topics == s.topics[m := t'] && Caused(s, step, m, At(s, m), t')
    ensures Caused(s, step, n, At(s, n), At(s', n))
  {
    hide Caused;
    if n != m { Unchanged(s, step, n, At(s, n), At(s, n)); }
  }

  lemma NoChange(s: State, step: Step, s': State, n: Name)
    requires s'.topics == s.topics
    ensures Caused(s, step, n, At(s, n), At(s', n))
  {
    hide Caused;
    Unchanged(s, step, n, At(s, n), At(s, n));
  }

  // ----- each step -----

  lemma BeginCaused(s: State, tid: Tid, ch: BeginChoice, n: Name)
    requires Enabled(s, Begin(tid, ch))
    ensures Caused(s, Begin(tid, ch), n, At(s, n), At(BeginCall(s, tid, s.apps[tid].call, ch), n))
  {
    hide Caused, EnsureChannel, Put, Goto, Done, Open;
    var call := s.apps[tid].call;
    var m, t, s' := call.name, At(s, call.name), BeginCall(s, tid, call, ch);
    var t' := if call.UnsubscribeSchema? && t.sub.watches > 0 then t.(sub := t.sub.(watches := t.sub.watches - 1)) else t;
    Placement(s, m, t', tid, WantSchema(call, if call.UnsubscribeSchema? then Closing(None, None) else Body));
    if call.SubscribeSchema? || (call.Subscribe? && t.sub.listener.None?) {
      EnsureCaused(s, tid, ch, n);
    } else if call.UnsubscribeSchema? && t.sub.watches > 0 {
      Uncounted(s, tid, ch, m, t, t');
      OneChange(s, Begin(tid, ch), s', m, t', n);
    } else if call.Create? || call.Subscribe? {
      Unchanged(s, Begin(tid, ch), m, t, t);
      OneChange(s, Begin(tid, ch), s', m, t, n);
    } else {
      NoChange(s, Begin(tid, ch), s', n);
    }
  }

  lemma Uncounted(s: State, tid: Tid, ch: BeginChoice, m: Name, t: Topic, t': Topic)
    requires Enabled(s, Begin(tid, ch)) && s.apps[tid].call == UnsubscribeSchema(m) && t.sub.watches > 0
    requires t' == t.(sub := t.sub.(watches := t.sub.watches - 1))
    ensures Caused(s, Begin(tid, ch), m, t, t')
  {
    assert Serves(s, Begin(tid, ch), UnsubscribeSchema(m));
  }

  lemma EnsureCaused(s: State, tid: Tid, ch: BeginChoice, n: Name)
    requires Enabled(s, Begin(tid, ch))
    ensures Caused(s, Begin(tid, ch), n, At(s, n), At(EnsureChannel(s, tid, s.apps[tid].call, ch), n))
  {
    hide Caused, Open, Put, Goto, Done;
    var call := s.apps[tid].call;
    var m, t, s' := call.name, At(s, call.name), EnsureChannel(s, tid, call, ch);
    var made := !Open(t) && t.pub.schema.None? && (t.schemaTopic || ch.schemaTopic);
    var t' := if made then t.(schemaTopic := true) else t;
    if Open(t) {
      Placement(s, m, t', tid, if call.Subscribe? then WantSchema(call, Body) else InMu(call, Count));
    } else {
      Placement(s, m, t', tid, WantSchema(call, Channel(if made then ch.reader else None)));
    }
    Unchanged(s, Begin(tid, ch), m, t, t');
    OneChange(s, Begin(tid, ch), s', m, t', n);
  }

  lemma RegisterCaused(s: State, tid: Tid, a: Id, n: Name)
    requires Inv(s) && Enabled(s, Register(tid, a))
    ensures Caused(s, Register(tid, a), n, At(s, n), At(Apply(s, Register(tid, a)), n))
  {
    hide Inv, FirstOutcome;
    var call, reader := s.apps[tid].call, s.apps[tid].stage.reader;
    ChannelStage(s, tid, call, reader);
    var t := s.topics[call.name];
    var t' := WithChannel(t, reader, a);
    assert Serves(s, Register(tid, a), call);
    assert Caused(s, Register(tid, a), call.name, t, t');
    hide Caused, WithChannel;
    OneChange(s, Register(tid, a), Apply(s, Register(tid, a)), call.name, t', n);
  }

  lemma CountCaused(s: State, tid: Tid, n: Name)
    requires Inv(s) && Enabled(s, CountWatch(tid))
    ensures Caused(s, CountWatch(tid), n, At(s, n), At(Apply(s, CountWatch(tid)), n))
  {
    var call := s.apps[tid].call;
    StagesFit(s, tid);
    hide Inv;
    var t := At(s, call.name);
    var t' := t.(sub := t.sub.(watches := t.sub.watches + 1));
    assert Serves(s, CountWatch(tid), SubscribeSchema(call.name));
    assert Caused(s, CountWatch(tid), call.name, t, t');
    hide Caused;
    OneChange(s, CountWatch(tid), Apply(s, CountWatch(tid)), call.name, t', n);
  }

  lemma ListenCaused(s: State, tid: Tid, l: Id, ch: OpenChoice, n: Name)
    requires Inv(s) && Enabled(s, Listen(tid, l, ch))
    ensures Caused(s, Listen(tid, l, ch), n, At(s, n), At(ListenOn(s, tid, s.apps[tid].call, l, ch), n))
  {
    hide Inv, OpenDataReader, Put, Goto, Done, Changing, Open, DataSideOk, ChannelOk, Caused, Extends;
    var call, step := s.apps[tid].call, Listen(tid, l, ch);
    BodyStage(s, tid, call);
    var s', m, t := ListenOn(s, tid, call, l, ch), call.name, At(s, call.name);
    var t1 := t.(sub := t.sub.(listener := Some(l), profile := call.profile));
    NoReaderYet(m, t, s.dds);
    if t.sub.schema.None? {
      Placement(s, m, t1, tid, Idle);
      Listened(s, step, call, t, t1);
      OneChange(s, step, s', m, t1, n);
    } else {
      ListeningSide(m, t, t1, s.dds);
      OpenedReader(m, t1, s.dds, ch);
      OpenedWith(m, t1, s.dds, ch);
      var o := OpenDataReader(m, t1, s.dds, ch);
      var t' := if o.ok then o.topic else o.topic.(sub := o.topic.sub.(listener := None));
      FailedPlacement(s, m, t', tid, call, o.dds);
      Placement(s, m, t', tid, Idle);
      Listened(s, step, call, t, t');
      OneChange(s, step, s', m, t', n);
    }
  }

  lemma OpenedWith(n: Name, t: Topic, dds: Dds, ch: OpenChoice)
    requires t.sub.listener.Some? && t.sub.dataReader.None?
    ensures var o := OpenDataReader(n, t, dds, ch);
            o.topic.sub.dataReader == if o.ok then ch.reader else None
  {
    hide PlaceTopic;
  }

  lemma Listened(s: State, step: Step, call: Call, t: Topic, t': Topic)
    requires step.Listen? && Enabled(s, step) && s.apps[step.tid].call == call && call.Subscribe? && t.sub.listener.None?
    requires t'.pub == t.pub && t.sub.dataReader.None?
    requires t'.sub == t.sub.(listener := t'.sub.listener, profile := call.profile, dataReader := t'.sub.dataReader)
    requires t'.sub.listener == Some(step.listener) || t'.sub.listener.None?
    requires t'.sub.dataReader == None || (t'.sub.dataReader == step.open.reader && t.sub.schema.Some?)
    ensures Caused(s, step, call.name, t, t')
  {
    assert call == Subscribe(call.name, t'.sub.profile);
    assert Serves(s, step, Subscribe(call.name, t'.sub.profile));
  }

  lemma TakeCaused(s: State, tid: Tid, n: Name)
    requires Inv(s) && Enabled(s, Take(tid))
    ensures Caused(s, Take(tid), n, At(s, n), At(TakeReader(s, tid, s.apps[tid].call), n))
  {
    hide Inv, Changing, DataSideOk, ChannelOk;
    var call := s.apps[tid].call;
    BodyStage(s, tid, call);
    TakenParts(s, tid, call);
    hide TakeReader;
    var t := s.topics[call.name];
    var t' := t.(sub := t.sub.(dataReader := None, listener := None, profile := 0));
    assert call == Unsubscribe(call.name) && Serves(s, Take(tid), Unsubscribe(call.name));
    assert Caused(s, Take(tid), call.name, t, t');
    hide Caused;
    OneChange(s, Take(tid), TakeReader(s, tid, call), call.name, t', n);
  }

  lemma DeclareCaused(s: State, tid: Tid, ch: DeclareChoice, n: Name)
    requires Enabled(s, Declare(tid, ch))
    ensures Caused(s, Declare(tid, ch), n, At(s, n), At(DeclareTopic(s, tid, s.apps[tid].call, ch), n))
  {
    hide PlaceTopic, Conflicts, HeldElsewhere, Put, Goto, Done, Caused;
    var call, step := s.apps[tid].call, Declare(tid, ch);
    var s', m, t := DeclareTopic(s, tid, call, ch), call.name, At(s, call.name);
    var (t', dds', ok) := Declared(s, call, ch);
    Placement(s, m, t', tid, InMu(call, Announcing));
    if t.pub.writer.Some? || HeldElsewhere(s, t, Effective(s, call.bound)) {
      NoChange(s, step, s', n);
    } else {
      DeclaredCause(s, step, call, t, t');
      OneChange(s, step, s', m, t', n);
    }
  }

  lemma DeclaredCause(s: State, step: Step, call: Call, t: Topic, t': Topic)
    requires step.Declare? && Enabled(s, step) && s.apps[step.tid].call == call && call.Create?
    requires t.pub.writer.None? && t'.sub == t.sub
    requires t'.pub == t.pub || (t'.pub.writer.Some? && t'.pub == t.pub.(writer := t'.pub.writer, bound := Effective(s, call.bound), profile := call.profile))
    ensures Caused(s, step, call.name, t, t')
  {
    assert call == Create(call.name, call.bound, call.profile, call.schema);
    assert Serves(s, step, Create(call.name, call.bound, call.profile, call.schema));
  }

  lemma AnnounceCaused(s: State, tid: Tid, ch: AnnounceChoice, n: Name)
    requires Inv(s) && Enabled(s, Announce(tid, ch))
    ensures Caused(s, Announce(tid, ch), n, At(s, n), At(AnnounceSchema(s, tid, s.apps[tid].call, ch), n))
  {
    hide Inv, Caused, Open, Changing, ChannelOk;
    var call, step := s.apps[tid].call, Announce(tid, ch);
    TopicIsOk(s, call.name);
    var s', m, t := AnnounceSchema(s, tid, call, ch), call.name, At(s, call.name);
    if call.schema.None? || t.pub.schemaWriter || (!t.schemaTopic && !ch.schemaTopic) {
      NoChange(s, step, s', n);
    } else {
      AnnouncedCause(s, step, call, t, s'.topics[m]);
      OneChange(s, step, s', m, s'.topics[m], n);
    }
  }

  lemma AnnouncedCause(s: State, step: Step, call: Call, t: Topic, t': Topic)
    requires step.Announce? && Enabled(s, step) && s.apps[step.tid].call == call && call.schema.Some? && t.pub.schema.None?
    requires t'.sub == t.sub && t'.dataTopic == t.dataTopic
    requires t'.pub == t.pub || (step.announce.write && t'.pub == t.pub.(schemaWriter := true, schema := call.schema))
    ensures Caused(s, step, call.name, t, t')
  {
    assert call == Create(call.name, call.bound, call.profile, call.schema);
    assert Serves(s, step, Create(call.name, call.bound, call.profile, call.schema));
  }

  lemma CloseCaused(s: State, tid: Tid, n: Name)
    requires Inv(s) && Enabled(s, Close(tid))
    ensures Caused(s, Close(tid), n, At(s, n), At(Apply(s, Close(tid)), n))
  {
    hide Inv, Settle, DataSideOk, ChannelOk;
    var call := s.apps[tid].call;
    ClosingStage(s, tid, call, s.apps[tid].stage);
    var t := s.topics[call.name];
    var t' := t.(sub := t.sub.(schemaReader := None, schema := None, bound := 0, resolver := false));
    assert Caused(s, Close(tid), call.name, t, t');
    hide Caused;
    OneChange(s, Close(tid), Apply(s, Close(tid)), call.name, t', n);
  }

  /** What an announcement does to its topic. */
  lemma ReceiveCaused(s: State, c: Id, sample: Sample, ch: OpenChoice, n: Name)
    requires Inv(s) && Enabled(s, Receive(c, sample, ch))
    ensures Caused(s, Receive(c, sample, ch), n, At(s, n), At(HandleSample(s, c, sample, ch), n))
  {
    hide Inv, OpenDataReader, Settle, Caused, Open, ChannelOk, DataSideOk, Extends;
    RegisteredTopicIs(s, c);
    var s', m, step := HandleSample(s, c, sample, ch), s.registry[c], Receive(c, sample, ch);
    var t := s.topics[m];
    var t1 := t.(sub := t.sub.(schema := Some(sample.schema), bound := sample.bound));
    if !sample.valid || t.sub.schema.Some? {
      NoChange(s, step, s', n);
    } else if !sample.decodes || !IsPayloadBound(sample.bound) {
      Dropped(s, step, m, t);
      OneChange(s, step, s', m, t.(sub := t.sub.(resolver := false)), n);
    } else if t.sub.listener.Some? {
      ListeningSide(m, t, t1, s.dds);
      OpenedReader(m, t1, s.dds, ch);
      OpenedWith(m, t1, s.dds, ch);
      var o := OpenDataReader(m, t1, s.dds, ch);
      Followed(s, step, m, t, o.topic.(sub := o.topic.sub.(resolver := false)));
      OneChange(s, step, s', m, o.topic.(sub := o.topic.sub.(resolver := false)), n);
    } else {
      Followed(s, step, m, t, t1.(sub := t1.sub.(resolver := false)));
      OneChange(s, step, s', m, t1.(sub := t1.sub.(resolver := false)), n);
    }
  }

  lemma Dropped(s: State, step: Step, n: Name, t: Topic)
    ensures Caused(s, step, n, t, t.(sub := t.sub.(resolver := false)))
  {
  }

  lemma Followed(s: State, step: Step, n: Name, t: Topic, t': Topic)
    requires step.Receive? && step.reader in s.registry && s.registry[step.reader] == n && t.sub.schema.None? && t.sub.dataReader.None?
    requires step.sample.valid && step.sample.decodes && IsPayloadBound(step.sample.bound) && t'.pub == t.pub
    requires t'.sub == t.sub.(schema := Some(step.sample.schema), bound := step.sample.bound, resolver := false, dataReader := t'.sub.dataReader)
    requires t'.sub.dataReader == None || (t'.sub.dataReader == step.open.reader && t.sub.listener.Some?)
    ensures Caused(s, step, n, t, t')
  {
    assert Usable(step.sample);
  }

  lemma StepCaused(s: State, step: Step, n: Name)
    requires Inv(s) && Enabled(s, step)
    ensures Caused(s, step, n, At(s, n), At(Apply(s, step), n))
  {
    hide Inv, Caused, At, BeginCall, RegisterChannel, ListenOn, TakeReader, DeclareTopic, AnnounceSchema, CloseChannel, HandleSample;
    match step
    case Begin(tid, ch) => BeginCaused(s, tid, ch, n);
    case Register(tid, a) => RegisterCaused(s, tid, a, n);
    case CountWatch(tid) => CountCaused(s, tid, n);
    case Listen(tid, l, ch) => ListenCaused(s, tid, l, ch, n);
    case Take(tid) => TakeCaused(s, tid, n);
    case Declare(tid, ch) => DeclareCaused(s, tid, ch, n);
    case Announce(tid, ch) => AnnounceCaused(s, tid, ch, n);
    case Close(tid) => CloseCaused(s, tid, n);
    case Receive(c, sample, ch) => ReceiveCaused(s, c, sample, ch, n);
    case _ => NoChange(s, step, Apply(s, step), n);
  }

  // ----- whole runs -----

  /** Every change to a topic, anywhere in a run, has its cause. */
  lemma EveryChangeHasItsCause(run: seq<State>, i: nat, n: Name)
    requires Run(run) && i + 1 < |run|
    ensures exists step :: Enabled(run[i], step) && run[i + 1] == Apply(run[i], step) && Caused(run[i], step, n, At(run[i], n), At(run[i + 1], n))
  {
    hide Inv, Caused, Enabled, Apply, At;
    RunKeeps(run, i);
    assert Next(run[i], run[i + 1]);
    var step :| Enabled(run[i], step) && run[i + 1] == Apply(run[i], step);
    StepCaused(run[i], step, n);
  }

  /** While a channel is open, an arrival that succeeded carries the schema that the channel knows. */
  lemma ArrivedIsAnnounced(run: seq<State>, i: nat, n: Name)
    requires Run(run) && i < |run| && n in run[i].topics && Open(run[i].topics[n])
    ensures var s, t := run[i], run[i].topics[n];
            && t.sub.arrival.Some? && t.sub.arrival.value in s.arrivals
            && var o := s.arrivals[t.sub.arrival.value].outcome;
               o.Arrived? ==> t.sub.schema == Some(o.schema)
  {
    RunKeeps(run, i);
    hide DataSidesOk, ArrivalsOk, RegistryOk, SchemaReadersOk, ReadersOk, ListenersOk, StagesOk, LocksOk, UsersOk, Run;
    assert ChannelOk(n, run[i].topics[n], run[i].arrivals);
  }

  /** A step that learns a schema while somebody waits settles the arrival with that schema, unless a data
      subscription is set up and its reader could not be opened. */
  lemma LearningSettles(run: seq<State>, i: nat, n: Name)
    requires Run(run) && i + 1 < |run| && At(run[i], n).sub.schema.None? && At(run[i + 1], n).sub.schema.Some? && At(run[i], n).sub.resolver
    ensures var s, s', t, t' := run[i], run[i + 1], At(run[i], n), At(run[i + 1], n);
            && t.sub.arrival.Some? && t.sub.arrival.value in s'.arrivals && !t'.sub.resolver
            && s'.arrivals[t.sub.arrival.value]
               == Arrival(n, if t.sub.listener.Some? && t'.sub.dataReader.None? then Failed else Arrived(t'.sub.schema.value))
  {
    hide Inv, Caused, Enabled, Apply;
    RunKeeps(run, i);
    assert Next(run[i], run[i + 1]);
    var step :| Enabled(run[i], step) && run[i + 1] == Apply(run[i], step);
    StepCaused(run[i], step, n);
    LearnedBy(run[i], step, n, At(run[i], n), At(run[i + 1], n));
    SampleSettles(run[i], step.reader, step.sample, step.open);
  }

  /** Only a sample teaches a schema to a channel that is waiting for one. */
  lemma LearnedBy(s: State, step: Step, n: Name, t: Topic, t': Topic)
    requires Inv(s) && Enabled(s, step) && t == At(s, n) && Caused(s, step, n, t, t')
    requires t.sub.schema.None? && t'.sub.schema.Some? && t.sub.resolver
    ensures step.Receive? && s.registry[step.reader] == n && Usable(step.sample)
  {
    TopicIsOk(s, n);
    hide Inv, WriterCause, AnnouncementCause, ListenerCause, WatchCause, ReaderCause;
  }

  /** A usable sample is followed by a channel that knows no schema yet. */
  lemma SampleSettles(s: State, c: Id, sample: Sample, ch: OpenChoice)
    requires Inv(s) && Enabled(s, Receive(c, sample, ch)) && Usable(sample) && At(s, s.registry[c]).sub.schema.None?
    ensures var s', n, t := Apply(s, Receive(c, sample, ch)), s.registry[c], At(s, s.registry[c]);
            && At(s', n).sub.schema == Some(sample.schema) && At(s', n).sub.bound == sample.bound && !At(s', n).sub.resolver
            && t.sub.arrival.Some? && t.sub.arrival.value in s.arrivals
            && s'.arrivals == (if t.sub.resolver then
                                 s.arrivals[t.sub.arrival.value :=
                                   Arrival(n, if t.sub.listener.Some? && At(s', n).sub.dataReader.None? then Failed else Arrived(sample.schema))]
                               else s.arrivals)
  {
    hide Inv, OpenDataReader, Extends;
    RegisteredTopicIs(s, c);
    var n := s.registry[c];
    var t := s.topics[n];
    var t1 := t.(sub := t.sub.(schema := Some(sample.schema), bound := sample.bound));
    if t.sub.listener.Some? {
      ListeningSide(n, t, t1, s.dds);
      OpenedReader(n, t1, s.dds, ch);
    }
    hide DataSideOk;
  }

  /** A sample that cannot be followed teaches nothing and fails whoever waits; one that is no data, or
      comes when a schema is known, changes nothing at all. */
  lemma UnusableSample(s: State, c: Id, sample: Sample, ch: OpenChoice)
    requires Inv(s) && Enabled(s, Receive(c, sample, ch)) && !Usable(sample)
    ensures var s', n, t := Apply(s, Receive(c, sample, ch)), s.registry[c], At(s, s.registry[c]);
            && At(s', n) == (if sample.valid && t.sub.schema.None? then t.(sub := t.sub.(resolver := false)) else t)
            && s'.dds == s.dds && t.sub.arrival.Some? && t.sub.arrival.value in s.arrivals
            && s'.arrivals == if sample.valid && t.sub.schema.None? && t.sub.resolver then s.arrivals[t.sub.arrival.value := Arrival(n, Failed)]
                              else s.arrivals
  {
    hide Inv, OpenDataReader, DataSideOk;
    RegisteredTopicIs(s, c);
  }
}
