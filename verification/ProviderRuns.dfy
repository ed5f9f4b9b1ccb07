/** What holds in every run of the provider, however calls, the schema thread and DDS interleave. */
module ProviderRuns {
  import opened RowReader
  import opened Provider
  import opened ProviderInv
  import opened ProviderSteps

  /** The invariant holds all along a run. */
  lemma {:induction false} RunKeeps(run: seq<State>, i: nat)
    requires Run(run) && i < |run|
    ensures Inv(run[i])
    decreases i
  {
    hide Inv, Enabled, Apply;
    if i == 0 {
      InitInv(run[0]);
    } else {
      RunKeeps(run, i - 1);
      assert Next(run[i - 1], run[i - 1 + 1]);
      var step :| Enabled(run[i - 1], step) && run[i] == Apply(run[i - 1], step);
      StepKeeps(run[i - 1], step);
    }
  }

  // ----- the registry and the readers -----

  /** A registry hit names the topic whose schema reader it is, and that reader has not been deleted. */
  lemma RegistryHitIsLive(run: seq<State>, i: nat, c: Id)
    requires Run(run) && i < |run| && c in run[i].registry
    ensures var s := run[i];
            && s.registry[c] in s.topics && s.topics[s.registry[c]].sub.schemaReader == Some(c)
            && c in s.schemaReaders && s.schemaReaders[c] == ByTopic(s.registry[c])
  {
    RunKeeps(run, i);
    hide DataSidesOk, ChannelsOk, ArrivalsOk, ReadersOk, ListenersOk, StagesOk, LocksOk, UsersOk;
  }

  /** Every live data reader still has its listener and its topic, also while `Unsubscribe` is tearing
      it down. */
  lemma ListenerOutlivesReader(run: seq<State>, i: nat, d: Id)
    requires Run(run) && i < |run| && d in run[i].dds.readers
    ensures var s := run[i];
            s.dds.readers[d].listener in s.listeners && s.dds.readers[d].topic in s.dds.topics
  {
    RunKeeps(run, i);
    hide DataSidesOk, ChannelsOk, ArrivalsOk, RegistryOk, SchemaReadersOk, ListenersOk, StagesOk, LocksOk, UsersOk;
    assert ReaderOk(d, run[i].dds.readers[d], run[i].topics, run[i].dds.topics, run[i].listeners, run[i].apps);
  }

  // ----- no deadlock -----

  ghost function Above(xs: set<nat>): (r: nat)
    ensures forall x | x in xs :: x < r
  {
    if xs == {} then 0
    else
      var x :| x in xs;
      var r := Above(xs - {x});
      assert forall y | y in xs :: y == x || y in xs - {x};
      if r > x then r else x + 1
  }

  /** Some thread is in the middle of something. */
  ghost predicate Busy(s: State)
  {
    (exists tid | tid in s.apps :: s.apps[tid] != Idle) || s.schemaThread != Waiting
  }

  /** The step by which the holder of `schema_mu` lets go of it. */
  ghost function BodyStep(s: State, tid: Tid): Step
  {
    var pc := PcOf(s, tid);
    if !pc.InSchema? then LockSchema(tid)
    else match pc.stage
      case Channel(_) => Register(tid, Above(s.arrivals.Keys))
      case Closing(_, _) => Close(tid)
      case _ =>
        if pc.call.Subscribe? then Listen(tid, Above(s.listeners.Keys), OpenChoice(false, None, None))
        else if pc.call.Unsubscribe? then Take(tid)
        else Declare(tid, DeclareChoice(false, None, None))
  }

  lemma BodyCanFinish(s: State, tid: Tid)
    requires Inv(s) && tid in s.apps && s.apps[tid].InSchema?
    ensures Enabled(s, BodyStep(s, tid)) && Forward(BodyStep(s, tid))
  {
    hide DataSidesOk, ChannelsOk, ArrivalsOk, RegistryOk, SchemaReadersOk, ReadersOk, ListenersOk, UsersOk;
    assert StageOk(s.topics, s.apps[tid]);
  }

  ghost function MuStep(s: State, tid: Tid): Step
  {
    var pc := PcOf(s, tid);
    if !pc.InMu? then LockSchema(tid)
    else match pc.stage
      case Count => CountWatch(tid)
      case Announcing => Announce(tid, AnnounceChoice(false, false, false))
      case _ => Begin(tid, BeginChoice(false, false, None))
  }

  lemma MuHolderCanMove(s: State, tid: Tid)
    requires Inv(s) && s.mu == Some(tid) && s.schemaMu == None
    ensures Enabled(s, MuStep(s, tid)) && Forward(MuStep(s, tid))
  {
    hide DataSidesOk, ChannelsOk, ArrivalsOk, RegistryOk, SchemaReadersOk, ReadersOk, ListenersOk, UsersOk;
    assert StageOk(s.topics, s.apps[tid]);
  }

  ghost function FreeStep(s: State, tid: Tid): Step
  {
    match PcOf(s, tid)
    case WantMu(call) => if call.Publish? then LockShared(tid) else LockMu(tid)
    case Sharing(_) => Unshare(tid)
    case Cleanup(c, d, _) =>
      if c.Some? then DeleteSchemaReader(tid) else if d.Some? then DeleteDataReader(tid) else DropListener(tid)
    case _ => SchemaLock
  }

  lemma FreeThreadCanMove(s: State, tid: Tid)
    requires Inv(s) && s.mu == None && s.schemaMu == None && tid in s.apps && s.apps[tid] != Idle
    requires s.sharers == {} || s.apps[tid].Sharing? || s.apps[tid].Cleanup?
    ensures Enabled(s, FreeStep(s, tid)) && Forward(FreeStep(s, tid))
  {
    hide DataSidesOk, ChannelsOk, ArrivalsOk, RegistryOk, SchemaReadersOk, ReadersOk, ListenersOk, StagesOk, UsersOk;
  }

  /** Starting a call or waking the schema thread comes from outside. */
  predicate Internal(step: Step) { !step.Invoke? && !step.Wake? }

  /** A step that needs no sample to arrive either. */
  predicate Forward(step: Step) { Internal(step) && !step.Receive? }

  lemma CanMove(s: State) returns (step: Step)
    requires Inv(s) && Busy(s)
    ensures Enabled(s, step) && Forward(step)
  {
    HoldersExist(s);
    hide Inv, BodyStep, MuStep, FreeStep;
    match s.schemaMu
    case Some(SchemaThread) =>
      step := if s.schemaThread.active == {} then SchemaUnlock else var c :| c in s.schemaThread.active; Forget(c);
    case Some(App(tid)) =>
      step := BodyStep(s, tid);
      BodyCanFinish(s, tid);
    case None =>
      if s.mu.Some? {
        step := MuStep(s, s.mu.value);
        MuHolderCanMove(s, s.mu.value);
      } else if s.schemaThread.Wants? {
        step := SchemaLock;
      } else {
        var tid :| tid in s.apps && s.apps[tid] != Idle && (s.sharers == {} || tid in s.sharers);
        step := FreeStep(s, tid);
        FreeThreadCanMove(s, tid);
      }
  }

  /** No reachable state has every thread waiting: while anything is under way, some thread can take a
      step of its own. */
  lemma NoDeadlock(run: seq<State>, i: nat) returns (step: Step)
    requires Run(run) && i < |run| && Busy(run[i])
    ensures Enabled(run[i], step) && Internal(step)
  {
    hide Inv, Enabled, Run, Busy;
    RunKeeps(run, i);
    step := CanMove(run[i]);
  }

  lemma HoldersExist(s: State)
    requires Inv(s)
    ensures s.schemaMu == Some(SchemaThread) <==> s.schemaThread.Serving?
    ensures forall tid | s.schemaMu == Some(App(tid)) :: tid in s.apps && s.apps[tid].InSchema?
    ensures forall tid | tid in s.sharers :: tid in s.apps && s.apps[tid].Sharing?
    ensures s.mu == None ==> forall tid | tid in s.apps :: !HoldsMu(s.apps[tid])
  {
    hide DataSidesOk, ChannelsOk, ArrivalsOk, RegistryOk, SchemaReadersOk, ReadersOk, ListenersOk, StagesOk, UsersOk;
  }

  /** How many steps of its own a thread may still take before its call is over. */
  function StepsLeft(pc: Pc): nat
  {
    match pc
    case Idle => 0
    case WantMu(_) => 12
    case Sharing(_) => 1
    case InMu(_, Start) => 11
    case WantSchema(_, Channel(_)) => 10
    case InSchema(_, Channel(_)) => 9
    case WantSchema(_, Body) => 8
    case InSchema(_, Body) => 7
    case WantSchema(_, Closing(_, _)) => 6
    case InSchema(_, Closing(_, _)) => 5
    case Cleanup(c, d, _) => 1 + (if c.Some? then 1 else 0) + (if d.Some? then 1 else 0)
    case _ => 4
  }

  function StepThread(step: Step): Option<Tid>
  {
    match step
    case Invoke(tid, _) => Some(tid)
    case LockMu(tid) => Some(tid)
    case LockShared(tid) => Some(tid)
    case Unshare(tid) => Some(tid)
    case Begin(tid, _) => Some(tid)
    case LockSchema(tid) => Some(tid)
    case Register(tid, _) => Some(tid)
    case CountWatch(tid) => Some(tid)
    case Listen(tid, _, _) => Some(tid)
    case Take(tid) => Some(tid)
    case Declare(tid, _) => Some(tid)
    case Announce(tid, _) => Some(tid)
    case Close(tid) => Some(tid)
    case DeleteSchemaReader(tid) => Some(tid)
    case DeleteDataReader(tid) => Some(tid)
    case DropListener(tid) => Some(tid)
    case _ => None
  }

  /** `s'` is `s` with thread `tid` closer to its end than `bound`. */
  ghost predicate Advances(s: State, s': State, tid: Tid, bound: nat)
  {
    tid in s'.apps && s'.apps == s.apps[tid := s'.apps[tid]] && StepsLeft(s'.apps[tid]) < bound
  }

  lemma AdvancesTo(s: State, s': State, tid: Tid, pc: Pc, bound: nat)
    requires s'.apps == s.apps[tid := pc] && StepsLeft(pc) < bound
    ensures Advances(s, s', tid, bound)
  {
  }

  lemma Lefts(call: Call, r: Option<Id>)
    ensures StepsLeft(Idle) == 0 && StepsLeft(WantSchema(call, Body)) == 8 && StepsLeft(InMu(call, Count)) == 4
    ensures StepsLeft(WantSchema(call, Channel(r))) == 10 && StepsLeft(WantSchema(call, Closing(None, None))) == 6
  {
  }

  lemma Moved(s: State, n: Name, t: Topic, tid: Tid, pc: Pc)
    ensures Goto(Put(s, n, t), tid, pc).apps == s.apps[tid := pc] && Done(Put(s, n, t), tid).apps == s.apps[tid := Idle]
    ensures Goto(s, tid, pc).apps == s.apps[tid := pc] && Done(s, tid).apps == s.apps[tid := Idle]
  {
  }

  lemma EnsureAdvances(s: State, tid: Tid, call: Call, ch: BeginChoice)
    ensures Advances(s, EnsureChannel(s, tid, call, ch), tid, 11)
  {
    hide Advances, Open, StepsLeft, Put, Goto, Done;
    var s', n, t := EnsureChannel(s, tid, call, ch), call.name, At(s, call.name);
    Lefts(call, None);
    if Open(t) {
      var pc := if call.Subscribe? then WantSchema(call, Body) else InMu(call, Count);
      Moved(s, n, t, tid, pc);
      AdvancesTo(s, s', tid, pc, 11);
    } else if t.pub.schema.Some? {
      var pc := if ch.decodes then WantSchema(call, Channel(None)) else Idle;
      Moved(s, n, t, tid, pc);
      AdvancesTo(s, s', tid, pc, 11);
    } else {
      Lefts(call, ch.reader);
      var made := t.schemaTopic || ch.schemaTopic;
      var pc := if made && ch.reader.Some? then WantSchema(call, Channel(ch.reader)) else Idle;
      Moved(s, n, if made then t.(schemaTopic := true) else t, tid, pc);
      AdvancesTo(s, s', tid, pc, 11);
    }
  }

  lemma BeginAdvances(s: State, tid: Tid, call: Call, ch: BeginChoice)
    ensures Advances(s, BeginCall(s, tid, call, ch), tid, 11)
  {
    hide Advances, EnsureChannel, StepsLeft, Put, Goto, Done;
    var s', n, t := BeginCall(s, tid, call, ch), call.name, At(s, call.name);
    Lefts(call, None);
    var fewer := if t.sub.watches > 0 then t.(sub := t.sub.(watches := t.sub.watches - 1)) else t;
    var pc := if call.Create? || (call.Unsubscribe? && n in s.topics) then WantSchema(call, Body)
              else if call.UnsubscribeSchema? && t.sub.watches == 1 && t.sub.listener.None? then WantSchema(call, Closing(None, None))
              else Idle;
    Moved(s, n, if call.UnsubscribeSchema? then fewer else t, tid, pc);
    if call.SubscribeSchema? || (call.Subscribe? && t.sub.listener.None?) {
      EnsureAdvances(s, tid, call, ch);
    } else {
      AdvancesTo(s, s', tid, pc, 11);
    }
  }

  lemma ListenAdvances(s: State, tid: Tid, call: Call, l: Id, ch: OpenChoice)
    requires call.Subscribe?
    ensures Advances(s, ListenOn(s, tid, call, l, ch), tid, 7)
  {
    hide Advances, OpenDataReader;
    var s', t := ListenOn(s, tid, call, l, ch), At(s, call.name);
    var t1 := t.(sub := t.sub.(listener := Some(l), profile := call.profile));
    if t.sub.schema.Some? && !OpenDataReader(call.name, t1, s.dds, ch).ok && t.sub.watches == 0 {
      AdvancesTo(s, s', tid, WantSchema(call, Closing(None, None)), 7);
    } else {
      AdvancesTo(s, s', tid, Idle, 7);
    }
  }

  lemma TakeAdvances(s: State, tid: Tid, call: Call)
    ensures Advances(s, TakeReader(s, tid, call), tid, 7)
  {
    hide Advances;
    var s', t := TakeReader(s, tid, call), At(s, call.name);
    if t.sub.watches == 0 {
      AdvancesTo(s, s', tid, WantSchema(call, Closing(t.sub.dataReader, t.sub.listener)), 7);
    } else {
      AdvancesTo(s, s', tid, Cleanup(None, t.sub.dataReader, t.sub.listener), 7);
    }
  }

  lemma DeclareAdvances(s: State, tid: Tid, call: Call, ch: DeclareChoice)
    requires call.Create?
    ensures Advances(s, DeclareTopic(s, tid, call, ch), tid, 7)
  {
    hide Advances, PlaceTopic, Conflicts, HeldElsewhere, Inv, Effective;
    Lefts(call, None);
    var s', t := DeclareTopic(s, tid, call, ch), At(s, call.name);
    var p := PlaceTopic(call.name, t.dataTopic, s.dds, Effective(s, call.bound), ch.deletes, ch.topic);
    if t.pub.writer.Some? {
      AdvancesTo(s, s', tid, if Conflicts(t, call) then Idle else InMu(call, Announcing), 7);
    } else if HeldElsewhere(s, t, Effective(s, call.bound)) || !p.ok || p.topic.None? || ch.writer.None? {
      AdvancesTo(s, s', tid, Idle, 7);
    } else {
      AdvancesTo(s, s', tid, InMu(call, Announcing), 7);
    }
  }

  lemma RegisterAdvances(s: State, tid: Tid, call: Call, reader: Option<Id>, a: Id)
    ensures Advances(s, RegisterChannel(s, tid, call, reader, a), tid, 9)
  {
    hide Advances;
    var s' := RegisterChannel(s, tid, call, reader, a);
    AdvancesTo(s, s', tid, s'.apps[tid], 9);
  }

  lemma AnnounceAdvances(s: State, tid: Tid, call: Call, ch: AnnounceChoice)
    requires call.Create?
    ensures Advances(s, AnnounceSchema(s, tid, call, ch), tid, 4)
  {
    hide Advances;
    AdvancesTo(s, AnnounceSchema(s, tid, call, ch), tid, Idle, 4);
  }

  lemma CloseAdvances(s: State, tid: Tid, n: Name, stage: Stage)
    requires stage.Closing?
    ensures Advances(s, CloseChannel(s, tid, n, stage), tid, 5)
  {
    hide Advances;
    var s' := CloseChannel(s, tid, n, stage);
    AdvancesTo(s, s', tid, s'.apps[tid], 5);
  }

  lemma SampleMovesNobody(s: State, c: Id, sample: Sample, ch: OpenChoice)
    requires c in s.registry && s.schemaThread.Serving?
    ensures HandleSample(s, c, sample, ch).apps == s.apps
  {
    hide OpenDataReader;
  }

  /** Where a lock step takes its thread. */
  lemma LockMoves(s: State, step: Step) returns (pc: Pc)
    requires Enabled(s, step) && (step.LockMu? || step.LockShared? || step.Unshare? || step.LockSchema?)
    requires PcOk(PcOf(s, step.tid))
    ensures Apply(s, step).apps == s.apps[step.tid := pc] && StepsLeft(pc) < StepsLeft(PcOf(s, step.tid))
  {
    hide BeginCall, RegisterChannel, ListenOn, TakeReader, DeclareTopic, AnnounceSchema, CloseChannel, HandleSample;
    var was := s.apps[step.tid];
    pc := match step
          case LockMu(_) => InMu(was.call, Start)
          case LockShared(_) => Sharing(was.call)
          case LockSchema(_) => InSchema(was.call, was.stage)
          case _ => Idle;
  }

  lemma LockAdvances(s: State, step: Step)
    requires Inv(s) && Enabled(s, step) && (step.LockMu? || step.LockShared? || step.Unshare? || step.LockSchema?)
    ensures Advances(s, Apply(s, step), step.tid, StepsLeft(PcOf(s, step.tid)))
  {
    hide Inv, Advances, StageOk, Apply, Enabled, PcOk, StepsLeft, PcOf;
    StagesFit(s, step.tid);
    var pc := LockMoves(s, step);
    AdvancesTo(s, Apply(s, step), step.tid, pc, StepsLeft(PcOf(s, step.tid)));
  }

  lemma CleanupAdvances(s: State, step: Step)
    requires Enabled(s, step) && (step.DeleteSchemaReader? || step.DeleteDataReader? || step.DropListener? || step.CountWatch?)
    ensures Advances(s, Apply(s, step), step.tid, StepsLeft(PcOf(s, step.tid)))
  {
    hide Advances, BeginCall, RegisterChannel, ListenOn, TakeReader, DeclareTopic, AnnounceSchema, CloseChannel, HandleSample;
    var pc := s.apps[step.tid];
    AdvancesTo(s, Apply(s, step), step.tid,
               match step
               case DeleteSchemaReader(_) => pc.(schemaReader := None)
               case DeleteDataReader(_) => pc.(dataReader := None)
               case _ => Idle,
               StepsLeft(pc));
  }

  lemma StepAdvances(s: State, step: Step)
    requires Inv(s) && Enabled(s, step) && !step.Invoke?
    ensures match StepThread(step)
            case None => Apply(s, step).apps == s.apps
            case Some(tid) => Advances(s, Apply(s, step), tid, StepsLeft(PcOf(s, tid)))
  {
    hide Inv, Advances, BeginCall, RegisterChannel, ListenOn, TakeReader, DeclareTopic, AnnounceSchema, CloseChannel, HandleSample,
      Goto, Put, Done;
    match step
    case Begin(tid, ch) => BeginAdvances(s, tid, s.apps[tid].call, ch);
    case Register(tid, a) => RegisterAdvances(s, tid, s.apps[tid].call, s.apps[tid].stage.reader, a);
    case Listen(tid, l, ch) => ListenAdvances(s, tid, s.apps[tid].call, l, ch);
    case Take(tid) => TakeAdvances(s, tid, s.apps[tid].call);
    case Declare(tid, ch) => DeclareAdvances(s, tid, s.apps[tid].call, ch);
    case Announce(tid, ch) => AnnounceAdvances(s, tid, s.apps[tid].call, ch);
    case Close(tid) => CloseAdvances(s, tid, s.apps[tid].call.name, s.apps[tid].stage);
    case Receive(c, sample, ch) => SampleMovesNobody(s, c, sample, ch);
    case LockMu(_) => LockAdvances(s, step);
    case LockShared(_) => LockAdvances(s, step);
    case Unshare(_) => LockAdvances(s, step);
    case LockSchema(_) => LockAdvances(s, step);
    case _ => if StepThread(step).Some? { CleanupAdvances(s, step); }
  }

  /** A call takes at most twelve steps of its own, and no other thread's step adds to them. */
  lemma CallsAreShort(s: State, step: Step, tid: Tid)
    requires Inv(s) && Enabled(s, step) && !step.Invoke?
    ensures var left, left' := StepsLeft(PcOf(s, tid)), StepsLeft(PcOf(Apply(s, step), tid));
            if StepThread(step) == Some(tid) then left' < left <= 12 else left' == left
  {
    hide Inv, Enabled, Apply, StepsLeft;
    StepAdvances(s, step);
    MostSteps(PcOf(s, tid));
  }

  lemma MostSteps(pc: Pc)
    ensures StepsLeft(pc) <= 12
  {
  }

  lemma StagesFit(s: State, tid: Tid)
    requires Inv(s)
    ensures PcOk(PcOf(s, tid)) && StageOk(s.topics, PcOf(s, tid))
  {
    hide DataSidesOk, ChannelsOk, ArrivalsOk, RegistryOk, SchemaReadersOk, ReadersOk, ListenersOk, UsersOk;
  }

  // ----- every call comes to its end -----

  /** What the application threads may still do, all together. */
  ghost function AllLeft(apps: map<Tid, Pc>, tids: set<Tid>): nat
    requires tids <= apps.Keys
  {
    if tids == {} then 0
    else
      var tid :| tid in tids;
      StepsLeft(apps[tid]) + AllLeft(apps, tids - {tid})
  }

  lemma {:induction false} LeftOf(apps: map<Tid, Pc>, tids: set<Tid>, tid: Tid)
    requires tids <= apps.Keys && tid in tids
    ensures AllLeft(apps, tids) == StepsLeft(apps[tid]) + AllLeft(apps, tids - {tid})
    decreases |tids|
  {
    hide StepsLeft;
    var x :| x in tids && AllLeft(apps, tids) == StepsLeft(apps[x]) + AllLeft(apps, tids - {x});
    if x != tid {
      LeftOf(apps, tids - {x}, tid);
      LeftOf(apps, tids - {tid}, x);
      assert tids - {x} - {tid} == tids - {tid} - {x};
    }
  }

  lemma {:induction false} SameLeft(apps: map<Tid, Pc>, apps': map<Tid, Pc>, tids: set<Tid>)
    requires tids <= apps.Keys && tids <= apps'.Keys && forall x | x in tids :: apps'[x] == apps[x]
    ensures AllLeft(apps', tids) == AllLeft(apps, tids)
    decreases |tids|
  {
    hide StepsLeft;
    if tids != {} {
      var x :| x in tids;
      LeftOf(apps, tids, x);
      LeftOf(apps', tids, x);
      SameLeft(apps, apps', tids - {x});
    }
  }

  function ThreadLeft(pc: SchemaPc): nat
  {
    match pc
    case Waiting => 0
    case Wants(active) => |active| + 2
    case Serving(active) => |active| + 1
  }

  ghost function WorkLeft(s: State): nat { AllLeft(s.apps, s.apps.Keys) + ThreadLeft(s.schemaThread) }

  lemma BeginKeepsThread(s: State, tid: Tid, call: Call, ch: BeginChoice)
    ensures EnsureChannel(s, tid, call, ch).schemaThread == s.schemaThread == BeginCall(s, tid, call, ch).schemaThread
  {
    EnsureKeepsThread(s, tid, call, ch);
    hide EnsureChannel, Put, Goto, Done;
    var n := call.name;
    var t := At(s, n);
    var fewer := if t.sub.watches > 0 then t.(sub := t.sub.(watches := t.sub.watches - 1)) else t;
    Kept(s, n, if call.UnsubscribeSchema? then fewer else t, tid, WantSchema(call, if call.UnsubscribeSchema? then Closing(None, None) else Body));
  }

  lemma Kept(s: State, n: Name, t: Topic, tid: Tid, pc: Pc)
    ensures Put(s, n, t).schemaThread == s.schemaThread
    ensures Goto(Put(s, n, t), tid, pc).schemaThread == Done(Put(s, n, t), tid).schemaThread == s.schemaThread
    ensures Goto(s, tid, pc).schemaThread == Done(s, tid).schemaThread == s.schemaThread
  {
  }

  lemma EnsureKeepsThread(s: State, tid: Tid, call: Call, ch: BeginChoice)
    ensures EnsureChannel(s, tid, call, ch).schemaThread == s.schemaThread
  {
    hide Put, Goto, Done, Open;
    var n := call.name;
    var t := At(s, n);
    if Open(t) {
      Kept(s, n, t, tid, if call.Subscribe? then WantSchema(call, Body) else InMu(call, Count));
    } else if t.pub.schema.Some? {
      Kept(s, n, t, tid, WantSchema(call, Channel(None)));
    } else {
      Kept(s, n, t, tid, Idle);
      Kept(s, n, t.(schemaTopic := true), tid, WantSchema(call, Channel(ch.reader)));
    }
  }

  lemma ListenKeepsThread(s: State, tid: Tid, call: Call, l: Id, ch: OpenChoice)
    requires call.Subscribe?
    ensures ListenOn(s, tid, call, l, ch).schemaThread == s.schemaThread
  {
    hide OpenDataReader, Put, Goto, Done;
    var n, t := call.name, At(s, call.name);
    var t1 := t.(sub := t.sub.(listener := Some(l), profile := call.profile));
    var o := OpenDataReader(n, t1, s.dds, ch);
    var t2 := o.topic.(sub := o.topic.sub.(listener := None));
    Kept(s, n, t1, tid, Idle);
    Kept(s, n, o.topic, tid, Idle);
    Kept(Put(s, n, t2).(schemaMu := None, dds := o.dds), n, t2, tid, WantSchema(call, Closing(None, None)));
    Kept(s, n, t2, tid, Idle);
  }

  lemma DeclareKeepsThread(s: State, tid: Tid, call: Call, ch: DeclareChoice)
    requires call.Create?
    ensures DeclareTopic(s, tid, call, ch).schemaThread == s.schemaThread
  {
    hide PlaceTopic, Conflicts, HeldElsewhere, Put, Goto, Done;
    var n, own := call.name, Effective(s, call.bound);
    var t := At(s, n);
    var p := PlaceTopic(n, t.dataTopic, s.dds, own, ch.deletes, ch.topic);
    var t1 := t.(dataTopic := p.topic);
    Kept(s, n, t1, tid, InMu(call, Announcing));
    Kept(s, n, t1.(pub := t1.pub.(writer := ch.writer, bound := own, profile := call.profile)), tid, InMu(call, Announcing));
  }

  lemma TakeKeepsThread(s: State, tid: Tid, call: Call)
    ensures TakeReader(s, tid, call).schemaThread == s.schemaThread
  {
  }

  lemma OtherKeepsThread(s: State, tid: Tid, call: Call, stage: Stage, r: Option<Id>, a: Id, ch: AnnounceChoice)
    ensures call.Create? ==> AnnounceSchema(s, tid, call, ch).schemaThread == s.schemaThread
    ensures RegisterChannel(s, tid, call, r, a).schemaThread == s.schemaThread
    ensures stage.Closing? ==> CloseChannel(s, tid, call.name, stage).schemaThread == s.schemaThread
  {
    hide Settle;
  }

  lemma AppKeepsThread(s: State, step: Step)
    requires Enabled(s, step) && StepThread(step).Some?
    ensures Apply(s, step).schemaThread == s.schemaThread
  {
    hide BeginCall, RegisterChannel, ListenOn, TakeReader, DeclareTopic, AnnounceSchema, CloseChannel, HandleSample;
    var ignore := AnnounceChoice(false, false, false);
    match step
    case Begin(tid, ch) => BeginKeepsThread(s, tid, s.apps[tid].call, ch);
    case Register(tid, a) => OtherKeepsThread(s, tid, s.apps[tid].call, Start, s.apps[tid].stage.reader, a, ignore);
    case Listen(tid, l, ch) => ListenKeepsThread(s, tid, s.apps[tid].call, l, ch);
    case Take(tid) => TakeKeepsThread(s, tid, s.apps[tid].call);
    case Declare(tid, ch) => DeclareKeepsThread(s, tid, s.apps[tid].call, ch);
    case Announce(tid, ch) => OtherKeepsThread(s, tid, s.apps[tid].call, Start, None, 0, ch);
    case Close(tid) => OtherKeepsThread(s, tid, s.apps[tid].call, s.apps[tid].stage, None, 0, ignore);
    case _ =>
  }

  lemma ForwardShrinks(s: State, step: Step)
    requires Inv(s) && Enabled(s, step) && Forward(step)
    ensures WorkLeft(Apply(s, step)) < WorkLeft(s)
  {
    StepAdvances(s, step);
    var s' := Apply(s, step);
    match StepThread(step)
    case Some(tid) =>
      AppKeepsThread(s, step);
      hide Inv, Apply, StepsLeft;
      assert tid in s.apps by { hide Advances; KnownThread(s, step); }
      assert s'.apps.Keys == s.apps.Keys;
      LeftOf(s.apps, s.apps.Keys, tid);
      LeftOf(s'.apps, s.apps.Keys, tid);
      SameLeft(s.apps, s'.apps, s.apps.Keys - {tid});
    case None =>
      hide Inv, StepsLeft;
      if step.Forget? { assert s.schemaThread.active - {step.reader} < s.schemaThread.active; }
  }

  lemma KnownThread(s: State, step: Step)
    requires Enabled(s, step) && StepThread(step).Some?
    ensures StepThread(step).value in s.apps
  {
  }

  ghost predicate Moves(s: State, s': State) { exists step :: Enabled(s, step) && Internal(step) && s' == Apply(s, step) }

  /** A path of internal steps. */
  ghost predicate Path(path: seq<State>)
  {
    path != [] && forall k | 0 <= k < |path| - 1 :: Moves(path[k], path[k + 1])
  }

  lemma {:induction false} RestIsNear(s: State) returns (path: seq<State>)
    requires Inv(s)
    ensures Path(path) && path[0] == s && !Busy(path[|path| - 1]) && |path| <= WorkLeft(s) + 1
    decreases WorkLeft(s)
  {
    hide Inv, Enabled, Apply, Busy, WorkLeft;
    if !Busy(s) {
      path := [s];
    } else {
      var step := CanMove(s);
      var s' := Apply(s, step);
      StepKeeps(s, step);
      ForwardShrinks(s, step);
      var rest := RestIsNear(s');
      path := [s] + rest;
      assert Moves(s, s');
      assert forall k | 0 <= k < |rest| - 1 :: Moves(rest[k], rest[k + 1]);
      assert forall k | 0 < k < |path| :: path[k] == rest[k - 1];
    }
  }

  /** From every reachable state the provider can come to rest by steps of its own threads alone: every
      call returns and the schema thread goes back to waiting. */
  lemma ComesToRest(run: seq<State>, i: nat) returns (path: seq<State>)
    requires Run(run) && i < |run|
    ensures Path(path) && path[0] == run[i] && !Busy(path[|path| - 1])
  {
    hide Inv, Run, Busy, Path;
    RunKeeps(run, i);
    path := RestIsNear(run[i]);
  }
}
