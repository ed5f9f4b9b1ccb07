/** What the validation pass of `BatchDecoder::Append` must answer, and the small steps that its
    walk takes towards that answer. */
module SkipSpec {
  import opened Wire
  import opened RowTypes
  import opened CodecSpec
  import opened RowReader
  import opened RowDecoder
  import CodecRows
  import opened Budget
  import opened Capacity

  datatype Outcome = Fine | Malformed | OverCapacity

  /** `Fine` exactly when the value parses and every budget has room for it; then the pending
      counters have grown by the value's charge.  `Malformed` only for bytes that do not parse. */
  ghost predicate Verdict(t: Type, held: Tally, p: Tally, d: Decoded<Value>, o: Outcome, p': Tally, rest: bytes)
  {
    match o
    case Fine => d.Ok? && rest == d.rest && Passes(t, held, p, d.val) && p' == Add(p, Charge(true, t, d.val))
    case Malformed => d.Err?
    case OverCapacity => d.Ok? ==> !Passes(t, held, p, d.val)
  }

  /** The same for a run of slots of one child. */
  ghost predicate SlotsVerdict(t: Type, held: Tally, p: Tally, d: Decoded<seq<Value>>, o: Outcome, p': Tally, rest: bytes)
  {
    match o
    case Fine => d.Ok? && rest == d.rest && ElemsPass(t, held, p, d.val) && p' == Add(p, ChargeElems(true, t, d.val))
    case Malformed => d.Err?
    case OverCapacity => d.Ok? ==> !ElemsPass(t, held, p, d.val)
  }

  /** The same for one slot, null or not. */
  ghost predicate SlotVerdict(t: Type, held: Tally, p: Tally, d: Decoded<Value>, o: Outcome, p': Tally, rest: bytes)
  {
    match o
    case Fine => d.Ok? && rest == d.rest && SlotPasses(t, held, p, d.val) && p' == Add(p, ChargeSlot(true, t, d.val))
    case Malformed => d.Err?
    case OverCapacity => d.Ok? ==> !SlotPasses(t, held, p, d.val)
  }

  /** Some counter of the tree, with what its column holds, passes the limit. */
  ghost predicate Exceeded(t: Type, held: Tally, p: Tally)
    decreases t
  {
    || (Budgeted(t) && OwnExceeded(t, held, p))
    || exists k | 0 <= k < |Kids(t)| && k < |held.kids| && k < |p.kids| ::
         Kids(t)[k] < t && Exceeded(Kids(t)[k], held.kids[k], p.kids[k])
  }

  /** The comparison of one node: a dense union looks at a child, any other at itself. */
  ghost predicate OwnExceeded(t: Type, held: Tally, p: Tally)
  {
    if t.Union? then exists k | 0 <= k < |held.arms| :: held.arms[k] + p.own > LIMIT else held.own + p.own > LIMIT
  }

  function AsList(d: Decoded<seq<Value>>): Decoded<Value>
  {
    match d
    case Err => Err
    case Ok(vs, r) => Ok(ListV(vs), r)
  }

  // ----- a run of slots -----

  /** Finishing `d'` from counters `p'` is the same task as finishing `d` from `p`. */
  ghost predicate SameTask(t: Type, held: Tally, p: Tally, d: Decoded<seq<Value>>, p': Tally, d': Decoded<seq<Value>>)
  {
    && d.Ok? == d'.Ok?
    && (d.Ok? ==>
          && d.rest == d'.rest && (ElemsPass(t, held, p, d.val) <==> ElemsPass(t, held, p', d'.val))
          && Add(p, ChargeElems(true, t, d.val)) == Add(p', ChargeElems(true, t, d'.val)))
  }

  lemma {:induction false} TaskStep(t: Type, held: Tally, p: Tally, d: Decoded<seq<Value>>, p': Tally, nulls: seq<bool>, i: nat, s: bytes)
    requires i < |nulls| && TallyOf(t, p')
    requires SameTask(t, held, p, d, p', DecodeElems(t, nulls[i..], s))
    ensures var x := DecodeSlot(t, nulls[i], s);
            && (x.Err? ==> d.Err?)
            && (x.Ok? && !SlotPasses(t, held, p', x.val) ==> d.Ok? ==> !ElemsPass(t, held, p, d.val))
            && (x.Ok? && SlotPasses(t, held, p', x.val) ==>
                  && TallyOf(t, Add(p', ChargeSlot(true, t, x.val)))
                  && SameTask(t, held, p, d, Add(p', ChargeSlot(true, t, x.val)), DecodeElems(t, nulls[i + 1..], x.rest)))
  {
    hide Decode, DecodeSlot, SlotPasses, Charge, ChargeSlot, TallyOf, Zero, Add;
    assert nulls[i..][1..] == nulls[i + 1..];
    var x := DecodeSlot(t, nulls[i], s);
    if x.Ok? {
      var c := ChargeSlot(true, t, x.val);
      ChargeIsTally(true, t, x.val);
      AddTallies(t, p', c, c);
      var d' := DecodeElems(t, nulls[i + 1..], x.rest);
      if d'.Ok? {
        var cs := ChargeElems(true, t, d'.val);
        ElemsAreTally(true, t, d'.val);
        AddTallies(t, p', c, cs);
        ConsParts(t, held, p', x.val, d'.val);
      }
    }
  }

  lemma {:induction false} ConsParts(t: Type, held: Tally, p: Tally, v: Value, vs: seq<Value>)
    ensures ElemsPass(t, held, p, [v] + vs)
        <==> SlotPasses(t, held, p, v) && ElemsPass(t, held, Add(p, ChargeSlot(true, t, v)), vs)
    ensures ChargeElems(true, t, [v] + vs) == Add(ChargeSlot(true, t, v), ChargeElems(true, t, vs))
  {
    hide SlotPasses, ChargeSlot, Add;
    assert ([v] + vs)[0] == v && ([v] + vs)[1..] == vs;
  }

  lemma {:induction false} TaskEnd(t: Type, held: Tally, p: Tally, d: Decoded<seq<Value>>, p': Tally, nulls: seq<bool>, s: bytes)
    requires TallyOf(t, p') && SameTask(t, held, p, d, p', DecodeElems(t, nulls[|nulls|..], s))
    ensures SlotsVerdict(t, held, p, d, Fine, p', s)
  {
    hide Decode, Charge, TallyOf, Zero, Add;
    assert nulls[|nulls|..] == [];
    AddZero(t, p');
  }

  lemma {:induction false} OneSlot(t: Type, held: Tally, p: Tally, v: Value)
    ensures ElemsPass(t, held, p, [v]) <==> SlotPasses(t, held, p, v)
    ensures ChargeElems(true, t, [v]) == ChargeSlot(true, t, v)
    ensures ElemsPass(t, held, p, []) && ChargeElems(true, t, []) == Zero(t)
  {
    hide SlotPasses, ChargeSlot, Add, Zero, TallyOf;
    assert [v] + [] == [v];
    ConsParts(t, held, p, v, []);
    ChargeIsTally(true, t, v);
    AddZero(t, ChargeSlot(true, t, v));
  }

  // ----- runs that cost nothing -----

  lemma {:induction false} FreeSlot(t: Type, held: Tally, p: Tally, v: Value)
    requires FixedWidth(t) > 0 || v == Null
    ensures SlotPasses(t, held, p, v) && ChargeSlot(true, t, v) == Zero(t)
  {
    if v != Null { assert Charge(true, t, v).kids == Zeros(t) == []; }
  }

  /** Nulls and fixed-width elements have no budget. */
  lemma {:induction false} FreeSlots(t: Type, held: Tally, p: Tally, vs: seq<Value>)
    requires TallyOf(t, p) && (FixedWidth(t) > 0 || forall i | 0 <= i < |vs| :: vs[i] == Null)
    ensures ElemsPass(t, held, p, vs) && Add(p, ChargeElems(true, t, vs)) == p
    ensures ChargeElems(true, t, vs) == Zero(t)
    decreases |vs|
  {
    hide Add, Zero, TallyOf, FixedWidth, SlotPasses, ChargeSlot;
    AddZero(t, p);
    if vs != [] {
      FreeSlot(t, held, p, vs[0]);
      FreeSlots(t, held, p, vs[1..]);
      AddZero(t, Zero(t)) by { AddZero(t, p); }
    }
  }

  lemma {:induction false} AllNullElems(t: Type, nulls: seq<bool>, s: bytes)
    requires false !in nulls
    ensures DecodeElems(t, nulls, s) == Ok(seq(|nulls|, _ => Null), s)
    decreases |nulls|
  {
    hide Decode;
    if nulls == [] {
      assert seq(|nulls|, _ => Null) == [];
    } else {
      assert nulls[0];
      AllNullElems(t, nulls[1..], s);
      assert [Null] + seq(|nulls| - 1, _ => Null) == seq(|nulls|, _ => Null);
    }
  }

  // ----- one node and its children -----

  /** The counters of a node after its own check and its children's walks. */
  lemma {:induction false} Assembled(t: Type, p: Tally, v: Value, own: nat, arms: seq<nat>, kids: seq<Tally>)
    requires TallyOf(t, p) && |kids| == |Kids(t)|
    requires own == p.own + OwnCharge(true, t, v) && arms == AddNats(p.arms, ArmCharge(true, t, v))
    requires forall k | 0 <= k < |kids| :: kids[k] == Add(p.kids[k], ChargeElems(true, Kids(t)[k], KidSlots(t, v, k)))
    ensures Tally(own, arms, kids) == Add(p, Charge(true, t, v))
  {
    hide Add, ChargeElems, KidSlots, OwnCharge, ArmCharge;
    AddByParts(t, p, Charge(true, t, v), Tally(own, arms, kids));
  }

  lemma {:induction false} NoArms(t: Type, p: Tally, v: Value)
    requires TallyOf(t, p) && ArmCount(t) == 0
    ensures AddNats(p.arms, ArmCharge(true, t, v)) == p.arms == []
  {
  }

  /** What a list charges itself. */
  function ListCharge(t: Type, count: nat): nat { if t.List? && !t.large then count else 0 }

  lemma {:induction false} ListVerdict(t: Type, held: Tally, p: Tally, d: Decoded<seq<Value>>, count: nat, o: Outcome, kid: Tally, rest: bytes)
    requires (t.List? || t.FixedSizeList?) && TallyOf(t, p) && |held.kids| == 1
    requires t.List? && !t.large ==> held.own + p.own + count <= LIMIT
    requires (d.Ok? ==> |d.val| == count) && SlotsVerdict(Kids(t)[0], held.kids[0], p.kids[0], d, o, kid, rest)
    ensures Verdict(t, held, p, AsList(d), o, Tally(p.own + ListCharge(t, count), p.arms, [kid]), rest)
  {
    hide Add, ChargeElems, ElemsPass, TallyOf, Charge, LIMIT;
    assert |p.kids| == 1 by { TallyShape(t, p); }
    if o.Fine? {
      NoArms(t, p, ListV(d.val));
      Assembled(t, p, ListV(d.val), p.own + ListCharge(t, count), p.arms, [kid]);
    }
  }

  lemma {:induction false} TallyShape(t: Type, p: Tally)
    requires TallyOf(t, p)
    ensures |p.kids| == |Kids(t)| && |p.arms| == ArmCount(t)
    ensures forall k | 0 <= k < |Kids(t)| :: TallyOf(Kids(t)[k], p.kids[k])
  {
  }

  lemma ListRefused(t: Type, held: Tally, p: Tally, d: Decoded<seq<Value>>, count: nat, p': Tally, rest: bytes)
    requires t.List? && !t.large && held.own + p.own + count > LIMIT && (d.Ok? ==> |d.val| == count)
    ensures Verdict(t, held, p, AsList(d), OverCapacity, p', rest)
  {
    hide ElemsPass, LIMIT;
  }

  lemma FineMeansRead(t: Type, held: Tally, p: Tally, d: Decoded<seq<Value>>, p': Tally, rest: bytes)
    requires SlotsVerdict(t, held, p, d, Fine, p', rest)
    ensures d.Ok? && rest == d.rest
  {
    hide ElemsPass, ChargeElems, Add;
  }

  function AsMap(dk: Decoded<seq<Value>>, di: Decoded<seq<Value>>): Decoded<Value>
  {
    if dk.Ok? && di.Ok? then Ok(MapV(dk.val, di.val), di.rest) else Err
  }

  lemma {:induction false} MapVerdict(t: Type, held: Tally, p: Tally, dk: Decoded<seq<Value>>, di: Decoded<seq<Value>>, count: nat,
                   o: Outcome, keys: Tally, items: Tally, rest: bytes)
    requires t.Map? && TallyOf(t, p) && |held.kids| == 2 && held.own + p.own + count <= LIMIT
    requires dk.Ok? && |dk.val| == count && SlotsVerdict(t.key, held.kids[0], p.kids[0], dk, Fine, keys, dk.rest)
    requires SlotsVerdict(t.item, held.kids[1], p.kids[1], di, o, items, rest)
    ensures Verdict(t, held, p, AsMap(dk, di), o, Tally(p.own + count, p.arms, [keys, items]), rest)
  {
    hide Add, ChargeElems, ElemsPass, TallyOf, Charge, LIMIT;
    TallyShape(t, p);
    if o.Fine? {
      var v := MapV(dk.val, di.val);
      NoArms(t, p, v);
      Assembled(t, p, v, p.own + count, p.arms, [keys, items]);
    }
  }

  lemma MapRefused(t: Type, held: Tally, p: Tally, dk: Decoded<seq<Value>>, di: Decoded<seq<Value>>, count: nat, o: Outcome,
                   keys: Tally, p': Tally, rest: bytes)
    requires t.Map? && |held.kids| == |p.kids| == 2 && (dk.Ok? ==> |dk.val| == count) && !o.Fine?
    requires (o.OverCapacity? && held.own + p.own + count > LIMIT)
          || SlotsVerdict(t.key, held.kids[0], p.kids[0], dk, o, keys, rest)
    ensures Verdict(t, held, p, AsMap(dk, di), o, p', rest)
  {
    hide Add, ChargeElems, ElemsPass, Charge, Zero;
    if o.OverCapacity? && dk.Ok? && di.Ok? {
      var v := MapV(dk.val, di.val);
      assert Passes(t, held, p, v) ==> ElemsPass(Kids(t)[0], held.kids[0], p.kids[0], KidSlots(t, v, 0));
    }
  }

  /** The child counters after a union value went to `arm`. */
  lemma {:induction false} UnionAssembled(t: Type, p: Tally, v: Value, arm: nat, kid: Tally, kids: seq<Tally>)
    requires t.Union? && v.UnionV? && v.arm != Null && ChildId(t.codes, v.code) == arm < |t.arms| && TallyOf(t, p)
    requires kids == p.kids[arm := kid] && kid == Add(p.kids[arm], Charge(true, t.arms[arm], v.arm))
    ensures Tally(p.own + OwnCharge(true, t, v), AddNats(p.arms, ArmCharge(true, t, v)), kids) == Add(p, Charge(true, t, v))
  {
    hide Add, ChargeElems, TallyOf, Charge, Zero;
    TallyShape(t, p);
    forall k | 0 <= k < |kids|
      ensures kids[k] == Add(p.kids[k], ChargeElems(true, Kids(t)[k], KidSlots(t, v, k)))
    {
      OneSlot(Kids(t)[k], p.kids[k], p.kids[k], v.arm);
      OneSlot(Kids(t)[k], p.kids[k], p.kids[k], Null);
      AddZero(Kids(t)[k], p.kids[k]);
    }
    Assembled(t, p, v, p.own + OwnCharge(true, t, v), AddNats(p.arms, ArmCharge(true, t, v)), kids);
  }

  lemma {:induction false} UnionPasses(t: Type, held: Tally, p: Tally, v: Value, arm: nat)
    requires t.Union? && v.UnionV? && v.arm != Null && ChildId(t.codes, v.code) == arm < |t.arms| && TallyOf(t, p)
    requires |held.kids| == |t.arms|
    ensures |p.kids| == |t.arms|
    ensures Passes(t, held, p, v) <==>
            OwnPasses(t, held, p.own, v) && Passes(t.arms[arm], held.kids[arm], p.kids[arm], v.arm)
  {
    hide Passes, ElemsPass, KidSlots, OwnPasses, Kids, ChildId, TallyOf;
    TallyShape(t, p);
    ArmPasses(t, held, p, v, arm);
    PassesParts(t, held, p, v);
    forall k | 0 <= k < |t.arms|
      ensures KidPasses(t, held, p, v, k)
          <==> (k == arm ==> Passes(t.arms[arm], held.kids[arm], p.kids[arm], v.arm))
    {
      ArmPasses(t, held.kids[k], p.kids[k], v, k);
    }
    assert KidPasses(t, held, p, v, arm) <==> Passes(t.arms[arm], held.kids[arm], p.kids[arm], v.arm);
  }

  lemma {:induction false} ArmPasses(t: Type, held: Tally, p: Tally, v: Value, k: nat)
    requires t.Union? && v.UnionV? && v.arm != Null && k < |t.arms|
    ensures Kids(t) == t.arms
    ensures ElemsPass(t.arms[k], held, p, KidSlots(t, v, k))
        <==> (k == ChildId(t.codes, v.code) ==> Passes(t.arms[k], held, p, v.arm))
  {
    hide ElemsPass, ChildId, Passes;
    OneSlot(t.arms[k], held, p, v.arm);
    OneSlot(t.arms[k], held, p, Null);
  }

  function AsUnion(code: nat, d: Decoded<Value>): Decoded<Value>
  {
    match d
    case Err => Err
    case Ok(v, r) => Ok(UnionV(code, v), r)
  }

  /** What a union charges itself: the same whichever value its arm holds. */
  function UnionCharge(t: Type, code: nat): nat { OwnCharge(true, t, UnionV(code, Null)) }

  function UnionArms(t: Type, code: nat): seq<nat> { ArmCharge(true, t, UnionV(code, Null)) }

  lemma {:induction false} UnionVerdict(t: Type, held: Tally, p: Tally, code: nat, arm: nat, d: Decoded<Value>, o: Outcome, kid: Tally, rest: bytes)
    requires t.Union? && ChildId(t.codes, code) == arm < |t.arms| == |held.kids| && TallyOf(t, p)
    requires d.Ok? ==> d.val != Null
    requires OwnPasses(t, held, p.own, UnionV(code, Null))
    requires Verdict(t.arms[arm], held.kids[arm], p.kids[arm], d, o, kid, rest)
    ensures Verdict(t, held, p, AsUnion(code, d), o,
                    Tally(p.own + UnionCharge(t, code), AddNats(p.arms, UnionArms(t, code)), p.kids[arm := kid]), rest)
  {
    hide Add, ChargeElems, TallyOf, Charge, Zero, Passes;
    TallyShape(t, p);
    if d.Ok? {
      var v := UnionV(code, d.val);
      UnionPasses(t, held, p, v, arm);
      if o.Fine? {
        UnionAssembled(t, p, v, arm, kid, p.kids[arm := kid]);
        assert UnionArms(t, code) == ArmCharge(true, t, v);
      }
    }
  }

  lemma UnionOver(t: Type, held: Tally, p: Tally, code: nat, d: Decoded<Value>, p': Tally, rest: bytes)
    requires t.Union? && !OwnPasses(t, held, p.own, UnionV(code, Null))
    ensures Verdict(t, held, p, AsUnion(code, d), OverCapacity, p', rest)
  {
  }

  function AsStruct(d: Decoded<seq<Value>>): Decoded<Value>
  {
    match d
    case Err => Err
    case Ok(vs, r) => Ok(StructV(vs), r)
  }

  lemma {:induction false} StructVerdict(t: Type, held: Tally, p: Tally, vs: seq<Value>, kids: seq<Tally>, rest: bytes)
    requires t.Struct? && TallyOf(t, p) && |held.kids| == |kids| == |vs| == |t.fields|
    requires forall k | 0 <= k < |vs| :: SlotPasses(t.fields[k], held.kids[k], p.kids[k], vs[k])
    requires forall k | 0 <= k < |vs| :: kids[k] == Add(p.kids[k], ChargeSlot(true, t.fields[k], vs[k]))
    ensures Verdict(t, held, p, AsStruct(Ok(vs, rest)), Fine, Tally(p.own, p.arms, kids), rest)
  {
    hide Add, ChargeElems, ChargeSlot, ElemsPass, SlotPasses, TallyOf, Charge;
    TallyShape(t, p);
    var v := StructV(vs);
    forall k | 0 <= k < |vs|
      ensures ElemsPass(Kids(t)[k], held.kids[k], p.kids[k], KidSlots(t, v, k))
      ensures kids[k] == Add(p.kids[k], ChargeElems(true, Kids(t)[k], KidSlots(t, v, k)))
    {
      OneSlot(Kids(t)[k], held.kids[k], p.kids[k], vs[k]);
    }
    NoArms(t, p, v);
    Assembled(t, p, v, p.own, p.arms, kids);
  }

  lemma {:induction false} StructOver(t: Type, held: Tally, p: Tally, vs: seq<Value>, k: nat)
    requires t.Struct? && |held.kids| == |p.kids| == |t.fields| == |vs| && k < |vs|
    requires !SlotPasses(t.fields[k], held.kids[k], p.kids[k], vs[k])
    ensures !Passes(t, held, p, StructV(vs))
  {
    hide ElemsPass, SlotPasses;
    OneSlot(Kids(t)[k], held.kids[k], p.kids[k], vs[k]);
    assert !ElemsPass(Kids(t)[k], held.kids[k], p.kids[k], KidSlots(t, StructV(vs), k));
  }

  /** Where the walk over a struct stands: `vs` are the fields read so far, `kids` the counters now and
      `s` the bytes left. */
  ghost predicate Midway(t: Type, held: Tally, p: Tally, nulls: seq<bool>, d: Decoded<seq<Value>>, vs: seq<Value>,
                         kids: seq<Tally>, s: bytes)
  {
    && t.Struct? && |held.kids| == |p.kids| == |kids| == |nulls| == |t.fields| && |vs| <= |t.fields|
    && d == After(vs, DecodeFields(t.fields[|vs|..], nulls[|vs|..], s))
    && (forall k | |vs| <= k < |kids| :: kids[k] == p.kids[k])
    && (forall k | 0 <= k < |vs| :: kids[k] == Add(p.kids[k], ChargeSlot(true, t.fields[k], vs[k])))
    && forall k | 0 <= k < |vs| :: SlotPasses(t.fields[k], held.kids[k], p.kids[k], vs[k])
  }

  lemma {:induction false} MidwayStart(t: Type, held: Tally, p: Tally, nulls: seq<bool>, s: bytes)
    requires t.Struct? && TallyOf(t, p) && |held.kids| == |nulls| == |t.fields|
    ensures Midway(t, held, p, nulls, DecodeFields(t.fields, nulls, s), [], p.kids, s)
  {
    hide DecodeFields, After, Add, TallyOf;
    TallyShape(t, p);
    assert nulls[0..] == nulls && t.fields[0..] == t.fields;
    AfterNothing(DecodeFields(t.fields, nulls, s));
  }

  lemma {:induction false} MidwayStep(t: Type, held: Tally, p: Tally, nulls: seq<bool>, d: Decoded<seq<Value>>, vs: seq<Value>,
                   kids: seq<Tally>, s: bytes, kid: Tally, rest: bytes)
    requires Midway(t, held, p, nulls, d, vs, kids, s) && |vs| < |t.fields|
    requires SlotVerdict(t.fields[|vs|], held.kids[|vs|], p.kids[|vs|], DecodeSlot(t.fields[|vs|], nulls[|vs|], s), Fine, kid, rest)
    ensures DecodeSlot(t.fields[|vs|], nulls[|vs|], s).Ok?
    ensures Midway(t, held, p, nulls, d, vs + [DecodeSlot(t.fields[|vs|], nulls[|vs|], s).val], kids[|vs| := kid], rest)
  {
    FieldsNext(t.fields, nulls, |vs|, vs, s);
    hide DecodeFields, DecodeSlot, After, Add, SlotPasses, ChargeSlot;
  }

  lemma {:induction false} MidwayRefused(t: Type, held: Tally, p: Tally, nulls: seq<bool>, d: Decoded<seq<Value>>, vs: seq<Value>,
                      kids: seq<Tally>, s: bytes, o: Outcome, kid: Tally, p': Tally, rest: bytes)
    requires Midway(t, held, p, nulls, d, vs, kids, s) && |vs| < |t.fields| && !o.Fine?
    requires SlotVerdict(t.fields[|vs|], held.kids[|vs|], p.kids[|vs|], DecodeSlot(t.fields[|vs|], nulls[|vs|], s), o, kid, rest)
    ensures Verdict(t, held, p, AsStruct(d), o, p', rest)
  {
    FieldsNext(t.fields, nulls, |vs|, vs, s);
    hide DecodeFields, DecodeSlot, After, Add, SlotVerdict, ChargeSlot, Verdict;
    var x := DecodeSlot(t.fields[|vs|], nulls[|vs|], s);
    var ts, ns := t.fields[|vs| + 1..], nulls[|vs| + 1..];
    var tail := if x.Ok? then DecodeFields(ts, ns, x.rest) else Err;
    if tail.Ok? { CodecRows.FieldsHaveTypes(ts, ns, x.rest); }
    FieldRefused(t, held, p, vs, x, tail, o, kid, p', rest);
  }

  lemma {:induction false} MidwayEnd(t: Type, held: Tally, p: Tally, nulls: seq<bool>, d: Decoded<seq<Value>>, vs: seq<Value>, kids: seq<Tally>, s: bytes)
    requires TallyOf(t, p) && Midway(t, held, p, nulls, d, vs, kids, s) && |vs| == |t.fields|
    ensures Verdict(t, held, p, AsStruct(d), Fine, Tally(p.own, p.arms, kids), s)
  {
    FieldsEnd(t.fields, nulls, vs, s);
    hide DecodeFields, After, Add, SlotPasses, ChargeSlot, Verdict, TallyOf;
    StructVerdict(t, held, p, vs, kids, s);
  }

  /** A field that is refused refuses its struct. */
  lemma FieldRefused(t: Type, held: Tally, p: Tally, vs: seq<Value>, x: Decoded<Value>, tail: Decoded<seq<Value>>,
                     o: Outcome, kid: Tally, p': Tally, rest: bytes)
    requires t.Struct? && |held.kids| == |p.kids| == |t.fields| && |vs| < |t.fields| && !o.Fine?
    requires SlotVerdict(t.fields[|vs|], held.kids[|vs|], p.kids[|vs|], x, o, kid, rest)
    requires x.Ok? && tail.Ok? ==> |vs| + 1 + |tail.val| == |t.fields|
    ensures Verdict(t, held, p, AsStruct(if x.Ok? then After(vs + [x.val], tail) else Err), o, p', rest)
  {
    hide SlotPasses, Passes;
    if x.Ok? && tail.Ok? && o.OverCapacity? {
      StructOver(t, held, p, vs + [x.val] + tail.val, |vs|);
    }
  }
}
