/** What a batch holds after any sequence of `Append` calls, and why that refines `Codec::DecodeRow`. */
module BatchRun {
  import opened Wire
  import opened RowTypes
  import opened CodecSpec
  import CodecRows
  import opened Columns
  import opened Builders
  import opened Budget
  import opened Capacity
  import opened Leaks
  import opened BatchTree

  /** The columns have room for the row, as the validation walk counts it. */
  ghost predicate HasRoom(schema: seq<Type>, table: Buf, row: seq<Value>)
  {
    Passes(Struct(schema), Load(true, Struct(schema), table), Zero(Struct(schema)), StructV(row))
  }

  /** `Append` takes a row exactly when the codec decodes it and the columns have room. */
  ghost predicate Accepts(schema: seq<Type>, table: Buf, data: bytes)
  {
    var d := DecodeRow(schema, data);
    d.Ok? && HasRoom(schema, table, d.val)
  }

  ghost function Step(schema: seq<Type>, table: Buf, data: bytes): Buf
  {
    if Accepts(schema, table, data) then AppendValue(table, StructV(DecodeRow(schema, data).val)) else table
  }

  /** The columns after the rows `datas` have been offered in turn. */
  ghost function Run(schema: seq<Type>, datas: seq<bytes>): Buf
  {
    if datas == [] then EmptyColumn(Struct(schema))
    else Step(schema, Run(schema, datas[..|datas| - 1]), datas[|datas| - 1])
  }

  /** The accepted rows, as the codec decodes them. */
  ghost function Accepted(schema: seq<Type>, datas: seq<bytes>): seq<seq<Value>>
  {
    if datas == [] then []
    else
      var was, data := Accepted(schema, datas[..|datas| - 1]), datas[|datas| - 1];
      if Accepts(schema, Run(schema, datas[..|datas| - 1]), data) then was + [DecodeRow(schema, data).val] else was
  }

  /** Slot `r` of column `c` holds field `c` of row `r`. */
  ghost predicate Holds(schema: seq<Type>, table: Buf, rows: seq<seq<Value>>)
  {
    && Built(Struct(schema), table) && Slots(table) == |rows|
    && (forall c | 0 <= c < |schema| :: table.kids[c].len == |rows|)
    && forall r, c | 0 <= r < |rows| && 0 <= c < |schema| :: Cell(table, rows, r, c)
  }

  ghost predicate Cell(table: Buf, rows: seq<seq<Value>>, r: nat, c: nat)
  {
    table.StructBuf? && r < |rows| && c < |table.kids| == |rows[r]| && At(table.kids[c], r) == rows[r][c]
  }

  lemma RowDecoded(schema: seq<Type>, data: bytes)
    requires DecodeRow(schema, data).Ok?
    ensures HasType(Struct(schema), StructV(DecodeRow(schema, data).val))
  {
    hide Decode, HasType;
    CodecRows.DecodedHasType(Struct(schema), data);
  }

  lemma {:induction false} ColumnsGrow(schema: seq<Type>, table: Buf, rows: seq<seq<Value>>, row: seq<Value>)
    requires TypesOk(schema) && Holds(schema, table, rows) && HasType(Struct(schema), StructV(row))
    ensures Holds(schema, AppendValue(table, StructV(row)), rows + [row])
  {
    hide ValueAt, HasType, Grown;
    var t, v := Struct(schema), StructV(row);
    ValueAppended(t, table, v);
    var table' := AppendValue(table, v);
    assert Built(t, table') && Slots(table') == |rows| + 1;
    assert forall c | 0 <= c < |schema| :: table'.kids[c].len == |rows + [row]|;
    forall r, c | 0 <= r < |rows| + 1 && 0 <= c < |schema|
      ensures Cell(table', rows + [row], r, c)
    {
      if r < |rows| { assert Cell(table, rows, r, c); }
      CellAfter(schema, table, row, c, r);
    }
  }

  lemma {:induction false} CellAfter(schema: seq<Type>, table: Buf, row: seq<Value>, c: nat, r: nat)
    requires TypesOk(schema) && Built(Struct(schema), table) && HasType(Struct(schema), StructV(row)) && c < |schema|
    requires r <= Slots(table)
    ensures |row| == |schema| && |AppendValue(table, StructV(row)).kids| == |schema|
    ensures At(AppendValue(table, StructV(row)).kids[c], r) == if r < Slots(table) then At(table.kids[c], r) else row[c]
  {
    hide ValueAt, AppendSlot;
    SlotAppended(schema[c], table.kids[c].buf, row[c]);
    var b, b' := table.kids[c].buf, AppendSlot(table.kids[c].buf, row[c]);
    assert ValueAt(b', r) == SlotAfter(b, [row[c]], r);
  }

  /** After any sequence of rows, slot `r` of column `c` holds field `c` of the `r`-th accepted row as
      the codec decodes it, and the columns are well laid out. */
  lemma {:induction false} BatchRefinesCodec(schema: seq<Type>, datas: seq<bytes>)
    requires TypesOk(schema)
    ensures Holds(schema, Run(schema, datas), Accepted(schema, datas))
    decreases |datas|
  {
    hide Holds, Built, HasType, AppendValue, Accepts;
    if datas == [] {
      EmptyHolds(schema);
    } else {
      var most, data := datas[..|datas| - 1], datas[|datas| - 1];
      BatchRefinesCodec(schema, most);
      var table, d := Run(schema, most), DecodeRow(schema, data);
      if Accepts(schema, table, data) {
        AcceptedDecodes(schema, table, data);
        RowDecoded(schema, data);
        ColumnsGrow(schema, table, Accepted(schema, most), d.val);
      }
    }
  }

  lemma AcceptedDecodes(schema: seq<Type>, table: Buf, data: bytes)
    requires Accepts(schema, table, data)
    ensures DecodeRow(schema, data).Ok? && HasRoom(schema, table, DecodeRow(schema, data).val)
  {
  }

  lemma EmptyHolds(schema: seq<Type>)
    ensures Holds(schema, EmptyColumn(Struct(schema)), [])
  {
    EmptyIsBuilt(Struct(schema));
  }

  // ----- the 32-bit limits over whole runs -----

  lemma {:induction false} EmptyKid(t: Type, k: nat)
    requires k < |Kids(t)|
    ensures |BufKids(EmptyColumn(t))| == |Kids(t)|
    ensures BufKids(EmptyColumn(t))[k] == Whole(EmptyColumn(Kids(t)[k])) && BufKids(EmptyColumn(t))[k].len == 0
  {
    EmptyIsBuilt(Kids(t)[k]);
  }

  lemma {:induction false} EmptyOwn(dense: bool, t: Type)
    ensures OwnLoad(dense, t, EmptyColumn(t)) == 0
  {
    EmptyIsBuilt(t);
    if t.List? || t.Map? { EmptyKid(t, |Kids(t)| - 1); }
  }

  lemma {:induction false} EmptyWithin(dense: bool, t: Type)
    ensures Within(dense, t, Load(dense, t, EmptyColumn(t)))
    decreases t
  {
    hide EmptyColumn, BufKids, OwnLoad;
    EmptyOwn(dense, t);
    forall k | 0 <= k < |Kids(t)|
      ensures |BufKids(EmptyColumn(t))| == |Kids(t)|
      ensures BufKids(EmptyColumn(t))[k] == Whole(EmptyColumn(Kids(t)[k])) && BufKids(EmptyColumn(t))[k].len == 0
      ensures Within(dense, Kids(t)[k], Load(dense, Kids(t)[k], EmptyColumn(Kids(t)[k])))
    {
      EmptyWithin(dense, Kids(t)[k]);
      EmptyKid(t, k);
    }
  }

  /** No column ever outgrows its 32-bit offsets.  With `dense` this covers dense-union children too,
      provided no accepted row passes a null to a dense union. */
  lemma {:induction false} RunStaysWithin(dense: bool, schema: seq<Type>, datas: seq<bytes>)
    requires TypesOk(schema)
    requires forall row | row in Accepted(schema, datas) :: LeakFree(dense, Struct(schema), StructV(row))
    ensures Within(dense, Struct(schema), Load(dense, Struct(schema), Run(schema, datas)))
    decreases |datas|
  {
    hide Within, Load, Built, HasType, AppendValue, Accepts, LeakFree, Holds;
    var t := Struct(schema);
    if datas == [] {
      EmptyWithin(dense, t);
    } else {
      var most, data := datas[..|datas| - 1], datas[|datas| - 1];
      var table, d := Run(schema, most), DecodeRow(schema, data);
      assert forall row | row in Accepted(schema, most) :: row in Accepted(schema, datas);
      RunStaysWithin(dense, schema, most);
      if Accepts(schema, table, data) {
        AcceptedDecodes(schema, table, data);
        RowDecoded(schema, data);
        assert d.val in Accepted(schema, datas);
        BatchIsBuilt(schema, most);
        AcceptedFits(dense, t, table, StructV(d.val));
      }
    }
  }

  lemma {:induction false} BatchIsBuilt(schema: seq<Type>, datas: seq<bytes>)
    requires TypesOk(schema)
    ensures TypeOk(Struct(schema)) && Built(Struct(schema), Run(schema, datas))
  {
    BatchRefinesCodec(schema, datas);
  }

  /** utf8, binary, list and map columns never outgrow their offsets, whatever the rows hold. */
  lemma {:induction false} OffsetsAlwaysFit(schema: seq<Type>, datas: seq<bytes>)
    requires TypesOk(schema)
    ensures Within(false, Struct(schema), Load(false, Struct(schema), Run(schema, datas)))
  {
    hide Within, Load, LeakFree, Accepted;
    forall row | row in Accepted(schema, datas)
      ensures LeakFree(false, Struct(schema), StructV(row))
    {
      NothingLeaks(Struct(schema), StructV(row));
    }
    RunStaysWithin(false, schema, datas);
  }

  /** A row that decodes is refused exactly when some utf8, binary, list or map column has no room for
      all of it or some slot of a dense union comes too late. */
  lemma {:induction false} RefusedOnlyForRoom(schema: seq<Type>, datas: seq<bytes>, data: bytes)
    requires TypesOk(schema) && DecodeRow(schema, data).Ok?
    ensures var t, table, row := Struct(schema), Run(schema, datas), StructV(DecodeRow(schema, data).val);
            var held := Load(true, t, table);
            Accepts(schema, table, data) <==> Within(false, t, Add(held, Charge(true, t, row))) && InTime(t, held, Zero(t), [row])
  {
    hide Within, Load, Built, HasType, Charge, Passes, InTime;
    var t, table := Struct(schema), Run(schema, datas);
    BatchIsBuilt(schema, datas);
    OffsetsAlwaysFit(schema, datas);
    HeldEitherWay(false, t, table);
    RowDecoded(schema, data);
    LoadIsTally(true, t, table);
    CapacityIff(t, Load(true, t, table), StructV(DecodeRow(schema, data).val));
  }

  // ----- what a run leaves in the columns -----

  /** What all the rows together add. */
  ghost function Total(dense: bool, t: Type, rows: seq<seq<Value>>): Tally
  {
    if rows == [] then Zero(t) else Add(Total(dense, t, rows[..|rows| - 1]), Growth(dense, t, StructV(rows[|rows| - 1])))
  }

  lemma {:induction false} EmptyLoad(dense: bool, t: Type)
    ensures Load(dense, t, EmptyColumn(t)) == Zero(t)
    decreases t
  {
    hide EmptyColumn, BufKids, OwnLoad;
    EmptyOwn(dense, t);
    var x := Load(dense, t, EmptyColumn(t));
    forall k | 0 <= k < |Kids(t)|
      ensures |BufKids(EmptyColumn(t))| == |Kids(t)| && BufKids(EmptyColumn(t))[k].len == 0
      ensures x.kids[k] == Zero(Kids(t)[k])
    {
      EmptyKid(t, k);
      EmptyLoad(dense, Kids(t)[k]);
    }
    EmptyKidCount(t);
    assert x.kids == Zeros(t);
  }

  lemma {:induction false} EmptyKidCount(t: Type)
    ensures |BufKids(EmptyColumn(t))| == |Kids(t)|
  {
    EmptyIsBuilt(t);
  }

  /** After any run the load of every column is exactly the growth of the accepted rows. */
  lemma {:induction false} RunLoad(dense: bool, schema: seq<Type>, datas: seq<bytes>)
    requires TypesOk(schema)
    ensures Load(dense, Struct(schema), Run(schema, datas)) == Total(dense, Struct(schema), Accepted(schema, datas))
    decreases |datas|
  {
    hide Load, Built, HasType, AppendValue, Accepts, Growth, Add, Zero, EmptyColumn;
    var t := Struct(schema);
    if datas == [] {
      EmptyLoad(dense, t);
    } else {
      var most, data := datas[..|datas| - 1], datas[|datas| - 1];
      var table, d, rows := Run(schema, most), DecodeRow(schema, data), Accepted(schema, most);
      RunLoad(dense, schema, most);
      if Accepts(schema, table, data) {
        AcceptedDecodes(schema, table, data);
        RowDecoded(schema, data);
        BatchIsBuilt(schema, most);
        ValueTakes(dense, t, table, StructV(d.val));
        assert (rows + [d.val])[..|rows|] == rows;
      }
    }
  }

  /** Exactly when a run keeps every 32-bit offset, dense unions included, within its limit. */
  lemma {:induction false} RunStaysWithinIff(schema: seq<Type>, datas: seq<bytes>)
    requires TypesOk(schema)
    ensures Within(true, Struct(schema), Load(true, Struct(schema), Run(schema, datas)))
        <==> ArmsWithin(Struct(schema), Total(true, Struct(schema), Accepted(schema, datas)))
  {
    hide Within, ArmsWithin, Load, Total, Built;
    var t := Struct(schema);
    RunLoad(true, schema, datas);
    OffsetsAlwaysFit(schema, datas);
    BatchIsBuilt(schema, datas);
    HeldEitherWay(false, t, Run(schema, datas));
    WithinIsBoth(t, Load(true, t, Run(schema, datas)));
  }
}
