# Fletcher in Dafny

A Dafny 4.11 model of the parts of Fletcher whose correctness is hardest to see, with proofs over all inputs
and all runs. `dafny verify dfyconfig.toml` checks everything. No proof uses Dafny's automatic induction:
each lemma it would apply to says `{:induction false}`.

**The positional row codec.** `CodecSpec` states the wire format twice, as a printer (`Encode`) and as a
parser that returns a value and the bytes it left (`Decode`). `CodecLaws`, `CodecRows`, `MapGuard` and
`NormalForm` prove what the two promise each other: round trip with any suffix and exactly the types that
have it, prefix freedom, normal form, a bound on the work a row can ask for. `RowReader` and `RowDecoder`
are the reading code as it runs, with its cursor, its bulk path and its guards, proved equal to the parser.
`Writer`, `Arrays`, `EncodeSteps`, `RowEncoder` and `RowWriter` are the two encoders, which patch null bits
into bytes already written, proved equal to the printer and to each other. `WireFormat` says what the bytes
are: place values, bit positions, and where each payload starts. `RowStamp` is the trailing-offset stamp.

**The batched decoder.** `Columns` and `Builders` give the Arrow buffers, the value of a slot and what an
append does to them. `Budget` and `Leaks` compare what a value takes with what the validation walk charges
it, `Capacity` and `CapacityExamples` say when the walk refuses and what its acceptance means, `SkipSpec`
holds its verdicts, and `Limits` states the rule in numbers over the buffers themselves. `ArrowLayout` reads
the buffers slot by slot, as a consumer of the columns does. `BatchTree`, `BatchSkip` and `BatchAppend` are
the builder tree and the two walks over it, updated in place; `BatchDecoder` is the object around them, and
`BatchRun` states what any sequence of rows leaves behind: the same rows that the row codec decodes, in
well-formed columns, and exactly when these are within the 32-bit limits.

**The Fast DDS provider.** `Provider` is a state machine with one step per stretch of code between lock
operations: any number of application threads, one schema thread, two locks, DDS calls that succeed or fail
at will, and entity ids that are reused once the entity is gone. `ProviderInv` is the invariant,
`ProviderSteps` shows that every step keeps it, `ProviderRuns` draws liveness of the registry, lifetime of
the listeners, freedom from deadlock and a way to rest from it, and `ProviderHistory` follows arrivals,
writers and announcements along a run. `ProviderCauses` names the cause of every change to a topic, and
`ProviderLeaks` the owner of every entity.

**The gateway.** `Gateway` is the WebSocket session and its client as one protocol over two in-order
channels, `GatewayRuns` proves that responses meet their requests in every run, `GatewayDelivery` says from
the histories of a run which samples reach which subscriber, and `GatewayPeers` holds the two peers as
objects.

**The generated decoder.** `EdgeCode` gives meaning to the decode statements that the protobuf plugin emits,
`EdgeVisitor` is the visitor that emits them line by line, `EdgeDecode` and `EdgeAgree` prove that they mean
what the generic decoder means, and exactly when they do not, `EdgeErrors` does the same for rows that are
refused, and `EdgeGuards` says it field by field from what the schema declares.

## How the source is read

- Numeric, temporal, interval, decimal and fixed-size-binary types are one type `Fixed(width)` of raw
  little-endian bytes; utf8 and binary types are `VarLen`, marked when their Arrow offsets are 32 bits
  wide. Bit operations are written arithmetically. The running checks compare against 2^31-2.
- `Fixed` has width at least 1: the validation walk reads a width of 0 as a length prefix
  (`arrow-bridge/src/batch_decoder.cpp:261-266`), the other walks do not.
- An Arrow builder is modelled by what its calls do to its buffers. A null struct or fixed-size list
  gives its children empty values, a null of a dense union is one null of its first child.
- The batched decoder keeps its roots as the children of one struct node, which is how a row is laid out.
- A dictionary is a top-level field whose values go over the wire in place of its indices.
- A provider call that is refused before any lock is taken (a bad bound, an unknown profile, a call from
  inside a delivery) changes nothing and has no step. `Publish` is a step that holds `mu` shared.
- In emitted code the three ways of spelling a scalar read are one statement, and a class name stands
  for that class's own decoder. The reader is the bounds-checked one of
  `core/include/fletcher/core/positional_io.hpp:266-464`.

## Where the code and its comments disagree

The model follows the code.

- The map guard counts on one byte per key (`arrow-bridge/src/codec.cpp:530-534`). Keys of an empty
  struct or of a fixed-size list of length 0 take none, and such a map does not decode:
  `CodecRows.EmptyKeysAreRefused`, with the exact condition on any type in `MapGuard.RoundTripsIff`.
- The append walk is said to stay within every 32-bit budget (`arrow-bridge/src/batch_decoder.cpp:317-319`).
  The validation walk does not charge nulls, and a null of a dense union does take a slot:
  `CapacityExamples.NullsCanOverflow`, with the exact condition for one row in `Capacity.AcceptedFitsIff`
  and for a run in `BatchRun.RunStaysWithinIff`.
- A row is said to be refused when a dense-union child would exceed its limit
  (`arrow-bridge/src/batch_decoder.cpp:303-306`). The one counter of a dense union is compared with the
  child of the moment, so the order of the slots decides: `CapacityExamples.OrderCanRefuse`, with the
  exact rule in `Capacity.CapacityIff`.
- `DecodeInto` takes a row with bytes behind it (`protoc/src/generator.cpp:861-864`), which the row codec
  refuses (`arrow-bridge/src/codec.cpp:690-694`): `EdgeErrors.TrailingBytesAreLeft`.
- `AllValid` is described as a test of the first `count` bits (`arrow-bridge/src/row_reader.hpp:56`); it
  tests the padding bits too. `RowReader.AllValidMeansNoNulls` has both directions.
- `DecodeInto` promises that no value survives from the previous row (`protoc/src/generator.cpp:860`). A
  nullable nested list that is null is not reset: `EdgeAgree.StaleListSurvives`, with the exact condition
  in `EdgeAgree.MemberIsForgottenIff`.

## Model

| member | source | states |
|---|---|---|
| `Wire.TakeU32OfU32` | core/include/fletcher/core/positional_io.hpp:93-97 | a little-endian 32-bit count is read back as written, whatever follows it |
| `Wire.U32OfTakeU32` | arrow-bridge/src/row_reader.hpp:30-38 | re-writing a count that was read gives the four bytes it was read from |
| `Wire.FlagsOfPack` | arrow-bridge/src/row_reader.hpp:50-54 | null flags packed LSB first into a bitfield are read back bit by bit |
| `WireFormat.CountIs` | core/include/fletcher/core/positional_io.hpp:93-97 | a count is its four bytes with weights 1, 256, 65536 and 16777216 |
| `WireFormat.PackMarks` | core/include/fletcher/core/positional_io.hpp:51-57 | bit i % 8 of byte i / 8, by its place value, is set exactly when slot i is null, and the padding is clear |
| `WireFormat.FlagIs` | arrow-bridge/src/row_reader.hpp:50-54 | a null flag is read from bit i % 8 of byte i / 8 |
| `WireFormat.FixedLayout` | arrow-bridge/src/codec.cpp:115-188 | a boolean is one byte 0 or 1, a fixed-width value its own bytes |
| `WireFormat.VarLayout` | arrow-bridge/src/codec.cpp:189-209 | utf8 and binary: the length in four bytes, then the bytes |
| `WireFormat.ListLayout` | arrow-bridge/src/codec.cpp:226-246 | a list: the count, one null bit per element, then the payload of each non-null element where those before it end |
| `WireFormat.FixedSizeListLayout` | arrow-bridge/src/codec.cpp:247-254 | a fixed-size list: the same without the count |
| `WireFormat.MapLayout` | arrow-bridge/src/codec.cpp:255-278 | a map: the count, the key payloads, one null bit per value, the payloads of the non-null values |
| `WireFormat.UnionLayout` | arrow-bridge/src/codec.cpp:279-295 | a union: the type code, then the payload of the child of that code |
| `WireFormat.RowLayout` | arrow-bridge/src/codec.cpp:620-660 | a row: one null bit per field, then the payload of each non-null field where those before it end |
| `WireFormat.RowSpelled` | arrow-bridge/src/codec.cpp:620-660 | the 18 bytes of one row with a text, a null, a boolean and a list with a null |
| `CodecLaws.DecodeConsumes` | arrow-bridge/src/codec.cpp:421-610 | every parse leaves a suffix of its input, for every type and every byte string |
| `CodecLaws.DecodeStable` | arrow-bridge/src/codec.cpp:463-534 | a successful parse gives the same value and stops at the same place when bytes are appended, although the list, map and run guards look at the bytes left |
| `CodecLaws.RowsArePrefixFree` | arrow-bridge/src/codec.cpp:670-696 | an accepted row rejects every strict extension and every strict truncation of itself |
| `CodecLaws.RoundTrip` | arrow-bridge/src/codec.cpp:77-610 | decoding an encoding with any bytes behind it yields the value and stops exactly at those bytes if and only if every map in the value passes the entry-count guard; otherwise the decoder refuses |
| `CodecRows.AlwaysFits` | arrow-bridge/src/codec.cpp:527-534 | a value whose map keys all take at least one byte passes every map guard, wherever it stands |
| `CodecRows.RowRoundTrip` | arrow-bridge/src/codec.cpp:620-696 | `DecodeRow(EncodeRow(row))` is `row`, for every schema whose map keys take bytes |
| `CodecRows.EmptyKeysAreRefused` | arrow-bridge/src/codec.cpp:530-534 | counterexample: a map of two zero-byte keys with null items is encoded and then refused by the decoder's guard |
| `CodecRows.MapRoundTripsIff` | arrow-bridge/src/codec.cpp:527-577 | one map level: over key and item types that round-trip, all values of a map type do if and only if its key type never encodes to zero bytes |
| `MapGuard.RoundTripsIff` | arrow-bridge/src/codec.cpp:77-610 | for every type, however nested: all its values round-trip if and only if no reachable map has keys that take no bytes, counting one byte of cover for every map in whose keys it lies |
| `MapGuard.RowsRoundTripIff` | arrow-bridge/src/codec.cpp:620-696 | every row of a schema decodes to itself if and only if that holds of each column |
| `MapGuard.RefusedValue` | arrow-bridge/src/codec.cpp:530-534 | where it does not hold, a value of the type that encodes and is then refused |
| `MapGuard.SafeFits` | arrow-bridge/src/codec.cpp:527-577 | where it holds, every value passes every map guard, with any bytes behind it |
| `CodecRows.DecodedHasType` | arrow-bridge/src/codec.cpp:488-610 | whatever is decoded is a value of the type, so it can be encoded again |
| `NormalForm.Reprint` | arrow-bridge/src/codec.cpp:421-610 | re-encoding a decoded value has the same length and differs only in bitfield padding bits and in boolean bytes made 0 or 1 |
| `NormalForm.RowNormalForm` | arrow-bridge/src/codec.cpp:620-696 | for every accepted row, `EncodeRow(DecodeRow(b))` is the normal form of `b`, byte by byte |
| `NormalForm.WorkIsPaidFor` | arrow-bridge/src/codec.cpp:496-562 | the counts of all lists and maps of a value, over all levels, are covered by its encoded size |
| `NormalForm.RowWorkBound` | arrow-bridge/src/codec.cpp:496-562 | in an accepted row of `n` bytes the sum of all list and map counts over every nesting level is at most `8 n` |
| `RowReader.Reader.constructor` | arrow-bridge/src/row_reader.hpp:22-28 | a cursor at the start of the buffer, within bounds |
| `RowReader.Reader.Remaining` | arrow-bridge/src/row_reader.hpp:27-28 | the number of bytes left, never an underflow |
| `RowReader.Reader.ReadBytes` | arrow-bridge/src/row_reader.hpp:40-47 | takes exactly the next `n` bytes or fails and leaves the cursor where it was; the cursor never passes the end |
| `RowReader.Reader.ReadU32` | arrow-bridge/src/row_reader.hpp:30-38 | reads a little-endian count or fails without moving |
| `RowReader.AllValid` | arrow-bridge/src/row_reader.hpp:56-62 | true exactly when every byte of the bitfield is zero, padding included |
| `RowReader.AllNull` | arrow-bridge/src/row_reader.hpp:64-76 | true exactly when every bit below the count is set, whatever the padding holds |
| `RowReader.AllValidMeansNoNulls` | arrow-bridge/src/row_reader.hpp:56-62 | `AllValid` implies that no element is null, and the converse holds when the padding bits are clear |
| `RowReader.DivideNeverMultiply` | arrow-bridge/src/codec.cpp:464-467 | the guard by division is the guard on the product, without a product that could wrap |
| `RowReader.RunIsElements` | arrow-bridge/src/codec.cpp:456-484 | an all-valid fixed-width run read in one piece yields the elements, cursor and errors of the element loop |
| `RowDecoder.DecodeValue` | arrow-bridge/src/codec.cpp:488-610 | the recursive descent returns the parser's value and cursor, or fails exactly when the parser does |
| `RowDecoder.DecodeEach` | arrow-bridge/src/codec.cpp:473-484 | the element loop, with one payload for each clear null bit |
| `RowDecoder.DecodeMapItems` | arrow-bridge/src/codec.cpp:546-562 | a map's value bitfield and values |
| `RowDecoder.DecodeListElements` | arrow-bridge/src/codec.cpp:439-486 | a list body by the run path or the element loop is the same list |
| `RowDecoder.DecodeStruct` | arrow-bridge/src/codec.cpp:421-437 | a struct body: its bitfield, then the non-null fields in order |
| `RowDecoder.DecodeRowBytes` | arrow-bridge/src/codec.cpp:670-696 | a row is accepted exactly when the parser accepts it and consumes every byte |
| `Builders.ValueAppended` | arrow-bridge/src/batch_decoder.cpp:344-505 | appending a value keeps the column well laid out, keeps every earlier slot, and the new slot holds the value, for every type including both union kinds |
| `Builders.NullsAppended` | arrow-bridge/src/batch_decoder.cpp:461-464 | `AppendNulls(n)` adds `n` null slots and keeps the layout; a dense union shares one null of its first child |
| `Builders.EmptiesGrow` | arrow-bridge/src/batch_decoder.cpp:461-464 | empty values, which null structs and fixed-size lists pass to their children, keep the layout and every earlier slot |
| `Builders.SlotAppended` | arrow-bridge/src/batch_decoder.cpp:177-182 | a null or a value adds one slot |
| `Builders.ElemsAppended` | arrow-bridge/src/batch_decoder.cpp:177-182 | the element loop adds the elements in order |
| `Builders.ListAppended` | arrow-bridge/src/batch_decoder.cpp:159-183 | a list body adds its elements to the child column, through a run of nulls or one by one |
| `Builders.FieldsAppended` | arrow-bridge/src/batch_decoder.cpp:188-198 | a struct's children grow by one slot each |
| `Builders.RunIsAppends` | arrow-bridge/src/row_reader.hpp:143-221 | the bulk append of a fixed-width run leaves the builder as the single appends would |
| `Budget.ValueTakes` | arrow-bridge/src/batch_decoder.cpp:344-505 | conservation, for every type and value: after an append the load of every node is its old load plus what the value takes, counting the slots that nulls and empty values take in dense unions |
| `Budget.ElemsTake` | arrow-bridge/src/batch_decoder.cpp:177-182 | the same for a run of elements appended one by one |
| `Budget.SlotTakes` | arrow-bridge/src/batch_decoder.cpp:177-182 | the same for one slot, null or not |
| `Budget.NullsTake` | arrow-bridge/src/batch_decoder.cpp:461-464 | one `AppendNulls(n)` takes one slot of a dense union's first child, whatever `n` is, and what the children get passed; no other counter grows |
| `Budget.EmptiesTake` | arrow-bridge/src/batch_decoder.cpp:461-464 | the same for the empty values that null structs and fixed-size lists pass down |
| `Leaks.NullsAreFreeIff` | arrow-bridge/src/batch_decoder.cpp:279-280 | nulls take no room if and only if the type has no dense union at which they would arrive |
| `Leaks.EmptiesAreFreeIff` | arrow-bridge/src/batch_decoder.cpp:279-280 | the same for empty values |
| `Leaks.ChargedInFullIff` | arrow-bridge/src/batch_decoder.cpp:260-307 | a value takes at least what the validation walk charges it, node by node, and exactly that if and only if none of its nulls reaches a dense union |
| `Leaks.ValueIsCharged` | arrow-bridge/src/batch_decoder.cpp:260-307 | appending a value moves every load by the walk's charge if and only if none of its nulls reaches a dense union |
| `Leaks.NothingLeaks` | arrow-bridge/src/batch_decoder.cpp:279-280 | without dense unions in the count no null takes room that was not charged |
| `Leaks.OffsetsAreCharged` | arrow-bridge/src/batch_decoder.cpp:260-296 | utf8, binary, list and map columns grow by exactly what the walk charged them, whatever the nulls |
| `Capacity.PassesFit` | arrow-bridge/src/batch_decoder.cpp:267-307 | if every running check of the validation walk passes, every node's load plus its charge is within 2^31-2 |
| `Capacity.InTimeSplit` | arrow-bridge/src/batch_decoder.cpp:297-307 | the dense-union rule for two runs of slots is the rule for the first and, from the counters it leaves, for the second |
| `Capacity.PassesIff` | arrow-bridge/src/batch_decoder.cpp:267-307 | for every type, from any counters: every running check of the walk passes if and only if the utf8, binary, list and map totals fit and every dense-union slot has as many free places in its child as its position in the row, whichever children the slots before it went to |
| `Capacity.ElemsPassIff` | arrow-bridge/src/batch_decoder.cpp:282-307 | the same for a run of slots, nulls included |
| `Capacity.CapacityIff` | arrow-bridge/src/batch_decoder.cpp:267-307 | the walk accepts a value into columns within their limits if and only if those two conditions hold from clear counters |
| `Capacity.AcceptedFits` | arrow-bridge/src/batch_decoder.cpp:582-598 | an accepted value whose nulls stay out of dense unions leaves every column within 2^31-2 |
| `Capacity.AcceptedFitsIff` | arrow-bridge/src/batch_decoder.cpp:582-598 | for every accepted value: utf8, binary, list and map columns stay within 2^31-2, and dense-union children do if and only if their old lengths plus what the value takes are |
| `CapacityExamples.NullsCanOverflow` | arrow-bridge/src/batch_decoder.cpp:279-307 | counterexample: after 2^31-2 ordinary rows a row with a null union slot is accepted and takes the union's first child past 2^31-2 |
| `CapacityExamples.OrderCanRefuse` | arrow-bridge/src/batch_decoder.cpp:297-307 | counterexample: after 2^31-3 ordinary rows a row with one slot in each child of the union is accepted in one order and refused in the other, although it decodes and the columns with it appended are within their limits |
| `BatchTree.MakeBuilder` | arrow-bridge/src/batch_decoder.cpp:570-571 | an empty, well-formed builder tree for the type |
| `BatchTree.EmptyIsBuilt` | arrow-bridge/src/batch_decoder.cpp:570-571 | empty columns satisfy the layout rules |
| `BatchTree.Builder.constructor` | arrow-bridge/src/batch_decoder.cpp:570-571 | a builder over its children's builders, all empty |
| `BatchTree.Builder.AppendEmpties` | arrow-bridge/src/batch_decoder.cpp:461-464 | the builder tree becomes the column with `n` empty values more, in place |
| `BatchTree.Builder.AppendNulls` | arrow-bridge/src/batch_decoder.cpp:461-464 | the builder tree becomes the column with `n` nulls more, in place |
| `BatchTree.Builder.NullOthers` | arrow-bridge/src/batch_decoder.cpp:499-503 | every inactive child of a sparse union gets one null and the active one is untouched |
| `BatchTree.Builder.Begin` | arrow-bridge/src/batch_decoder.cpp:465-498 | one more non-null slot; the children are not touched |
| `BatchTree.Builder.AppendRun` | arrow-bridge/src/batch_decoder.cpp:448-460 | one bulk copy is the run of single appends |
| `BatchTree.Builder.Finish` | arrow-bridge/src/batch_decoder.cpp:606-609 | hands over the column and starts an empty one |
| `BatchTree.Builder.Reset` | arrow-bridge/src/batch_decoder.cpp:606-609 | the whole tree is empty again |
| `BatchSkip.Node.constructor` | arrow-bridge/src/batch_decoder.cpp:34-47 | a node with the type, the builder and the code table of its position |
| `BatchSkip.SkipScalar` | arrow-bridge/src/batch_decoder.cpp:260-277 | reads one scalar; the verdict is malformed, over capacity or fine |
| `BatchSkip.SkipVar` | arrow-bridge/src/batch_decoder.cpp:265-277 | a variable-length scalar: length, bytes, then the check on a 32-bit column |
| `BatchSkip.ChargeVar` | arrow-bridge/src/batch_decoder.cpp:267-276 | adds the length to `pending` and reports whether the column would pass its limit |
| `BatchSkip.SkipSlots` | arrow-bridge/src/batch_decoder.cpp:177-182 | one slot after another: the first bad byte or full column decides, otherwise the counters grow by the elements' charge |
| `BatchSkip.SkipElements` | arrow-bridge/src/batch_decoder.cpp:159-183 | bitfield and body of a list: the parser's verdict and cursor, and over capacity only with a counter past its limit |
| `BatchSkip.SkipBody` | arrow-bridge/src/batch_decoder.cpp:161-183 | the list's own check, then the elements under the bitfield already read |
| `BatchSkip.ListBegin` | arrow-bridge/src/batch_decoder.cpp:282-289 | adds the count to a 32-bit list's counter and reports whether child length plus counter passes 2^31-2; wide and fixed-size lists never do |
| `BatchSkip.SkipRun` | arrow-bridge/src/batch_decoder.cpp:163-182 | the run, all-null and element paths give one verdict, cursor and charge |
| `BatchSkip.SkipMap` | arrow-bridge/src/batch_decoder.cpp:213-227 | the entry guard, then the entries |
| `BatchSkip.SkipEntries` | arrow-bridge/src/batch_decoder.cpp:218-226 | the map's own check, its keys, then its values under their bitfield |
| `BatchSkip.MapBegin` | arrow-bridge/src/batch_decoder.cpp:290-296 | adds the count and reports whether item length plus counter passes 2^31-2 |
| `BatchSkip.SkipMapItems` | arrow-bridge/src/batch_decoder.cpp:220-225 | the value bitfield and the values |
| `BatchSkip.SkipUnion` | arrow-bridge/src/batch_decoder.cpp:228-236 | an unknown or negative type code is malformed; a known one goes to its child |
| `BatchSkip.UnionBegin` | arrow-bridge/src/batch_decoder.cpp:297-307 | a dense union charges one slot and compares it with the chosen child |
| `BatchSkip.SkipArm` | arrow-bridge/src/batch_decoder.cpp:233-235 | the union's check, then the chosen child |
| `BatchSkip.SkipStruct` | arrow-bridge/src/batch_decoder.cpp:188-198 | the bitfield and the fields |
| `BatchSkip.SkipFields` | arrow-bridge/src/batch_decoder.cpp:192-196 | each field in turn; a refused field refuses the struct |
| `BatchSkip.SkipField` | arrow-bridge/src/batch_decoder.cpp:193-196 | one field carries the walk from its first `i` fields to its first `i + 1`, or decides for the whole struct |
| `BatchSkip.SkipSlot` | arrow-bridge/src/batch_decoder.cpp:193-196 | a null is free; anything else is walked |
| `BatchSkip.SkipValue` | arrow-bridge/src/batch_decoder.cpp:186-241 | for every type: fine exactly when the parser accepts and every running check passes, malformed or over capacity otherwise; the counters then hold the value's charge, the cursor is the parser's and no builder changes |
| `BatchAppend.AppendScalar` | arrow-bridge/src/batch_decoder.cpp:345-447 | appends one scalar the codec would decode here |
| `BatchAppend.AppendSlot` | arrow-bridge/src/batch_decoder.cpp:461-464 | a null or a replayed value |
| `BatchAppend.AppendSlots` | arrow-bridge/src/batch_decoder.cpp:177-182 | the element loop, replayed |
| `BatchAppend.AppendElements` | arrow-bridge/src/batch_decoder.cpp:159-183 | the list slot and its elements, at the same cursor positions as the validation walk |
| `BatchAppend.AppendRun` | arrow-bridge/src/batch_decoder.cpp:163-182 | the three element paths leave the same child column |
| `BatchAppend.AppendFixedRun` | arrow-bridge/src/batch_decoder.cpp:164-172 | the bulk path never underruns on validated input |
| `BatchAppend.AppendMap` | arrow-bridge/src/batch_decoder.cpp:213-227 | the map slot, its keys and its values |
| `BatchAppend.AppendMapItems` | arrow-bridge/src/batch_decoder.cpp:220-225 | the values, with nulls where the bitfield says so |
| `BatchAppend.AppendUnion` | arrow-bridge/src/batch_decoder.cpp:228-236 | the code is always known on validated input |
| `BatchAppend.AppendArm` | arrow-bridge/src/batch_decoder.cpp:491-504 | the union slot, one null for each inactive child of a sparse union, and the active child's value |
| `BatchAppend.AppendStruct` | arrow-bridge/src/batch_decoder.cpp:188-198 | the struct slot and its fields |
| `BatchAppend.AppendFields` | arrow-bridge/src/batch_decoder.cpp:192-196 | each child gains exactly one slot |
| `BatchAppend.AppendValue` | arrow-bridge/src/batch_decoder.cpp:186-241 | for every type: on bytes the parser accepts the builder tree becomes the column with the decoded value appended and the cursor ends where the parser's does, so no failing branch can be reached |
| `BatchRun.BatchRefinesCodec` | arrow-bridge/src/batch_decoder.cpp:582-598 | after any sequence of byte rows, slot `r` of column `c` holds field `c` of the `r`-th accepted row as `DecodeRow` gives it, and every column obeys the Arrow layout rules with exactly one slot per accepted row |
| `BatchRun.RunStaysWithin` | arrow-bridge/src/batch_decoder.cpp:582-598 | over any run no column outgrows its 32-bit offsets, dense-union children included as long as no accepted row passes a null to one |
| `BatchRun.RunLoad` | arrow-bridge/src/batch_decoder.cpp:582-598 | after any run every node holds exactly the sum of what the accepted rows take |
| `BatchRun.RunStaysWithinIff` | arrow-bridge/src/batch_decoder.cpp:582-598 | after any run every column is within 2^31-2 if and only if the sums for the dense-union children are |
| `BatchRun.OffsetsAlwaysFit` | arrow-bridge/src/batch_decoder.cpp:582-598 | utf8, binary, list and map columns never outgrow their offsets, whatever the rows hold |
| `BatchRun.RefusedOnlyForRoom` | arrow-bridge/src/batch_decoder.cpp:582-598 | for every schema, after any run: a row that `DecodeRow` accepts is taken if and only if the utf8, binary, list and map totals of the walk are within its limit and its dense-union slots come in time; `Limits.TakenIff` has the number and the real columns |
| `BatchDecoder.BuildNode` | arrow-bridge/src/batch_decoder.cpp:53-130 | a node tree that mirrors the builder tree one to one |
| `BatchDecoder.CollectBudgeted` | arrow-bridge/src/batch_decoder.cpp:134-147 | lists exactly the nodes whose `pending` can ever grow |
| `BatchDecoder.RowJudged` | arrow-bridge/src/batch_decoder.cpp:582-591 | the walk's verdict on a row is what the codec and the capacity checks say about it |
| `BatchDecoder.Decoder.constructor` | arrow-bridge/src/batch_decoder.cpp:545-576 | an empty decoder: empty columns, clear counters, the budgeted nodes listed |
| `BatchDecoder.Decoder.ResetPending` | arrow-bridge/src/batch_decoder.cpp:583 | clears every counter that the last row could have left behind |
| `BatchDecoder.Decoder.Validate` | arrow-bridge/src/batch_decoder.cpp:584-591 | judges a row without changing a builder |
| `BatchDecoder.Decoder.Fill` | arrow-bridge/src/batch_decoder.cpp:592-596 | replays an accepted row into the builders, which then hold the run with that row |
| `BatchDecoder.Decoder.Append` | arrow-bridge/src/batch_decoder.cpp:582-598 | all or nothing: a refused row leaves every column and the row count unchanged, an accepted one adds exactly the decoded row; malformed only when the codec refuses the bytes; a row that decodes is taken exactly when the columns with it in them stay within 2^31-2 bytes and elements and its dense-union slots come in turn, and is over capacity otherwise; the columns stay those of the whole run of rows offered since the batch began |
| `Limits.TakenIff` | arrow-bridge/src/batch_decoder.cpp:267-307 | after any run, a row that decodes is taken if and only if the columns with the row in them hold at most 2^31-2 bytes per utf8 and binary column and 2^31-2 elements per list and map column, and the i-th slot it gives to a dense union finds i + 1 places below 2^31-2 in its child |
| `Limits.TakenWhenItFits` | arrow-bridge/src/batch_decoder.cpp:267-304 | without dense unions the offsets alone decide, both ways: at 2^31-2 a row is taken, one more byte or element and it is refused |
| `Limits.OffsetsNeverOutgrow` | arrow-bridge/src/batch_decoder.cpp:267-304 | no utf8, binary, list or map column ever outgrows 2^31-2, whatever the rows hold |
| `Limits.SumsAreColumns` | arrow-bridge/src/batch_decoder.cpp:267-301 | the sums that the validation walk compares fit if and only if the offsets of the columns with the value appended do |
| `Limits.OffsetsAreTallied` | arrow-bridge/src/batch_decoder.cpp:267-301 | the offsets of the columns fit if and only if the tally of what they hold does |
| `Limits.TurnIsTime` | arrow-bridge/src/batch_decoder.cpp:303-307 | dense-union slots come in turn in the real children if and only if the walk's one counter finds them in time |
| `ArrowLayout.ShowsIff` | arrow-bridge/src/batch_decoder.cpp:344-505 | the buffers of well-laid-out columns, read slot by slot through validity, offsets, lanes and type codes, show exactly the value of the slot |
| `ArrowLayout.BuffersShowRows` | arrow-bridge/src/batch_decoder.cpp:582-628 | after any run, slot r of column c shows field c of the r-th accepted row, read off the buffers |
| `BatchDecoder.Decoder.Finish` | arrow-bridge/src/batch_decoder.cpp:606-628 | hands over the columns and the count of the accepted rows, field by field as `DecodeRow` gives them, for the whole run since the last `Finish`, and starts an empty batch |
| `Writer.WriteBuffer.BeginBits` | core/include/fletcher/core/positional_io.hpp:43-48 | a zeroed bitfield placeholder, and where it starts |
| `Writer.WriteBuffer.SetNull` | core/include/fletcher/core/positional_io.hpp:50-57 | marks one slot null in a bitfield already written, whatever has been written after it |
| `Writer.PatchedLayout` | core/include/fletcher/core/positional_io.hpp:112-122 | patching one bit turns the layout with that flag clear into the layout with it set |
| `EncodeSteps.BulkIsElements` | arrow-bridge/src/codec.cpp:86-99 | the one-shot copy of an all-valid run, at any slice offset, writes what the element loop writes |
| `Arrays.BuiltIsSound` | arrow-bridge/src/codec.cpp:54-65 | every column a builder makes passes the structural validation the encoder demands |
| `RowEncoder.EncodeElements` | arrow-bridge/src/codec.cpp:77-100 | writes the bitfield and the payloads of a window of an array, or fails exactly when an element cannot be encoded |
| `RowEncoder.WriteNulls` | arrow-bridge/src/codec.cpp:79-85 | the null bits of the window, and whether there is any |
| `RowEncoder.WritePayloads` | arrow-bridge/src/codec.cpp:97-99 | the payloads of the non-null slots in order |
| `RowEncoder.EncodeElement` | arrow-bridge/src/codec.cpp:111-308 | for every type, array, slice and index: writes exactly the encoding of the slot's value, or refuses exactly the values the format cannot carry |
| `RowEncoder.EncodeList` | arrow-bridge/src/codec.cpp:226-246 | count and body of a list slot, taken from the unsliced child at the slot's offset |
| `RowEncoder.EncodeFixedSizeList` | arrow-bridge/src/codec.cpp:247-254 | a body without a count |
| `RowEncoder.EncodeScalar` | arrow-bridge/src/codec.cpp:116-209 | one scalar slot; a variable-length value of 4 GiB or more is refused |
| `RowEncoder.EncodeUnion` | arrow-bridge/src/codec.cpp:279-295 | the type code and the active child, at the dense offset or the same index |
| `RowEncoder.EncodeStruct` | arrow-bridge/src/codec.cpp:210-225 | the bitfield, patched while the fields are written |
| `RowEncoder.EncodeMap` | arrow-bridge/src/codec.cpp:255-278 | a map slot from the flattened key and item children |
| `RowEncoder.EncodeEntries` | arrow-bridge/src/codec.cpp:260-277 | count, keys, then values under their null bits |
| `RowEncoder.EncodeKeys` | arrow-bridge/src/codec.cpp:265-269 | a null key is an error |
| `RowEncoder.EncodeItems` | arrow-bridge/src/codec.cpp:270-276 | null bits are patched while the values are written |
| `RowWriter.EncodeScalarValue` | arrow-bridge/src/codec.cpp:313-415 | writes the encoding of a scalar's value, or refuses exactly when an array below it is not valid, a size is wrong, a code is unknown or the format cannot carry a value; what was written before stays |
| `RowWriter.EncodeUnionScalar` | arrow-bridge/src/codec.cpp:384-409 | an invalid type code is refused before anything is written |
| `RowWriter.EncodeStructScalar` | arrow-bridge/src/codec.cpp:318-331 | absent and invalid children become null bits |
| `RowWriter.ScalarAtValue` | arrow-bridge/src/codec.cpp:102-109 | the scalar taken out of an array slot stands for that slot's value |
| `RowWriter.EncodersAgree` | arrow-bridge/src/codec.cpp:111-415 | for every array, slice offset and index the element encoder and the scalar encoder accept the same values and write the same bytes |
| `RowWriter.EncodeCell` | arrow-bridge/src/codec.cpp:632-658 | one field, in line with what a row writes; a dictionary of nested values is refused. `RowWriter.IndexIsResolved` and `RowWriter.BadIndexIsRefused` say which entry is sent |
| `RowWriter.EncodeRowInto` | arrow-bridge/src/codec.cpp:620-660 | appends the encoding of the row behind what the buffer holds, or fails exactly on a wrong length, a type mismatch, a bad dictionary index, a dictionary of nested values or a value that cannot be carried |
| `RowWriter.EncodedRowDecodes` | arrow-bridge/src/codec.cpp:620-696 | decoding an encoded row gives for every cell null, its own scalar, or the dictionary entry at its index |
| `RowWriter.IndexIsResolved` | arrow-bridge/src/scalar_codec.cpp:171-180 | a dictionary cell and the scalar that its index names are interchangeable: the row is accepted or refused alike and gives the same bytes |
| `RowWriter.BadIndexIsRefused` | arrow-bridge/src/scalar_codec.cpp:171-180 | a row with an index out of range, or at a null entry, is refused |
| `RowStamp.GrownFlags` | core/include/fletcher/core/positional_io.hpp:193-212 | growing the bitfield by one field keeps every old null flag and adds a clear one, whatever the padding held |
| `RowStamp.ClearedIsGrown` | core/include/fletcher/core/positional_io.hpp:202-212 | copying, extending with zero bytes and clearing one bit is that growth |
| `RowStamp.AppendTrailing` | core/include/fletcher/core/positional_io.hpp:188-222 | the stamped row is the old row with a grown bitfield and the stamp behind it; a row shorter than its bitfield is refused |
| `RowStamp.ReadTrailing` | core/include/fletcher/core/positional_io.hpp:249-255 | the last eight bytes, or a refusal if there are fewer |
| `RowStamp.StampedRowDecodes` | core/include/fletcher/core/positional_io.hpp:159-255 | a stamped row decodes, against the schema with one more field, to the old row plus the stamp, and the no-schema read gives the same stamp |
| `ProviderInv.InitInv` | fastdds-pubsub-provider/src/fast_dds_pubsub_provider.cpp:79-197 | a new provider satisfies the invariant |
| `ProviderSteps.StepKeeps` | fastdds-pubsub-provider/src/fast_dds_pubsub_provider.cpp:258-590 | every step of every thread, with any DDS outcome, keeps the whole invariant: data side, channel, arrivals, registry, readers, listeners, stages, locks and channel users |
| `ProviderRuns.RunKeeps` | fastdds-pubsub-provider/src/fast_dds_pubsub_provider.cpp:258-590 | the invariant holds in every state of every run |
| `ProviderRuns.RegistryHitIsLive` | fastdds-pubsub-provider/src/fast_dds_pubsub_provider.cpp:270-282 | in every interleaving a registry hit names the topic whose schema reader it is, and that reader has not been deleted |
| `ProviderRuns.ListenerOutlivesReader` | fastdds-pubsub-provider/src/fast_dds_pubsub_provider.cpp:1149-1187 | in every interleaving every live data reader, also one being torn down, still has its listener and its topic |
| `ProviderRuns.NoDeadlock` | fastdds-pubsub-provider/src/fast_dds_pubsub_provider.cpp:179-188 | in every reachable state in which anything is under way some thread can take a step of its own |
| `ProviderRuns.CanMove` | fastdds-pubsub-provider/src/fast_dds_pubsub_provider.cpp:179-188 | the same from the invariant alone: the lock order `mu` then `schema_mu` leaves no cycle |
| `ProviderRuns.CallsAreShort` | fastdds-pubsub-provider/src/fast_dds_pubsub_provider.cpp:806-1253 | a call takes at most twelve steps of its own, each of its steps brings it closer to its end and no other thread's step moves it back |
| `ProviderRuns.ForwardShrinks` | fastdds-pubsub-provider/src/fast_dds_pubsub_provider.cpp:258-1253 | every internal step of any thread, whatever DDS answers, leaves less work in the whole provider |
| `ProviderRuns.ComesToRest` | fastdds-pubsub-provider/src/fast_dds_pubsub_provider.cpp:179-188 | from every state of every run finitely many internal steps lead to a state in which no call and no delivery is under way |
| `ProviderHistory.EveryStep` | fastdds-pubsub-provider/src/fast_dds_pubsub_provider.cpp:258-590 | one step settles each arrival at most once, leaves a writer's bound and profile alone, and lets a received announcement go only by closing the channel |
| `ProviderHistory.ArrivalsSettleOnce` | fastdds-pubsub-provider/src/fast_dds_pubsub_provider.cpp:371-494 | an arrival, once settled, keeps its outcome for the rest of the run |
| `ProviderHistory.PendingMeansResolver` | fastdds-pubsub-provider/src/fast_dds_pubsub_provider.cpp:112-129 | an arrival is pending if and only if its topic's open channel holds it with a valid resolver |
| `ProviderHistory.NeverOverwritten` | fastdds-pubsub-provider/src/fast_dds_pubsub_provider.cpp:558-563 | a call that creates an arrival never replaces a resolver that is still valid |
| `ProviderHistory.ClosingEnds` | fastdds-pubsub-provider/src/fast_dds_pubsub_provider.cpp:578-590 | closing a channel ends a pending arrival as "ended" and leaves the channel closed |
| `ProviderHistory.ArrivedMeansOpen` | fastdds-pubsub-provider/src/fast_dds_pubsub_provider.cpp:448-487 | whenever an arrival has succeeded and a data subscription is live, its data reader is open and not deleted, and the arrival carries the schema of the channel |
| `ProviderHistory.ChannelIsCounted` | fastdds-pubsub-provider/src/fast_dds_pubsub_provider.cpp:1137-1253 | whenever `mu` is free the schema channel is open if and only if a watch is held or a data listener is live |
| `ProviderHistory.ReopensFresh` | fastdds-pubsub-provider/src/fast_dds_pubsub_provider.cpp:504-566 | a channel that opens starts from "unknown" with a pending arrival, or from this instance's own announcement with an arrival settled with that schema |
| `ProviderHistory.FirstAnnouncementStands` | fastdds-pubsub-provider/src/fast_dds_pubsub_provider.cpp:387-408 | the schema and bound of the first usable announcement stay until the channel closes |
| `ProviderHistory.TypesAgree` | fastdds-pubsub-provider/src/fast_dds_pubsub_provider.cpp:315-356 | a live writer means the data topic has the writer's bound; an open reader without a writer means it has the announced bound |
| `ProviderHistory.WriterStays` | fastdds-pubsub-provider/src/fast_dds_pubsub_provider.cpp:824-905 | a writer, once created, keeps its bound and profile for the rest of the run |
| `ProviderHistory.RefusalChangesNothing` | fastdds-pubsub-provider/src/fast_dds_pubsub_provider.cpp:806-863 | over a whole run, from the call holding `mu` to the return of a declaration refused for a bound or profile conflict or for a live subscription at another bound: the topic keeps its publishing side, schema topic and watches, no step changes it except a schema sample of its own, and the refusing step changes no topic, entity, listener or arrival |
| `ProviderHistory.AnnouncedMeansWriter` | fastdds-pubsub-provider/src/fast_dds_pubsub_provider.cpp:911-992 | the schema writer exists if and only if an announcement went out, so a failed one can be retried |
| `ProviderHistory.SchemaThreadStaysOut` | fastdds-pubsub-provider/src/fast_dds_pubsub_provider.cpp:508-513 | no step of the schema thread changes a topic whose channel is closed, which is why reading it under `mu` alone is enough |
| `ProviderCauses.StepCaused` | fastdds-pubsub-provider/src/fast_dds_pubsub_provider.cpp:371-1253 | every step changes a topic's schema, bound, writer, profile, announcement, listener, watch count or data reader only for its cause: a usable sample, an own announcement, a first declaration, a Subscribe or Unsubscribe of that topic, a closing channel |
| `ProviderCauses.EveryChangeHasItsCause` | fastdds-pubsub-provider/src/fast_dds_pubsub_provider.cpp:371-1253 | the same for every change in every run |
| `ProviderCauses.ArrivedIsAnnounced` | fastdds-pubsub-provider/src/fast_dds_pubsub_provider.cpp:448-487 | in every run, while a channel is open an arrival that succeeded carries the schema that the channel knows |
| `ProviderCauses.LearningSettles` | fastdds-pubsub-provider/src/fast_dds_pubsub_provider.cpp:448-487 | in every run, a step that teaches a channel its schema while somebody waits settles the arrival with that schema, and as failed exactly when a data subscription is set up and its reader could not be opened |
| `ProviderCauses.SampleSettles` | fastdds-pubsub-provider/src/fast_dds_pubsub_provider.cpp:448-487 | a usable sample gives a channel without a schema its schema and bound, and settles exactly the arrival waiting there |
| `ProviderCauses.UnusableSample` | fastdds-pubsub-provider/src/fast_dds_pubsub_provider.cpp:377-446 | a sample that does not decode or whose bound is no payload bound teaches nothing and fails whoever waits; one that is no data changes nothing |
| `ProviderLeaks.StepOwned` | fastdds-pubsub-provider/src/fast_dds_pubsub_provider.cpp:504-1253 | every step leaves each listener, schema reader, data topic and writer named by a topic or carried by the thread that is deleting or registering it |
| `ProviderLeaks.RestHoldsNothingElse` | fastdds-pubsub-provider/src/fast_dds_pubsub_provider.cpp:504-1253 | in every state of every run in which no call is under way, every listener, reader, writer and DDS topic that exists is named by a topic: nothing leaks |
| `ProviderLeaks.LastSubscriberLeavesNothing` | fastdds-pubsub-provider/src/fast_dds_pubsub_provider.cpp:1137-1253 | when the last subscriber has gone and no call is under way, no reader, no listener and no registry entry is left |
| `Gateway.FirstTaker` | gateway-client-ts/src/client.ts:270-273 | the entry found takes the response and no entry before it does; the length of the queue when none does |
| `GatewayRuns.AnswerFits` | gateway/src/ws_session.cpp:115-143 | whatever a handler makes of a request, its one response has the type the client waits for or is an error |
| `GatewayRuns.HeadAnswersHead` | gateway-client-ts/src/client.ts:260-275 | the next text frame off the wire is the response computed for the first pending call, and the search finds that call |
| `GatewayRuns.StepKeeps` | gateway/src/ws_session.cpp:91-336 | every step, a failed write included, keeps requests, responses, frames and subscriptions in order |
| `GatewayRuns.RunKeeps` | gateway/src/ws_session.cpp:91-336 | the same for every state of every run |
| `GatewayRuns.Correlation` | gateway-client-ts/src/client.ts:260-304 | the k-th request is resolved by the k-th text response, which the session computed for the k-th request, whatever errors and MESSAGE frames come between |
| `GatewayRuns.FramesInOrder` | gateway/src/ws_session.cpp:304-336 | frames leave the session in queue order, the front of the queue is the only write in flight, and an idle session has sent everything |
| `GatewayRuns.MessageAfterSubscribed` | gateway/src/ws_session.cpp:193-258 | a MESSAGE frame never overtakes the `subscribed` response that introduces its id, unless that subscribe failed late |
| `GatewayRuns.WorkShrinks` | gateway/src/ws_session.cpp:304-336 | every internal step of session, socket and client leaves less work |
| `GatewayRuns.EveryCallIsAnswered` | gateway-client-ts/src/client.ts:260-304 | without a write failure there is always a next step until no call is pending, every request is resolved and the client's subscriptions are among the session's |
| `GatewayRuns.CallsComeToRest` | gateway-client-ts/src/client.ts:260-304 | from every state of every run without a failed write, internal steps no more than the work left lead to a state in which every call made so far is resolved |
| `GatewayDelivery.DispatchedExactly` | gateway-client-ts/src/client.ts:277-293 | in every state of every run the frames handed to subscribers are, in order, exactly the MESSAGE frames received after a `subscribed` response for their id and before an `unsubscribed` one, and the client holds exactly those ids |
| `GatewayDelivery.MessagesAreSamples` | gateway/src/ws_session.cpp:203-227 | every sample of the provider is queued as one MESSAGE frame with its id and bytes, in order, and the client has received a prefix of them |
| `GatewayDelivery.SessionHoldsGranted` | gateway/src/ws_session.cpp:193-265 | the session holds exactly the ids whose last request was granted, under the topics asked for; a response is an error exactly when the call did not go through and otherwise carries the id, schema and topics of the provider |
| `GatewayPeers.Session.constructor` | gateway/src/ws_session.cpp:64-68 | an idle session with nothing queued |
| `GatewayPeers.Session.DoWrite` | gateway/src/ws_session.cpp:320-336 | starts the front frame, or goes idle when the queue is empty |
| `GatewayPeers.Session.SendFrame` | gateway/src/ws_session.cpp:304-318 | queues a frame and starts it if the session was idle, so the front is always the one in flight |
| `GatewayPeers.Session.OnWritten` | gateway/src/ws_session.cpp:331-335 | drops the finished frame and starts the next; after an error nothing is sent again |
| `GatewayPeers.Session.HandleFrame` | gateway/src/ws_session.cpp:115-143 | exactly one text response to a request, an error if anything on the way refuses, and the subscriptions that go with it |
| `GatewayPeers.Session.OnSubscribe` | gateway/src/ws_session.cpp:193-258 | the subscription is recorded before the response is built, so a late failure leaves it in place |
| `GatewayPeers.Session.OnUnsubscribe` | gateway/src/ws_session.cpp:260-264 | forgets the subscription and answers |
| `GatewayPeers.Client.constructor` | gateway-client-ts/src/client.ts:54-55 | nothing pending |
| `GatewayPeers.Client.FindIndex` | gateway-client-ts/src/client.ts:270-272 | the search loop finds the first entry that takes the response |
| `GatewayPeers.Client.OnMessage` | gateway-client-ts/src/client.ts:260-293 | a text frame resolves and removes the entry found; a MESSAGE frame reaches its subscription or is dropped |
| `GatewayPeers.Client.Continue` | gateway-client-ts/src/client.ts:139-168 | a resolved subscribe registers its id when a schema is at hand, a resolved unsubscribe removes it, an error does neither |
| `EdgeVisitor.LinesParse` | protoc/src/cpp_backend_decode_visitor.cpp:52-290 | the braces balance: emitted lines spell exactly the statements they were written for |
| `EdgeVisitor.LevelLines` | protoc/src/cpp_backend_decode_visitor.cpp:204-237 | the opening loop, the leaf and the closing loop spell properly nested list levels, for any depth |
| `EdgeVisitor.Visitor.EmitField` | protoc/src/cpp_backend_decode_visitor.cpp:52-71 | appends the lines of the statements for the field's shape, none for an unsupported one |
| `EdgeVisitor.Visitor.EmitOne` | protoc/src/cpp_backend_decode_visitor.cpp:75-124 | a guard with a reset when the field is nullable, a plain read otherwise |
| `EdgeVisitor.Visitor.EmitRepeated` | protoc/src/cpp_backend_decode_visitor.cpp:145-171 | header, clear and a loop that appends; no guard |
| `EdgeVisitor.Visitor.EmitNestedList` | protoc/src/cpp_backend_decode_visitor.cpp:173-244 | counts the levels by walking down, then writes one header, resize and loop per level |
| `EdgeVisitor.Visitor.EmitLevels` | protoc/src/cpp_backend_decode_visitor.cpp:204-241 | the two emitting loops write exactly the nested levels |
| `EdgeVisitor.Visitor.EmitMap` | protoc/src/cpp_backend_decode_visitor.cpp:247-290 | keys first, then the value bitfield, then the pairs |
| `EdgeDecode.ReadIsBlind` | protoc/src/cpp_backend_decode_visitor.cpp:111-124 | a struct or scalar read by emitted code is the blind decoder's read, on every byte string |
| `EdgeDecode.MembersAreBlind` | protoc/src/generator.cpp:886-895 | a generated class decodes its fields as the blind decoder does, whatever its members held and whatever the bytes are, errors included |
| `EdgeDecode.FieldIsBlind` | protoc/src/cpp_backend_decode_visitor.cpp:52-290 | the code emitted for any supported field does what the blind decoder does, on any reader state and over any old member value, errors included |
| `EdgeDecode.LevelRuns` | protoc/src/cpp_backend_decode_visitor.cpp:204-241 | list level `d`, run over any stale vector, ends as the decoded list, at any depth |
| `EdgeDecode.NestedRuns` | protoc/src/cpp_backend_decode_visitor.cpp:173-244 | a nested list overwrites or keeps its member exactly as its guard says |
| `EdgeDecode.MapRuns` | protoc/src/cpp_backend_decode_visitor.cpp:247-290 | the two passes over a map read keys, skip the value bitfield and read values |
| `EdgeAgree.BlindOfFull` | protoc/src/cpp_backend_decode_visitor.cpp:52-290 | on a value with no null that emitted code would read past, the blind decoder is the generic decoder, value and cursor |
| `EdgeAgree.BlindIsFull` | protoc/src/cpp_backend_decode_visitor.cpp:52-290 | emitted code never yields a value with such a null |
| `EdgeAgree.FieldDecodesIff` | protoc/src/cpp_backend_decode_visitor.cpp:52-290 | on every field the generic decoder accepts, emitted code yields the same value and cursor if and only if nulls occur only where a guard was emitted and a null nested list finds its member empty |
| `EdgeGuards.NullIsReset` | protoc/src/cpp_backend_decode_visitor.cpp:75-108 | a nullable scalar or struct whose flag is set reads nothing and leaves its member null |
| `EdgeGuards.PresentIsRead` | protoc/src/cpp_backend_decode_visitor.cpp:111-124 | a scalar that is present, or that cannot be null, takes the value and stops where the generic decoder does, or throws with it |
| `EdgeGuards.NullNestedIsKept` | protoc/src/cpp_backend_decode_visitor.cpp:173-203 | a nullable list of lists whose flag is set reads nothing and keeps what its member held |
| `EdgeGuards.FlagIsIgnored` | protoc/src/cpp_backend_decode_visitor.cpp:145-171 | a list of scalars or structs and a map are read alike whether or not their flag is set |
| `EdgeGuards.NullableClassDecodes` | protoc/src/generator.cpp:852-895 | a class whose fields are nullable scalars, or nullable structs of such fields at every level, decodes every row the codec accepts to the same values, whatever it held |
| `EdgeGuards.ClassDecodesAllIff` | protoc/src/generator.cpp:852-895 | those are exactly the classes that do |
| `EdgeAgree.MessageDecodesIff` | protoc/src/generator.cpp:852-895 | on every row the generic decoder accepts, a generated class decodes the same row if and only if that holds of each field |
| `EdgeAgree.MemberIsForgottenIff` | protoc/src/generator.cpp:856-866 | two members that held different values end alike if and only if the field is not a null, nullable nested list; errors and cursor never depend on the old value |
| `EdgeAgree.StaleListSurvives` | protoc/src/cpp_backend_decode_visitor.cpp:192-203 | counterexample: a nullable nested list that is null leaves the previous row's list in the member |
| `EdgeErrors.ClearAgrees` | protoc/src/cpp_backend_decode_visitor.cpp:52-290 | if no flag that emitted code ignores is set on the way, emitted code and the generic decoder give the same value, cursor and error, on every byte string |
| `EdgeErrors.MessageFaultsIff` | protoc/src/generator.cpp:852-895 | on such a row a generated class throws if and only if the generic decoder of its fields fails, and both stop at the same byte, whatever its members held |
| `EdgeErrors.TrailingBytesAreLeft` | protoc/src/generator.cpp:861-864 | `DecodeInto` reads a row with bytes behind it as the row alone and leaves the bytes unread, where `DecodeRow` refuses them |
| `EdgeErrors.BlindStable` | protoc/src/cpp_backend_decode_visitor.cpp:52-290 | a successful decode by emitted code does not depend on the bytes behind it |

## Left out

- BatchRun.RunStaysWithin: covers dense-union children only while no accepted row passes a null to one; `BatchRun.RunStaysWithinIff` has the exact condition.
- Capacity.AcceptedFits: one way, for the same rows; `Capacity.AcceptedFitsIff` has both.
- EdgeAgree.MessageDecodesIff: speaks of rows the generic decoder accepts; on other rows `EdgeErrors.MessageFaultsIff` holds while no flag that emitted code ignores is set, and `EdgeDecode.MembersAreBlind` in every case.
- RowWriter.EncodeScalarValue: a nested array passes or fails by Arrow's full validation. `Validate` does not look at interior offsets, union codes and dense offsets; what the encoder does with an array that passes only there is not modelled. A scalar's payload has the kind its type says, as Arrow's own constructors make it.
- GatewayRuns.EveryCallIsAnswered: a failed write ends the claim, since the session then sends nothing more.
- Arrow, Fast DDS, Boost and WebSocket internals beyond what their calls do; allocation failure; `Reserve`.
- Floating-point meaning: every fixed-width value is its bytes.
- `DictionaryEncode` and `Cast` in `Finish`, dictionaries nested in other types, and types the constructors reject.
- The provider's destructor, its status dispatch and logging, QoS profiles, and the DDS data path itself.
- Text parsing in the gateway: invalid JSON, unknown actions and short binary frames, which this client does not send; topic splitting, base64 and schema conversion.
- Closing and reconnecting a client: one connection is modelled.
- `WriteBuffer` windows, refills and lending: the buffer is its bytes.
- The rest of the protobuf plugin: schema, view, accessor and encode emission, and the characters of the emitted text.
- The envelope, the in-process provider, benchmarks and build files, which would only add easy members.
