/**
  The DataMapper (src/detail/DataMapper.cpp, src/detail/DataMapper.hpp,
  src/detail/visitors.hpp): the runtime tables behind the FMI get and set calls.

  `reset` stores one DynamicData instance per (topic, direction) and walks it
  with the same leaf test as the SignalDistributor, binding a reader visitor
  to every typed member and, for FMU inputs, also a writer visitor.  Value
  reference `vr` of a type reads through reader `vr`; it writes through writer
  `vr - offset`, where the offset of a type is its number of output members.

  A visitor is modelled by the member it is bound to: the store entry, the
  member's position in that entry's traversal, and its kind.  The store maps
  each entry to the traversal of its instance, whose node values the writers
  update in place.
*/
module Mapper {
  import opened Wrappers
  import opened XTypes
  import opened Signals
  import opened Config

  /** `DataMapper::Direction`: Read for FMU outputs, Write for FMU inputs. */
  datatype Direction = Read | Write

  function DirectionOf(isInNotOut: bool): (d: Direction)
    ensures d == Write <==> isInNotOut
  {
    if isInNotOut then Write else Read
  }

  /** `StoreKey`: (topic name, direction). */
  datatype StoreKey = StoreKey(topic: string, dir: Direction)

  type Store = map<StoreKey, seq<Node>>

  /** A visitor, as the member it is bound to (`std::bind(..., node.data())`). */
  datatype Slot = Slot(key: StoreKey, leaf: nat, kind: TypeKind)

  /** The registration switch of `add` as the source writes it, and with the UINT_32 case it misses. */
  datatype Registration = AsWritten | Corrected

  /** The FMI table a member of kind `k` gets a visitor in, if any: the nested switch of `add`,
      first on `resolve_type`, then on the kind. */
  function Registered(reg: Registration, k: TypeKind): (r: Option<FmiType>)
    ensures r.Some? ==> r.value == ResolveType(k) && r.value != Unknown
  {
    match ResolveType(k)
    case Real =>
      if k in {Float32Type, Float64Type, Int64Type, UInt64Type} || (reg == Corrected && k == UInt32Type)
      then Some(Real) else None
    case Integer =>
      if k in {Int8Type, UInt8Type, Int16Type, UInt16Type, Int32Type, UInt32Type, EnumerationType}
      then Some(Integer) else None
    case Boolean => if k == BooleanType then Some(Boolean) else None
    case String => if k in {StringType, Char8Type} then Some(String) else None
    case Unknown => None
  }

  /** The readers, writers and offset of one FMI type. */
  datatype Table = Table(readers: seq<Slot>, writers: seq<Slot>, offset: nat)

  /** The observable state of a DataMapper. */
  datatype MapperState = MapperState(reals: Table, integers: Table, booleans: Table, strings: Table, store: Store)
  {
    function TableOf(t: FmiType): Table {
      match t
      case Real => reals
      case Integer => integers
      case Boolean => booleans
      case String => strings
      case Unknown => Table([], [], 0)
    }

    function WithTable(t: FmiType, tb: Table): MapperState {
      match t
      case Real => this.(reals := tb)
      case Integer => this.(integers := tb)
      case Boolean => this.(booleans := tb)
      case String => this.(strings := tb)
      case Unknown => this
    }

    /** A visitor for `slot` in the table of `t`: always a reader, and a writer too for an input. */
    function Append(t: FmiType, slot: Slot, write: bool): MapperState {
      var tb := TableOf(t);
      WithTable(t, Table(tb.readers + [slot], if write then tb.writers + [slot] else tb.writers, tb.offset))
    }

    /** The offsets `reset` sets between the two passes: each type's reader count. */
    function WithOffsets(): MapperState {
      this.(reals := reals.(offset := |reals.readers|),
            integers := integers.(offset := |integers.readers|),
            booleans := booleans.(offset := |booleans.readers|),
            strings := strings.(offset := |strings.readers|))
    }
  }

  /** The state `clear` leaves: no visitors, no store entries, all offsets 0. */
  function Cleared(): MapperState {
    MapperState(Table([], [], 0), Table([], [], 0), Table([], [], 0), Table([], [], 0), map[])
  }

  /** How a call ends: normally, or by the `std::runtime_error`/`std::out_of_range` it throws. */
  datatype Status = Done | Thrown(message: string)

  datatype Step = Step(state: MapperState, status: Status)

  const OutOfRange := "vector::at: index out of range"

  function ExistingTopic(topic: string, dir: Direction): string {
    "Tried to create existing topic: " + topic + " for FMU " + (if dir == Write then "input" else "output")
  }

  // ---------------------------------------------------------------------------
  // reset and add as functions

  /** One call of the traversal callback in `add`. */
  function Register(reg: Registration, s: MapperState, key: StoreKey, i: nat, n: Node): MapperState {
    if !IsSignalLeaf(n.kind) then s
    else
      match Registered(reg, n.kind)
      case None => s
      case Some(t) => s.Append(t, Slot(key, i, n.kind), key.dir == Write)
  }

  /** The callback applied to every member of the stored instance, in traversal order. */
  function AddSlots(reg: Registration, s: MapperState, key: StoreKey, nodes: seq<Node>): MapperState
    decreases |nodes|
  {
    if |nodes| == 0 then s
    else Register(reg, AddSlots(reg, s, key, nodes[..|nodes| - 1]), key, |nodes| - 1, nodes[|nodes| - 1])
  }

  lemma AddSlotsStep(reg: Registration, s: MapperState, key: StoreKey, nodes: seq<Node>, i: nat)
    requires i < |nodes|
    ensures AddSlots(reg, s, key, nodes[..i + 1])
         == Register(reg, AddSlots(reg, s, key, nodes[..i]), key, i, nodes[i])
  {
    assert nodes[..i + 1][..i] == nodes[..i];
  }

  /** `add`: a (topic, direction) already stored throws before anything changes; otherwise the
      instance is stored and its members registered. */
  function AddSpec(reg: Registration, s: MapperState, topic: string, nodes: seq<Node>, dir: Direction): Step {
    var key := StoreKey(topic, dir);
    if key in s.store then Step(s, Thrown(ExistingTopic(topic, dir)))
    else Step(AddSlots(reg, s.(store := s.store[key := nodes]), key, nodes), Done)
  }

  /** The element loop of `reset`'s `mapper_iterator`: stops at the first element that throws,
      keeping what the earlier elements registered. */
  function EntriesSpec(reg: Registration, s: MapperState, entries: seq<MappingEntry>, dir: Direction,
                       idl: IdlContext): Step
    decreases |entries|
  {
    if |entries| == 0 then Step(s, Done)
    else
      var pre := EntriesSpec(reg, s, entries[..|entries| - 1], dir, idl);
      if pre.status.Thrown? then pre
      else
        match EntryTopic(entries[|entries| - 1], idl)
        case Err(m) => Step(pre.state, Thrown(m))
        case Ok(t) => AddSpec(reg, pre.state, t.name, t.nodes, dir)
  }

  /** `reset`: clear, then every `fmu_out` element (Read), then the offsets, then every `fmu_in` element (Write). */
  function ResetSpec(reg: Registration, doc: Option<MappingDoc>, idl: IdlContext): Step {
    if doc.None? then Step(Cleared(), Thrown(DdsfmuNotFound))
    else
      var outs := EntriesSpec(reg, Cleared(), doc.value.fmuOut, Read, idl);
      if outs.status.Thrown? then outs
      else EntriesSpec(reg, outs.state.WithOffsets(), doc.value.fmuIn, Write, idl)
  }

  // ---------------------------------------------------------------------------
  // The visitors

  /** A value handed to or returned by the FMI get or set call of one of the four FMI types. */
  datatype Value = RealValue(r: real) | IntegerValue(i: int) | BooleanValue(b: bool) | StringValue(s: string)

  predicate HasType(v: Value, t: FmiType) {
    match t
    case Real => v.RealValue?
    case Integer => v.IntegerValue? && I32.Fits(v.i)
    case Boolean => v.BooleanValue?
    case String => v.StringValue?
    case Unknown => false
  }

  /** `reader_visitor<OutType, InType>`: the stored value, `static_cast` to the FMI type; a char
      becomes the one-character string. */
  function ReadValue(t: FmiType, d: Datum): (v: Value)
    requires t != Unknown
    ensures HasType(v, t)
  {
    match t
    case Real => RealValue(match d case RealVal(r) => r case IntVal(i) => i as real case _ => 0.0)
    case Integer => IntegerValue(match d case IntVal(i) => Cast(i, I32) case _ => 0)
    case Boolean => BooleanValue(match d case BoolVal(b) => b case _ => false)
    case String => StringValue(match d case StrVal(s) => s case CharVal(c) => [c] case _ => "")
  }

  /** `static_cast` of a double to an integer type: truncation towards zero. */
  function Truncate(r: real): int {
    if r >= 0.0 then r.Floor else -((-r).Floor)
  }

  /** `writer_visitor<InType, OutType>`: the FMI value `static_cast` to the member's kind; a string
      written to a char member stores its first character, the terminating '\0' when it is empty. */
  function WriteDatum(kind: TypeKind, v: Value): Datum {
    match v
    case RealValue(r) =>
      if kind == Float32Type || kind == Float64Type then RealVal(r)
      else IntVal(Cast(Truncate(r), WidthOf(kind).GetOr(I64)))
    case IntegerValue(i) => IntVal(Cast(i, WidthOf(kind).GetOr(I32)))
    case BooleanValue(b) => BoolVal(b)
    case StringValue(s) => if kind == Char8Type then CharVal(if |s| > 0 then s[0] else '\0') else StrVal(s)
  }

  /** The value of the member a visitor is bound to. */
  function Member(store: Store, slot: Slot): Datum {
    if slot.key in store && slot.leaf < |store[slot.key]| then store[slot.key][slot.leaf].data else NoVal
  }

  /** The store after a writer visitor has run: only the bound member's value changes. */
  function WriteMember(store: Store, slot: Slot, v: Value): Store {
    if slot.key in store && slot.leaf < |store[slot.key]| then
      var nodes := store[slot.key];
      store[slot.key := nodes[slot.leaf := nodes[slot.leaf].(data := WriteDatum(slot.kind, v))]]
    else store
  }

  /** `get_*(vr)`: reader `vr`, or `std::out_of_range`. */
  function Get(s: MapperState, t: FmiType, vr: int): Result<Value, string>
    requires t != Unknown
  {
    var tb := s.TableOf(t);
    if 0 <= vr < |tb.readers| then Ok(ReadValue(t, Member(s.store, tb.readers[vr]))) else Err(OutOfRange)
  }

  /** `set_*(vr, v)`: writer `vr - offset`, or `std::out_of_range`. */
  function Set(s: MapperState, t: FmiType, vr: int, v: Value): Result<MapperState, string>
    requires t != Unknown
  {
    var tb := s.TableOf(t);
    var j := vr - tb.offset;
    if 0 <= j < |tb.writers| then Ok(s.(store := WriteMember(s.store, tb.writers[j], v))) else Err(OutOfRange)
  }

  // ---------------------------------------------------------------------------
  // The DataMapper object

  class DataMapper {
    var intWriter: seq<Slot>
    var intReader: seq<Slot>
    var realWriter: seq<Slot>
    var realReader: seq<Slot>
    var boolWriter: seq<Slot>
    var boolReader: seq<Slot>
    var stringWriter: seq<Slot>
    var stringReader: seq<Slot>
    var intOffset: nat
    var realOffset: nat
    var boolOffset: nat
    var stringOffset: nat
    var dataStore: Store

    function State(): MapperState
      reads this
    {
      MapperState(Table(realReader, realWriter, realOffset), Table(intReader, intWriter, intOffset),
                  Table(boolReader, boolWriter, boolOffset), Table(stringReader, stringWriter, stringOffset),
                  dataStore)
    }

    constructor ()
      ensures State() == Cleared()
    {
      intWriter, intReader, realWriter, realReader := [], [], [], [];
      boolWriter, boolReader, stringWriter, stringReader := [], [], [], [];
      intOffset, realOffset, boolOffset, stringOffset := 0, 0, 0, 0;
      dataStore := map[];
    }

    /** `clear`. */
    method Clear()
      modifies this
      ensures State() == Cleared()
    {
      intWriter, intReader, realWriter, realReader := [], [], [], [];
      boolWriter, boolReader, stringWriter, stringReader := [], [], [], [];
      dataStore := map[];
      intOffset, realOffset, boolOffset, stringOffset := 0, 0, 0, 0;
    }

    /** `reset`, with the IDL context and the mapping document already loaded. */
    method Reset(doc: Option<MappingDoc>, idl: IdlContext) returns (status: Status)
      modifies this
      ensures Step(State(), status) == ResetSpec(AsWritten, doc, idl)
    {
      Clear();
      if doc.None? {
        return Thrown(DdsfmuNotFound);
      }
      status := MapEntries(doc.value.fmuOut, Read, idl);
      if status.Thrown? {
        return;
      }
      SetOffsets();
      status := MapEntries(doc.value.fmuIn, Write, idl);
    }

    /** Between the two passes of `reset`: each type's offset becomes its number of readers. */
    method SetOffsets()
      modifies this
      ensures State() == old(State()).WithOffsets()
    {
      intOffset := |intReader|;
      realOffset := |realReader|;
      boolOffset := |boolReader|;
      stringOffset := |stringReader|;
    }

    /** The `mapper_iterator` lambda of `reset`: the elements of one direction, in document order. */
    method MapEntries(entries: seq<MappingEntry>, dir: Direction, idl: IdlContext) returns (status: Status)
      modifies this
      ensures Step(State(), status) == EntriesSpec(AsWritten, old(State()), entries, dir, idl)
    {
      ghost var s0 := State();
      var i := 0;
      status := Done;
      while i < |entries| && status.Done?
        invariant 0 <= i <= |entries|
        invariant EntriesSpec(AsWritten, s0, entries[..i], dir, idl) == Step(State(), status)
      {
        var e := entries[i];
        EntriesSpecStep(AsWritten, s0, entries, i, dir, idl);
        if e.topic.None? || e.typeName.None? {
          status := Thrown(IncompleteUserData);
        } else if e.typeName.value !in idl {
          status := Thrown(UnknownIdlType);
        } else {
          status := Add(e.topic.value, idl[e.typeName.value], dir);
        }
        i := i + 1;
      }
      if status.Thrown? {
        EntriesStopAtThrow(AsWritten, s0, entries, i, dir, idl);
      } else {
        assert entries[..i] == entries;
      }
    }

    /** Appends a visitor for `slot` to the reader table of `t` and, for an input, to its writer table. */
    method Bind(t: FmiType, slot: Slot, write: bool)
      modifies this
      ensures State() == old(State()).Append(t, slot, write)
    {
      match t {
        case Real =>
          if write { realWriter := realWriter + [slot]; }
          realReader := realReader + [slot];
        case Integer =>
          if write { intWriter := intWriter + [slot]; }
          intReader := intReader + [slot];
        case Boolean =>
          if write { boolWriter := boolWriter + [slot]; }
          boolReader := boolReader + [slot];
        case String =>
          if write { stringWriter := stringWriter + [slot]; }
          stringReader := stringReader + [slot];
        case Unknown =>
      }
    }

    /** `add`: store a fresh instance for (topic, direction) and bind visitors to its members. */
    method Add(topicName: string, nodes: seq<Node>, dir: Direction) returns (status: Status)
      modifies this
      ensures Step(State(), status) == AddSpec(AsWritten, old(State()), topicName, nodes, dir)
    {
      var key := StoreKey(topicName, dir);
      if key in dataStore {
        return Thrown(ExistingTopic(topicName, dir));
      }
      dataStore := dataStore[key := nodes];
      ghost var stored := State();
      var i := 0;
      while i < |nodes|
        invariant 0 <= i <= |nodes|
        invariant State() == AddSlots(AsWritten, stored, key, nodes[..i])
      {
        ghost var before := State();
        Callback(key, i, nodes[i]);
        AddSlotsStep(AsWritten, stored, key, nodes, i);
        assert State() == Register(AsWritten, before, key, i, nodes[i]);
        i := i + 1;
      }
      assert nodes[..|nodes|] == nodes;
      status := Done;
    }

    /** The traversal callback of `add` for member `i` of the instance stored under `key`. */
    method Callback(key: StoreKey, i: nat, node: Node)
      modifies this
      ensures State() == Register(AsWritten, old(State()), key, i, node)
    {
      if IsSignalLeaf(node.kind) {
        var slot := Slot(key, i, node.kind);
        var write := key.dir == Write;
        match ResolveType(node.kind) {
          case Real =>
            if node.kind in {Float32Type, Float64Type, Int64Type, UInt64Type} {
              Bind(Real, slot, write);
            }
          case Integer =>
            if node.kind in {Int8Type, UInt8Type, Int16Type, UInt16Type, Int32Type, UInt32Type, EnumerationType} {
              Bind(Integer, slot, write);
            }
          case Boolean =>
            if node.kind == BooleanType {
              Bind(Boolean, slot, write);
            }
          case String =>
            if node.kind == StringType || node.kind == Char8Type {
              Bind(String, slot, write);
            }
          case Unknown =>
        }
      }
    }

    /** `get_double`. */
    method GetDouble(valueRef: int) returns (r: Result<real, string>)
      ensures r.Ok? <==> Get(State(), Real, valueRef).Ok?
      ensures r.Ok? ==> Get(State(), Real, valueRef).value == RealValue(r.value)
    {
      if 0 <= valueRef < |realReader| {
        r := Ok(ReadValue(Real, Member(dataStore, realReader[valueRef])).r);
      } else {
        r := Err(OutOfRange);
      }
    }

    /** `get_int`. */
    method GetInt(valueRef: int) returns (r: Result<int, string>)
      ensures r.Ok? <==> Get(State(), Integer, valueRef).Ok?
      ensures r.Ok? ==> Get(State(), Integer, valueRef).value == IntegerValue(r.value)
    {
      if 0 <= valueRef < |intReader| {
        r := Ok(ReadValue(Integer, Member(dataStore, intReader[valueRef])).i);
      } else {
        r := Err(OutOfRange);
      }
    }

    /** `get_bool`. */
    method GetBool(valueRef: int) returns (r: Result<bool, string>)
      ensures r.Ok? <==> Get(State(), Boolean, valueRef).Ok?
      ensures r.Ok? ==> Get(State(), Boolean, valueRef).value == BooleanValue(r.value)
    {
      if 0 <= valueRef < |boolReader| {
        r := Ok(ReadValue(Boolean, Member(dataStore, boolReader[valueRef])).b);
      } else {
        r := Err(OutOfRange);
      }
    }

    /** `get_string`. */
    method GetString(valueRef: int) returns (r: Result<string, string>)
      ensures r.Ok? <==> Get(State(), String, valueRef).Ok?
      ensures r.Ok? ==> Get(State(), String, valueRef).value == StringValue(r.value)
    {
      if 0 <= valueRef < |stringReader| {
        r := Ok(ReadValue(String, Member(dataStore, stringReader[valueRef])).s);
      } else {
        r := Err(OutOfRange);
      }
    }

    /** `set_double`. */
    method SetDouble(valueRef: int, value: real) returns (status: Status)
      modifies this
      ensures status.Done? <==> Set(old(State()), Real, valueRef, RealValue(value)).Ok?
      ensures State() == Set(old(State()), Real, valueRef, RealValue(value)).GetOr(old(State()))
    {
      var j := valueRef - realOffset;
      if 0 <= j < |realWriter| {
        dataStore := WriteMember(dataStore, realWriter[j], RealValue(value));
        status := Done;
      } else {
        status := Thrown(OutOfRange);
      }
    }

    /** `set_int`. */
    method SetInt(valueRef: int, value: int) returns (status: Status)
      modifies this
      ensures status.Done? <==> Set(old(State()), Integer, valueRef, IntegerValue(value)).Ok?
      ensures State() == Set(old(State()), Integer, valueRef, IntegerValue(value)).GetOr(old(State()))
    {
      var j := valueRef - intOffset;
      if 0 <= j < |intWriter| {
        dataStore := WriteMember(dataStore, intWriter[j], IntegerValue(value));
        status := Done;
      } else {
        status := Thrown(OutOfRange);
      }
    }

    /** `set_bool`. */
    method SetBool(valueRef: int, value: bool) returns (status: Status)
      modifies this
      ensures status.Done? <==> Set(old(State()), Boolean, valueRef, BooleanValue(value)).Ok?
      ensures State() == Set(old(State()), Boolean, valueRef, BooleanValue(value)).GetOr(old(State()))
    {
      var j := valueRef - boolOffset;
      if 0 <= j < |boolWriter| {
        dataStore := WriteMember(dataStore, boolWriter[j], BooleanValue(value));
        status := Done;
      } else {
        status := Thrown(OutOfRange);
      }
    }

    /** `set_string`. */
    method SetString(valueRef: int, value: string) returns (status: Status)
      modifies this
      ensures status.Done? <==> Set(old(State()), String, valueRef, StringValue(value)).Ok?
      ensures State() == Set(old(State()), String, valueRef, StringValue(value)).GetOr(old(State()))
    {
      var j := valueRef - stringOffset;
      if 0 <= j < |stringWriter| {
        dataStore := WriteMember(dataStore, stringWriter[j], StringValue(value));
        status := Done;
      } else {
        status := Thrown(OutOfRange);
      }
    }

    /** `data_ref`: the stored instance of (topic, direction), or `std::out_of_range`. */
    function DataRef(topic: string, dir: Direction): (r: Result<seq<Node>, string>)
      reads this
      ensures r.Ok? <==> StoreKey(topic, dir) in dataStore
      ensures r.Ok? ==> r.value == dataStore[StoreKey(topic, dir)]
    {
      if StoreKey(topic, dir) in dataStore then Ok(dataStore[StoreKey(topic, dir)]) else Err(OutOfRange)
    }

  }

  // ---------------------------------------------------------------------------
  // Lemmas

  /** One more element: the earlier ones' outcome, then this one's checks and `add`. */
  lemma EntriesSpecStep(reg: Registration, s: MapperState, entries: seq<MappingEntry>, i: nat,
                        dir: Direction, idl: IdlContext)
    requires i < |entries|
    requires EntriesSpec(reg, s, entries[..i], dir, idl).status.Done?
    ensures EntriesSpec(reg, s, entries[..i + 1], dir, idl)
         == match EntryTopic(entries[i], idl)
            case Err(m) => Step(EntriesSpec(reg, s, entries[..i], dir, idl).state, Thrown(m))
            case Ok(t) => AddSpec(reg, EntriesSpec(reg, s, entries[..i], dir, idl).state, t.name, t.nodes, dir)
  {
    assert entries[..i + 1][..i] == entries[..i];
  }

  /** Once an element throws, the elements after it are never looked at. */
  lemma {:induction false} EntriesStopAtThrow(reg: Registration, s: MapperState, entries: seq<MappingEntry>, m: nat,
                                              dir: Direction, idl: IdlContext)
    requires m <= |entries|
    requires EntriesSpec(reg, s, entries[..m], dir, idl).status.Thrown?
    ensures EntriesSpec(reg, s, entries, dir, idl) == EntriesSpec(reg, s, entries[..m], dir, idl)
    decreases |entries| - m
  {
    if m < |entries| {
      var n := |entries| - 1;
      assert entries[..n][..m] == entries[..m];
      EntriesStopAtThrow(reg, s, entries[..n], m, dir, idl);
    } else {
      assert entries[..m] == entries;
    }
  }

  /** Registration with the UINT_32 case added gives every member exactly the FMI type
      `resolve_type` gives it, and no other member a visitor. */
  lemma CorrectedRegistrationAgrees(k: TypeKind)
    ensures Registered(Corrected, k).Some? <==> ResolveType(k) != Unknown
    ensures Registered(Corrected, k).Some? ==> Registered(Corrected, k).value == ResolveType(k)
  {
  }

  /** The registration as written differs from it for UINT_32 alone. */
  lemma AsWrittenDiffersOnlyForUInt32(k: TypeKind)
    ensures Registered(AsWritten, k) == Registered(Corrected, k) <==> k != UInt32Type
  {
  }

  // ---------------------------------------------------------------------------
  // The tables after reset

  function SlotOf(r: SignalRef): Slot {
    Slot(StoreKey(r.topic, DirectionOf(r.isInNotOut)), r.leaf, r.node.kind)
  }

  /** The visitors bound to the members `refs`, in order. */
  function Slots(refs: seq<SignalRef>): (r: seq<Slot>)
    ensures |r| == |refs|
  {
    seq(|refs|, p requires 0 <= p < |refs| => SlotOf(refs[p]))
  }

  lemma SlotsAppend(a: seq<SignalRef>, b: seq<SignalRef>)
    ensures Slots(a + b) == Slots(a) + Slots(b)
  {
    var l, r := Slots(a + b), Slots(a) + Slots(b);
    forall p | 0 <= p < |l| ensures l[p] == r[p] {
      if p < |a| { assert (a + b)[p] == a[p]; } else { assert (a + b)[p] == b[p - |a|]; }
    }
  }

  /** A table after `slots` were registered: all as readers, and as writers too when writing. */
  function Grown(tb: Table, slots: seq<Slot>, write: bool): Table {
    Table(tb.readers + slots, if write then tb.writers + slots else tb.writers, tb.offset)
  }

  lemma GrownTwice(tb: Table, a: seq<Slot>, b: seq<Slot>, write: bool)
    ensures Grown(Grown(tb, a, write), b, write) == Grown(tb, a + b, write)
  {
    assert tb.readers + a + b == tb.readers + (a + b);
    assert tb.writers + a + b == tb.writers + (a + b);
  }

  lemma WithTableOf(s: MapperState, t: FmiType, tb: Table, u: FmiType)
    requires t != Unknown
    ensures s.WithTable(t, tb).TableOf(u) == (if u == t then tb else s.TableOf(u))
    ensures s.WithTable(t, tb).store == s.store
  {
  }

  /** The members of `refs` that the registration switch `reg` gives a visitor, in order. */
  function Bindable(reg: Registration, refs: seq<SignalRef>): seq<SignalRef>
    decreases |refs|
  {
    if |refs| == 0 then []
    else
      var last := refs[|refs| - 1];
      Bindable(reg, refs[..|refs| - 1]) + (if Registered(reg, last.node.kind).Some? then [last] else [])
  }

  lemma {:induction false} BindableAppend(reg: Registration, a: seq<SignalRef>, b: seq<SignalRef>)
    ensures Bindable(reg, a + b) == Bindable(reg, a) + Bindable(reg, b)
    decreases |b|
  {
    if |b| == 0 {
      assert a + b == a;
    } else {
      var n := |b| - 1;
      assert (a + b)[..|a + b| - 1] == a + b[..n];
      assert (a + b)[|a + b| - 1] == b[n];
      BindableAppend(reg, a, b[..n]);
      var x := if Registered(reg, b[n].node.kind).Some? then [b[n]] else [];
      assert Bindable(reg, a) + Bindable(reg, b[..n]) + x == Bindable(reg, a) + (Bindable(reg, b[..n]) + x);
    }
  }

  /** A member is kept exactly when it is among `refs` and the switch registers its kind. */
  lemma {:induction false} BindableMembers(reg: Registration, refs: seq<SignalRef>, x: SignalRef)
    ensures x in Bindable(reg, refs) <==> x in refs && Registered(reg, x.node.kind).Some?
    decreases |refs|
  {
    if |refs| > 0 {
      var n := |refs| - 1;
      BindableMembers(reg, refs[..n], x);
      assert refs == refs[..n] + [refs[n]];
    }
  }

  /** The switch `reg` registers a member of one TypeKind in the table its resolved type names;
      the corrected switch every resolved member, the switch as written every one but UINT_32. */
  lemma RegisteredResolved(reg: Registration, k: TypeKind)
    requires ResolveType(k) != Unknown && (reg == Corrected || ResolveType(k) != Real)
    ensures Registered(reg, k) == Some(ResolveType(k))
  {
    CorrectedRegistrationAgrees(k);
    AsWrittenDiffersOnlyForUInt32(k);
  }

  /** One member, filtered by the switch: kept exactly when it is a signal leaf registered in `t`. */
  lemma BindableOwn(reg: Registration, topic: string, isInNotOut: bool, n: Node, i: nat, t: FmiType)
    requires t != Unknown
    ensures Bindable(reg, Own(topic, isInNotOut, n, i, t))
         == if IsSignalLeaf(n.kind) && Registered(reg, n.kind) == Some(t) then [SignalRef(topic, isInNotOut, i, n)] else []
  {
    var own := Own(topic, isInNotOut, n, i, t);
    if own != [] {
      assert own[..0] == [];
    }
  }

  /** As long as UINT_32 is not in question, the switch keeps every member of type `t` of a topic. */
  lemma {:induction false} BindableTopicSignals(reg: Registration, topic: string, nodes: seq<Node>, isInNotOut: bool,
                                                t: FmiType)
    requires t != Unknown && (reg == Corrected || t != Real)
    ensures Bindable(reg, TopicSignals(topic, nodes, isInNotOut, t)) == TopicSignals(topic, nodes, isInNotOut, t)
    decreases |nodes|
  {
    if |nodes| > 0 {
      var i := |nodes| - 1;
      BindableTopicSignals(reg, topic, nodes[..i], isInNotOut, t);
      TopicSignalsStep(topic, nodes, isInNotOut, t);
      var own := Own(topic, isInNotOut, nodes[i], i, t);
      BindableAppend(reg, TopicSignals(topic, nodes[..i], isInNotOut, t), own);
      BindableOwn(reg, topic, isInNotOut, nodes[i], i, t);
      if own != [] {
        RegisteredResolved(reg, nodes[i].kind);
      }
    }
  }

  lemma {:induction false} BindableAllSignals(reg: Registration, topics: seq<Topic>, isInNotOut: bool, t: FmiType)
    requires t != Unknown && (reg == Corrected || t != Real)
    ensures Bindable(reg, AllSignals(topics, isInNotOut, t)) == AllSignals(topics, isInNotOut, t)
    decreases |topics|
  {
    if |topics| > 0 {
      var n := |topics| - 1;
      BindableAllSignals(reg, topics[..n], isInNotOut, t);
      BindableTopicSignals(reg, topics[n].name, topics[n].nodes, isInNotOut, t);
      BindableAppend(reg, AllSignals(topics[..n], isInNotOut, t), TopicSignals(topics[n].name, topics[n].nodes, isInNotOut, t));
    }
  }

  /** One callback adds, to the table of `t`, the visitor of the member when the switch registers it there. */
  lemma RegisterTable(reg: Registration, s: MapperState, key: StoreKey, i: nat, n: Node, t: FmiType)
    requires t != Unknown
    ensures Register(reg, s, key, i, n).TableOf(t)
         == Grown(s.TableOf(t), Slots(Bindable(reg, Own(key.topic, key.dir == Write, n, i, t))), key.dir == Write)
    ensures Register(reg, s, key, i, n).store == s.store
  {
    BindableOwn(reg, key.topic, key.dir == Write, n, i, t);
    var mine := Bindable(reg, Own(key.topic, key.dir == Write, n, i, t));
    if mine != [] {
      assert Slots(mine) == [Slot(key, i, n.kind)];
      WithTableOf(s, t, Grown(s.TableOf(t), [Slot(key, i, n.kind)], key.dir == Write), t);
    } else {
      assert Slots(mine) == [];
      assert s.TableOf(t).readers + [] == s.TableOf(t).readers;
      assert s.TableOf(t).writers + [] == s.TableOf(t).writers;
      if IsSignalLeaf(n.kind) && Registered(reg, n.kind).Some? {
        var u := Registered(reg, n.kind).value;
        WithTableOf(s, u, Grown(s.TableOf(u), [Slot(key, i, n.kind)], key.dir == Write), t);
      }
    }
  }

  /** `add`'s traversal adds to the table of `t` the visitors of the instance's members the switch
      registers there, in traversal order; the store is left alone. */
  lemma {:induction false} AddSlotsTable(reg: Registration, s: MapperState, key: StoreKey, nodes: seq<Node>, t: FmiType)
    requires t != Unknown
    ensures AddSlots(reg, s, key, nodes).TableOf(t)
         == Grown(s.TableOf(t), Slots(Bindable(reg, TopicSignals(key.topic, nodes, key.dir == Write, t))), key.dir == Write)
    ensures AddSlots(reg, s, key, nodes).store == s.store
    decreases |nodes|
  {
    if |nodes| > 0 {
      var i := |nodes| - 1;
      var pre := TopicSignals(key.topic, nodes[..i], key.dir == Write, t);
      var own := Own(key.topic, key.dir == Write, nodes[i], i, t);
      AddSlotsTable(reg, s, key, nodes[..i], t);
      RegisterTable(reg, AddSlots(reg, s, key, nodes[..i]), key, i, nodes[i], t);
      TopicSignalsStep(key.topic, nodes, key.dir == Write, t);
      BindableAppend(reg, pre, own);
      SlotsAppend(Bindable(reg, pre), Bindable(reg, own));
      GrownTwice(s.TableOf(t), Slots(Bindable(reg, pre)), Slots(Bindable(reg, own)), key.dir == Write);
    } else {
      assert Slots([]) == [];
    }
  }

  /** `add` succeeds exactly for a (topic, direction) not yet stored, and then stores the instance
      and grows each table by that topic's members the switch registers there. */
  lemma AddSpecTable(reg: Registration, s: MapperState, topic: string, nodes: seq<Node>, dir: Direction, t: FmiType)
    requires t != Unknown
    ensures AddSpec(reg, s, topic, nodes, dir).status.Done? <==> StoreKey(topic, dir) !in s.store
    ensures AddSpec(reg, s, topic, nodes, dir).status.Done? ==>
      && AddSpec(reg, s, topic, nodes, dir).state.TableOf(t)
         == Grown(s.TableOf(t), Slots(Bindable(reg, TopicSignals(topic, nodes, dir == Write, t))), dir == Write)
      && AddSpec(reg, s, topic, nodes, dir).state.store == s.store[StoreKey(topic, dir) := nodes]
    ensures AddSpec(reg, s, topic, nodes, dir).status.Thrown? ==>
      AddSpec(reg, s, topic, nodes, dir) == Step(s, Thrown(ExistingTopic(topic, dir)))
  {
    var key := StoreKey(topic, dir);
    if key !in s.store {
      AddSlotsTable(reg, s.(store := s.store[key := nodes]), key, nodes, t);
    }
  }

  /** A direction's elements, all accepted, grow each table by the registered members of their topics. */
  lemma {:induction false} EntriesTable(reg: Registration, s: MapperState, entries: seq<MappingEntry>, dir: Direction,
                                        idl: IdlContext, t: FmiType)
    requires t != Unknown
    requires EntriesSpec(reg, s, entries, dir, idl).status.Done?
    ensures EntryTopics(entries, idl).Ok?
    ensures EntriesSpec(reg, s, entries, dir, idl).state.TableOf(t)
         == Grown(s.TableOf(t), Slots(Bindable(reg, AllSignals(EntryTopics(entries, idl).value, dir == Write, t))), dir == Write)
    decreases |entries|
  {
    if |entries| == 0 {
      assert Slots([]) == [];
    } else {
      var n := |entries| - 1;
      var pre := EntriesSpec(reg, s, entries[..n], dir, idl);
      assert pre.status.Done?;
      EntriesTable(reg, s, entries[..n], dir, idl, t);
      var topic := EntryTopic(entries[n], idl).value;
      AddSpecTable(reg, pre.state, topic.name, topic.nodes, dir, t);
      var ts := EntryTopics(entries[..n], idl).value;
      assert EntryTopics(entries, idl).value == ts + [topic];
      assert (ts + [topic])[..n] == ts;
      var a := AllSignals(ts, dir == Write, t);
      var b := TopicSignals(topic.name, topic.nodes, dir == Write, t);
      assert AllSignals(ts + [topic], dir == Write, t) == a + b;
      BindableAppend(reg, a, b);
      SlotsAppend(Bindable(reg, a), Bindable(reg, b));
      GrownTwice(s.TableOf(t), Slots(Bindable(reg, a)), Slots(Bindable(reg, b)), dir == Write);
    }
  }

  /** The topics `generate_xml` reads from the same document: outputs and inputs. */
  function MappingTopics(doc: MappingDoc, idl: IdlContext): Result<(seq<Topic>, seq<Topic>), string> {
    match EntryTopics(doc.fmuOut, idl)
    case Err(m) => Err(m)
    case Ok(outs) =>
      match EntryTopics(doc.fmuIn, idl)
      case Err(m) => Err(m)
      case Ok(ins) => Ok((outs, ins))
  }

  /** The store keys a direction's topics take. */
  function TopicKeys(ts: seq<Topic>, dir: Direction): set<StoreKey> {
    set k | 0 <= k < |ts| :: StoreKey(ts[k].name, dir)
  }

  /** No topic name comes twice. */
  predicate DistinctNames(ts: seq<Topic>) {
    forall i, j :: 0 <= i < j < |ts| ==> ts[i].name != ts[j].name
  }

  /** A direction's element loop ends normally exactly when every element names a topic and a known
      type, and no topic comes twice or is already stored for that direction; the store then also
      holds the keys of those topics. */
  lemma TopicKeysAppend(ts: seq<Topic>, t: Topic, dir: Direction)
    ensures TopicKeys(ts + [t], dir) == TopicKeys(ts, dir) + {StoreKey(t.name, dir)}
  {
    var l := ts + [t];
    forall x | x in TopicKeys(l, dir) ensures x in TopicKeys(ts, dir) + {StoreKey(t.name, dir)} {
      var k :| 0 <= k < |l| && x == StoreKey(l[k].name, dir);
      if k < |ts| {
        assert l[k] == ts[k];
      }
    }
    forall x | x in TopicKeys(ts, dir) ensures x in TopicKeys(l, dir) {
      var k :| 0 <= k < |ts| && x == StoreKey(ts[k].name, dir);
      assert l[k] == ts[k];
    }
    assert l[|ts|] == t;
  }

  lemma DistinctAppend(ts: seq<Topic>, t: Topic, dir: Direction)
    ensures DistinctNames(ts + [t]) <==> DistinctNames(ts) && StoreKey(t.name, dir) !in TopicKeys(ts, dir)
  {
    var l := ts + [t];
    assert forall k :: 0 <= k < |ts| ==> l[k] == ts[k];
    if DistinctNames(l) {
      forall k | 0 <= k < |ts| ensures StoreKey(ts[k].name, dir) != StoreKey(t.name, dir) {
        assert l[k].name != l[|ts|].name;
      }
    }
    if DistinctNames(ts) && StoreKey(t.name, dir) !in TopicKeys(ts, dir) {
      forall i, j | 0 <= i < j < |l| ensures l[i].name != l[j].name {
        if j == |ts| {
          assert StoreKey(ts[i].name, dir) in TopicKeys(ts, dir);
        }
      }
    }
  }

  /** `add` on a new key stores it and keeps the other keys. */
  lemma AddSpecKeys(reg: Registration, s: MapperState, topic: string, nodes: seq<Node>, dir: Direction)
    ensures AddSpec(reg, s, topic, nodes, dir).status.Done? <==> StoreKey(topic, dir) !in s.store
    ensures AddSpec(reg, s, topic, nodes, dir).status.Done? ==>
      AddSpec(reg, s, topic, nodes, dir).state.store.Keys == s.store.Keys + {StoreKey(topic, dir)}
  {
    AddSpecTable(reg, s, topic, nodes, dir, Real);
  }

  /** A direction's element loop ends normally exactly when every element names a topic and a known
      type, and no topic comes twice or is already stored for that direction; the store then also
      holds the keys of those topics. */
  lemma {:induction false} EntriesDone(reg: Registration, s: MapperState, entries: seq<MappingEntry>, dir: Direction, idl: IdlContext)
    ensures EntriesSpec(reg, s, entries, dir, idl).status.Done? <==>
      EntryTopics(entries, idl).Ok? && DistinctNames(EntryTopics(entries, idl).value) &&
      TopicKeys(EntryTopics(entries, idl).value, dir) !! s.store.Keys
    ensures EntriesSpec(reg, s, entries, dir, idl).status.Done? ==>
      EntriesSpec(reg, s, entries, dir, idl).state.store.Keys
      == s.store.Keys + TopicKeys(EntryTopics(entries, idl).value, dir)
    decreases |entries|
  {
    if |entries| > 0 {
      var n := |entries| - 1;
      EntriesDone(reg, s, entries[..n], dir, idl);
      var pre := EntriesSpec(reg, s, entries[..n], dir, idl);
      var r := EntryTopics(entries[..n], idl);
      var e := EntryTopic(entries[n], idl);
      if r.Ok? && e.Ok? {
        assert EntryTopics(entries, idl) == Ok(r.value + [e.value]);
        TopicKeysAppend(r.value, e.value, dir);
        DistinctAppend(r.value, e.value, dir);
        if pre.status.Done? {
          AddSpecKeys(reg, pre.state, e.value.name, e.value.nodes, dir);
        }
      } else if r.Err? {
        assert EntryTopics(entries, idl).Err?;
      }
    }
  }

  /** `reset` ends normally exactly when the document has its `<ddsfmu>` element, every element of
      both kinds names a topic and a known type, and no topic comes twice among the outputs or twice
      among the inputs; the same topic may be both an output and an input. */
  lemma ResetDone(reg: Registration, doc: Option<MappingDoc>, idl: IdlContext)
    ensures ResetSpec(reg, doc, idl).status.Done? <==>
      doc.Some? && MappingTopics(doc.value, idl).Ok? &&
      DistinctNames(MappingTopics(doc.value, idl).value.0) && DistinctNames(MappingTopics(doc.value, idl).value.1)
  {
    if doc.Some? {
      var outsStep := EntriesSpec(reg, Cleared(), doc.value.fmuOut, Read, idl);
      EntriesDone(reg, Cleared(), doc.value.fmuOut, Read, idl);
      if outsStep.status.Done? {
        var mid := outsStep.state.WithOffsets();
        EntriesDone(reg, mid, doc.value.fmuIn, Write, idl);
        var outs := EntryTopics(doc.value.fmuOut, idl).value;
        assert mid.store.Keys == TopicKeys(outs, Read);
        if EntryTopics(doc.value.fmuIn, idl).Ok? {
          var ins := EntryTopics(doc.value.fmuIn, idl).value;
          assert TopicKeys(ins, Write) !! TopicKeys(outs, Read);
        }
      }
    }
  }

  /** After a successful `reset`, per FMI type: the readers are bound to the type's members the
      switch registers, of the output topics and then of the input topics, in mapping-file and
      traversal order; the writers to those of the input topics; the offset is the number of
      registered output members. */
  lemma ResetTables(reg: Registration, doc: Option<MappingDoc>, idl: IdlContext, t: FmiType)
    requires t != Unknown
    requires ResetSpec(reg, doc, idl).status.Done?
    ensures doc.Some? && MappingTopics(doc.value, idl).Ok?
    ensures var (outs, ins) := MappingTopics(doc.value, idl).value;
      var tb := ResetSpec(reg, doc, idl).state.TableOf(t);
      && tb.readers == Slots(Bindable(reg, ProgramSignals(outs, ins, t)))
      && tb.writers == Slots(Bindable(reg, AllSignals(ins, true, t)))
      && tb.offset == |Bindable(reg, AllSignals(outs, false, t))|
  {
    var outsStep := EntriesSpec(reg, Cleared(), doc.value.fmuOut, Read, idl);
    assert outsStep.status.Done?;
    var mid := outsStep.state.WithOffsets();
    OutputsTable(reg, doc.value, idl, t);
    var outs := EntryTopics(doc.value.fmuOut, idl).value;
    var a := AllSignals(outs, false, t);
    assert EntriesSpec(reg, mid, doc.value.fmuIn, Write, idl) == ResetSpec(reg, doc, idl);
    EntriesTable(reg, mid, doc.value.fmuIn, Write, idl, t);
    var ins := EntryTopics(doc.value.fmuIn, idl).value;
    assert MappingTopics(doc.value, idl).value == (outs, ins);
    InputsGrown(reg, mid.TableOf(t), a, AllSignals(ins, true, t));
  }

  /** After the outputs and the offsets, a table holds one reader per registered output signal of its type. */
  lemma OutputsTable(reg: Registration, doc: MappingDoc, idl: IdlContext, t: FmiType)
    requires t != Unknown
    requires EntriesSpec(reg, Cleared(), doc.fmuOut, Read, idl).status.Done?
    ensures EntryTopics(doc.fmuOut, idl).Ok?
    ensures var a := Bindable(reg, AllSignals(EntryTopics(doc.fmuOut, idl).value, false, t));
      EntriesSpec(reg, Cleared(), doc.fmuOut, Read, idl).state.WithOffsets().TableOf(t) == Table(Slots(a), [], |a|)
  {
    var outsStep := EntriesSpec(reg, Cleared(), doc.fmuOut, Read, idl);
    EntriesTable(reg, Cleared(), doc.fmuOut, Read, idl, t);
    var a := Bindable(reg, AllSignals(EntryTopics(doc.fmuOut, idl).value, false, t));
    assert outsStep.state.TableOf(t) == Table(Slots(a), [], 0);
    WithOffsetsTable(outsStep.state, t);
  }

  /** Growing the outputs' table by the inputs' writers. */
  lemma InputsGrown(reg: Registration, tb: Table, a: seq<SignalRef>, b: seq<SignalRef>)
    requires tb == Table(Slots(Bindable(reg, a)), [], |Bindable(reg, a)|)
    ensures var g := Grown(tb, Slots(Bindable(reg, b)), true);
      g.readers == Slots(Bindable(reg, a + b)) && g.writers == Slots(Bindable(reg, b)) && g.offset == |Bindable(reg, a)|
  {
    BindableAppend(reg, a, b);
    SlotsAppend(Bindable(reg, a), Bindable(reg, b));
  }

  lemma WithOffsetsTable(s: MapperState, t: FmiType)
    ensures s.WithOffsets().TableOf(t) == if t == Unknown then s.TableOf(t) else s.TableOf(t).(offset := |s.TableOf(t).readers|)
  {
  }

  /** Per type, reader `offset + j` and writer `j` are the same visitor, and there are no other writers. */
  predicate Aligned(tb: Table) {
    && |tb.readers| == tb.offset + |tb.writers|
    && forall j :: 0 <= j < |tb.writers| ==> tb.readers[tb.offset + j] == tb.writers[j]
  }

  lemma ResetAligned(reg: Registration, doc: Option<MappingDoc>, idl: IdlContext, t: FmiType)
    requires t != Unknown
    requires ResetSpec(reg, doc, idl).status.Done?
    ensures Aligned(ResetSpec(reg, doc, idl).state.TableOf(t))
  {
    var tb := ResetSpec(reg, doc, idl).state.TableOf(t);
    ResetTables(reg, doc, idl, t);
    var (outs, ins) := MappingTopics(doc.value, idl).value;
    var a, b := Bindable(reg, AllSignals(outs, false, t)), Bindable(reg, AllSignals(ins, true, t));
    assert tb.readers == Slots(a + b) by {
      BindableAppend(reg, AllSignals(outs, false, t), AllSignals(ins, true, t));
    }
    SlotsAligned(tb, a, b);
  }

  /** A table of readers for `a + b`, writers for `b` and offset `|a|` is aligned. */
  lemma SlotsAligned(tb: Table, a: seq<SignalRef>, b: seq<SignalRef>)
    requires tb.readers == Slots(a + b) && tb.writers == Slots(b) && tb.offset == |a|
    ensures Aligned(tb)
  {
    SlotsAppend(a, b);
  }

  /** The key invariant of the two components: for every FMI type, value reference `vr` names the
      same member (topic, direction, traversal position) in the model description the distributor
      produces and in the DataMapper's reader table, and the same `vr` minus the offset in its writer
      table for an input. */
  lemma ValueReferencesAgree(reg: Registration, doc: Option<MappingDoc>, idl: IdlContext, t: FmiType)
    requires t != Unknown && (reg == Corrected || t != Real)
    requires ResetSpec(reg, doc, idl).status.Done?
    ensures doc.Some? && MappingTopics(doc.value, idl).Ok?
    ensures var (outs, ins) := MappingTopics(doc.value, idl).value;
      var entries := OfType(Distribute(outs, ins).mapping, t);
      var tb := ResetSpec(reg, doc, idl).state.TableOf(t);
      var refs := ProgramSignals(outs, ins, t);
      && |entries| == |tb.readers| == |refs| == tb.offset + |tb.writers|
      && (forall vr :: 0 <= vr < |refs| ==>
            entries[vr] == InfoOf(refs[vr], vr, t) && tb.readers[vr] == SlotOf(refs[vr]))
      && (forall vr :: tb.offset <= vr < |refs| ==> tb.writers[vr - tb.offset] == SlotOf(refs[vr]))
  {
    ResetTables(reg, doc, idl, t);
    ResetAligned(reg, doc, idl, t);
    var (outs, ins) := MappingTopics(doc.value, idl).value;
    assert Bindable(reg, ProgramSignals(outs, ins, t)) == ProgramSignals(outs, ins, t) by {
      BindableAllSignals(reg, outs, false, t);
      BindableAllSignals(reg, ins, true, t);
      BindableAppend(reg, AllSignals(outs, false, t), AllSignals(ins, true, t));
    }
    DistributeNumbersEachType(outs, ins, t);
  }

  // ---------------------------------------------------------------------------
  // Every visitor is bound to a member of its own kind

  predicate SlotBound(store: Store, slot: Slot, t: FmiType) {
    && slot.key in store && slot.leaf < |store[slot.key]|
    && store[slot.key][slot.leaf].kind == slot.kind
    && Registered(Corrected, slot.kind) == Some(t)
  }

  predicate SlotsBound(store: Store, slots: seq<Slot>, t: FmiType) {
    forall k :: 0 <= k < |slots| ==> SlotBound(store, slots[k], t)
  }

  predicate TableBound(store: Store, tb: Table, t: FmiType) {
    SlotsBound(store, tb.readers, t) && SlotsBound(store, tb.writers, t)
  }

  /** The DataMapper's invariant: each visitor of each table refers to a stored member of a kind
      registered in that table. */
  predicate Bound(s: MapperState) {
    forall t :: t != Unknown ==> TableBound(s.store, s.TableOf(t), t)
  }

  lemma SlotsBoundAppend(store: Store, a: seq<Slot>, b: seq<Slot>, t: FmiType)
    requires SlotsBound(store, a, t) && SlotsBound(store, b, t)
    ensures SlotsBound(store, a + b, t)
  {
    forall k | 0 <= k < |a + b| ensures SlotBound(store, (a + b)[k], t) {
      if k < |a| { assert (a + b)[k] == a[k]; } else { assert (a + b)[k] == b[k - |a|]; }
    }
  }

  /** What the switch as written registers, the corrected one registers in the same table. */
  lemma RegisteredAsCorrected(reg: Registration, k: TypeKind)
    ensures Registered(reg, k).Some? ==> Registered(Corrected, k) == Registered(reg, k)
  {
    AsWrittenDiffersOnlyForUInt32(k);
  }

  /** A callback on member `i` of a stored instance keeps the invariant. */
  lemma RegisterBound(reg: Registration, s: MapperState, key: StoreKey, i: nat, n: Node)
    requires Bound(s)
    requires key in s.store && i < |s.store[key]| && s.store[key][i] == n
    ensures Bound(Register(reg, s, key, i, n))
  {
    var s' := Register(reg, s, key, i, n);
    forall t | t != Unknown ensures TableBound(s'.store, s'.TableOf(t), t) {
      assert TableBound(s.store, s.TableOf(t), t);
      RegisterTableBound(reg, s, key, i, n, t);
    }
  }

  lemma RegisterTableBound(reg: Registration, s: MapperState, key: StoreKey, i: nat, n: Node, t: FmiType)
    requires t != Unknown && TableBound(s.store, s.TableOf(t), t)
    requires key in s.store && i < |s.store[key]| && s.store[key][i] == n
    ensures Register(reg, s, key, i, n).store == s.store
    ensures TableBound(s.store, Register(reg, s, key, i, n).TableOf(t), t)
  {
    RegisterTable(reg, s, key, i, n, t);
    BindableOwn(reg, key.topic, key.dir == Write, n, i, t);
    var own := Bindable(reg, Own(key.topic, key.dir == Write, n, i, t));
    var tb := s.TableOf(t);
    if own != [] {
      RegisteredAsCorrected(reg, n.kind);
      assert Slots(own) == [Slot(key, i, n.kind)];
      assert SlotsBound(s.store, Slots(own), t) by {
        assert SlotBound(s.store, Slot(key, i, n.kind), t);
      }
      SlotsBoundAppend(s.store, tb.readers, Slots(own), t);
      SlotsBoundAppend(s.store, tb.writers, Slots(own), t);
    } else {
      assert Slots(own) == [];
      assert tb.readers + [] == tb.readers;
      assert tb.writers + [] == tb.writers;
    }
  }

  /** `add`'s traversal over a prefix of the stored instance keeps the invariant. */
  lemma {:induction false} AddSlotsBound(reg: Registration, s: MapperState, key: StoreKey, nodes: seq<Node>)
    requires Bound(s)
    requires key in s.store && |nodes| <= |s.store[key]| && nodes == s.store[key][..|nodes|]
    ensures Bound(AddSlots(reg, s, key, nodes))
    decreases |nodes|
  {
    if |nodes| > 0 {
      var i := |nodes| - 1;
      assert nodes[..i] == s.store[key][..i];
      AddSlotsBound(reg, s, key, nodes[..i]);
      AddSlotsTable(reg, s, key, nodes[..i], Real);
      assert nodes[i] == s.store[key][i];
      RegisterBound(reg, AddSlots(reg, s, key, nodes[..i]), key, i, nodes[i]);
    }
  }

  lemma SlotsBoundStoreGrows(store: Store, slots: seq<Slot>, t: FmiType, key: StoreKey, nodes: seq<Node>)
    requires SlotsBound(store, slots, t) && key !in store
    ensures SlotsBound(store[key := nodes], slots, t)
  {
    forall k | 0 <= k < |slots| ensures SlotBound(store[key := nodes], slots[k], t) {
      assert SlotBound(store, slots[k], t);
    }
  }

  lemma AddSpecBound(reg: Registration, s: MapperState, topic: string, nodes: seq<Node>, dir: Direction)
    requires Bound(s)
    ensures Bound(AddSpec(reg, s, topic, nodes, dir).state)
  {
    var key := StoreKey(topic, dir);
    if key !in s.store {
      var s1 := s.(store := s.store[key := nodes]);
      forall t | t != Unknown ensures TableBound(s1.store, s1.TableOf(t), t) {
        assert TableBound(s.store, s.TableOf(t), t);
        SlotsBoundStoreGrows(s.store, s.TableOf(t).readers, t, key, nodes);
        SlotsBoundStoreGrows(s.store, s.TableOf(t).writers, t, key, nodes);
      }
      assert nodes == s1.store[key][..|nodes|];
      AddSlotsBound(reg, s1, key, nodes);
    }
  }

  lemma {:induction false} EntriesBound(reg: Registration, s: MapperState, entries: seq<MappingEntry>, dir: Direction, idl: IdlContext)
    requires Bound(s)
    ensures Bound(EntriesSpec(reg, s, entries, dir, idl).state)
    decreases |entries|
  {
    if |entries| > 0 {
      var n := |entries| - 1;
      EntriesBound(reg, s, entries[..n], dir, idl);
      var pre := EntriesSpec(reg, s, entries[..n], dir, idl);
      if pre.status.Done? && EntryTopic(entries[n], idl).Ok? {
        var topic := EntryTopic(entries[n], idl).value;
        AddSpecBound(reg, pre.state, topic.name, topic.nodes, dir);
      }
    }
  }

  lemma WithOffsetsBound(s: MapperState)
    requires Bound(s)
    ensures Bound(s.WithOffsets())
  {
    forall t | t != Unknown ensures TableBound(s.WithOffsets().store, s.WithOffsets().TableOf(t), t) {
      assert TableBound(s.store, s.TableOf(t), t);
    }
  }

  /** `reset`, even one that throws part-way, leaves every visitor bound to a stored member of its kind. */
  lemma ResetBound(reg: Registration, doc: Option<MappingDoc>, idl: IdlContext)
    ensures Bound(ResetSpec(reg, doc, idl).state)
  {
    var c := Cleared();
    forall t | t != Unknown ensures TableBound(c.store, c.TableOf(t), t) { }
    if doc.Some? {
      EntriesBound(reg, c, doc.value.fmuOut, Read, idl);
      var outs := EntriesSpec(reg, c, doc.value.fmuOut, Read, idl);
      if outs.status.Done? {
        WithOffsetsBound(outs.state);
        EntriesBound(reg, outs.state.WithOffsets(), doc.value.fmuIn, Write, idl);
      }
    }
  }

  lemma SlotsBoundAfterWrite(store: Store, slots: seq<Slot>, t: FmiType, w: Slot, v: Value)
    requires SlotsBound(store, slots, t)
    ensures SlotsBound(WriteMember(store, w, v), slots, t)
  {
    forall k | 0 <= k < |slots| ensures SlotBound(WriteMember(store, w, v), slots[k], t) {
      assert SlotBound(store, slots[k], t);
    }
  }

  /** A write through a visitor keeps the invariant: it changes a value, never a kind or an entry. */
  lemma StoreWriteBound(s: MapperState, w: Slot, v: Value)
    requires Bound(s)
    ensures Bound(s.(store := WriteMember(s.store, w, v)))
  {
    var s' := s.(store := WriteMember(s.store, w, v));
    forall u | u != Unknown ensures TableBound(s'.store, s'.TableOf(u), u) {
      assert s'.TableOf(u) == s.TableOf(u);
      assert TableBound(s.store, s.TableOf(u), u);
      SlotsBoundAfterWrite(s.store, s.TableOf(u).readers, u, w, v);
      SlotsBoundAfterWrite(s.store, s.TableOf(u).writers, u, w, v);
    }
  }

  /** A `set_*` keeps the invariant. */
  lemma SetBound(s: MapperState, t: FmiType, vr: int, v: Value)
    requires t != Unknown && Bound(s)
    ensures Set(s, t, vr, v).Ok? ==> Bound(Set(s, t, vr, v).value)
  {
    var tb := s.TableOf(t);
    if 0 <= vr - tb.offset < |tb.writers| {
      var w := tb.writers[vr - tb.offset];
      assert Bound(s.(store := WriteMember(s.store, w, v))) by { StoreWriteBound(s, w, v); }
    }
  }

  // ---------------------------------------------------------------------------
  // Get and set

  /** A `set_*` on the value reference of an output (below the offset) throws; so does any
      value reference past the inputs. */
  lemma SetOnlyInputs(s: MapperState, t: FmiType, vr: int, v: Value)
    requires t != Unknown && Aligned(s.TableOf(t))
    ensures Set(s, t, vr, v).Ok? <==> s.TableOf(t).offset <= vr < |s.TableOf(t).readers|
  {
  }

  /** A `set_*` writes only the member its writer is bound to: every other member, every table and
      every other store entry stay as they were. */
  lemma SetChangesOnlyTarget(s: MapperState, t: FmiType, vr: int, v: Value, key: StoreKey, i: nat)
    requires t != Unknown && Set(s, t, vr, v).Ok?
    ensures var s' := Set(s, t, vr, v).value;
      var w := s.TableOf(t).writers[vr - s.TableOf(t).offset];
      && s'.reals == s.reals && s'.integers == s.integers && s'.booleans == s.booleans && s'.strings == s.strings
      && s'.store.Keys == s.store.Keys
      && (key in s.store && i < |s.store[key]| && (key, i) != (w.key, w.leaf) ==>
            |s'.store[key]| == |s.store[key]| && s'.store[key][i] == s.store[key][i])
  {
  }

  /** Setting input `j` of a type through its value reference `offset + j`, then getting that value
      reference, reads back what the writer stored, converted back by the reader. */
  lemma SetThenGet(s: MapperState, t: FmiType, j: nat, v: Value)
    requires t != Unknown && Bound(s) && Aligned(s.TableOf(t))
    requires j < |s.TableOf(t).writers|
    ensures var vr := s.TableOf(t).offset + j;
      && Set(s, t, vr, v).Ok?
      && Get(Set(s, t, vr, v).value, t, vr) == Ok(ReadValue(t, WriteDatum(s.TableOf(t).writers[j].kind, v)))
  {
    var tb := s.TableOf(t);
    var w := tb.writers[j];
    assert TableBound(s.store, tb, t);
    assert SlotBound(s.store, w, t);
    assert tb.readers[tb.offset + j] == w;
  }

  /** The reader after the writer, on an Integer member: the value cast to the member's width;
      an enumeration (stored as uint32) and an int32 member give the value back. */
  lemma IntegerEcho(kind: TypeKind, i: int)
    requires Registered(Corrected, kind) == Some(Integer) && I32.Fits(i)
    ensures WidthOf(kind).Some?
    ensures ReadValue(Integer, WriteDatum(kind, IntegerValue(i)))
         == IntegerValue(if kind == EnumerationType || kind == Int32Type then i else Cast(i, WidthOf(kind).value))
  {
    var w := WidthOf(kind).value;
    assert WriteDatum(kind, IntegerValue(i)) == IntVal(Cast(i, w));
    if kind == EnumerationType {
      Uint32RoundTrip(i);
    } else {
      CastOfFitting(Cast(i, w), I32);
      if kind == Int32Type {
        CastOfFitting(i, I32);
      }
    }
  }

  /** An int stored in a uint32 and read back as an int is unchanged. */
  lemma Uint32RoundTrip(i: int)
    requires I32.Fits(i)
    ensures Cast(Cast(i, U32), I32) == i
  {
    var c := Cast(i, U32);
    if i < 0 {
      assert i % 0x1_0000_0000 == i + 0x1_0000_0000;
      assert c == i + 0x1_0000_0000;
      assert c % 0x1_0000_0000 == c;
    } else {
      CastOfFitting(i, U32);
      CastOfFitting(i, I32);
    }
  }

  /** The reader after the writer on the other kinds: booleans, strings and doubles come back as
      written; a char member gives back the one-character string of the first character written,
      or of '\0' for the empty string. */
  lemma OtherEcho(kind: TypeKind, t: FmiType, v: Value)
    requires t != Integer && Registered(Corrected, kind) == Some(t) && HasType(v, t)
    requires kind != Int64Type && kind != UInt64Type && kind != UInt32Type
    ensures ReadValue(t, WriteDatum(kind, v))
         == if kind == Char8Type then StringValue([if |v.s| > 0 then v.s[0] else '\0']) else v
  {
  }

  // ---------------------------------------------------------------------------
  // The UINT_32 gap

  /** One output topic whose struct holds a single `uint32` member. */
  function UInt32Nodes(): seq<Node> {
    [Node("", StructureType, false, NoVal), Node("x", UInt32Type, false, IntVal(0))]
  }

  function UInt32Doc(): Option<MappingDoc> {
    Some(MappingDoc([MappingEntry(Some("t"), Some("S"))], []))
  }

  /** As written, `reset` accepts this mapping but binds no Real reader, while the distributor
      gives the member `t.x` the Real value reference 0: getting it throws. */
  lemma UInt32GapAsWritten()
    ensures OfType(Distribute([Topic("t", UInt32Nodes())], []).mapping, Real)
         == [SignalInfo(0, "t.x", "output", Real)]
    ensures ResetSpec(AsWritten, UInt32Doc(), map["S" := UInt32Nodes()]).status == Done
    ensures ResetSpec(AsWritten, UInt32Doc(), map["S" := UInt32Nodes()]).state.reals.readers == []
    ensures Get(ResetSpec(AsWritten, UInt32Doc(), map["S" := UInt32Nodes()]).state, Real, 0).Err?
  {
    var nodes := UInt32Nodes();
    var idl := map["S" := nodes];
    var key := StoreKey("t", Read);
    assert nodes[..1] == [nodes[0]];
    assert nodes[..1][..0] == [];
    assert !IsSignalLeaf(StructureType) && IsSignalLeaf(UInt32Type);
    assert AddTopic(Initial(), "t", [], false) == Initial();
    var d0 := AddTopic(Initial(), "t", nodes[..1], false);
    assert d0 == Initial();
    var d := AddTopic(Initial(), "t", nodes, false);
    assert d == Visit(d0, "t", false, nodes[1]);
    assert "t" + "." + "x" == "t.x";
    assert d.mapping == [SignalInfo(0, "t.x", "output", Real)];
    assert [Topic("t", nodes)][..0] == [];
    assert AddTopics(Initial(), [Topic("t", nodes)], false) == d;
    assert OfType(d.mapping, Real) == OfType([], Real) + [SignalInfo(0, "t.x", "output", Real)];
    var s1 := Cleared().(store := map[key := nodes]);
    assert AddSlots(AsWritten, s1, key, nodes[..1]) == s1;
    assert AddSlots(AsWritten, s1, key, nodes) == s1;
    var entries := UInt32Doc().value.fmuOut;
    assert entries[..0] == [];
    assert EntriesSpec(AsWritten, Cleared(), entries, Read, idl) == Step(s1, Done);
  }
}
