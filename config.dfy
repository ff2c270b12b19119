/**
  The DDS-FMU mapping file (resources/config/dds/ddsfmu_mapping.xml) after parsing,
  and the IDL context it refers to.  Both the DataMapper (at FMU instantiation)
  and the repacker's `generate_xml` walk the `<fmu_out>` and `<fmu_in>` children
  of `<ddsfmu>`, each naming a topic and an IDL struct type.
*/
module Config {
  import opened Wrappers
  import opened XTypes
  import opened Signals

  /** One `<fmu_out>` or `<fmu_in>` element: its `topic` and `type` attributes, either of which may be missing. */
  datatype MappingEntry = MappingEntry(topic: Option<string>, typeName: Option<string>)

  /** The children of `<ddsfmu>`, in document order, per element name. */
  datatype MappingDoc = MappingDoc(fmuOut: seq<MappingEntry>, fmuIn: seq<MappingEntry>)

  /** The loaded IDL module: each struct name with the traversal of a default instance of that struct. */
  type IdlContext = map<string, seq<Node>>

  const IncompleteUserData := "Incomplete user data"
  const UnknownIdlType := "Unknown idl type"
  const DdsfmuNotFound := "<ddsfmu> not found in ddsfmu_mapping.xml"

  /** The checks both walkers make on one element, in their order: both attributes present, then a known type. */
  function EntryTopic(e: MappingEntry, idl: IdlContext): (r: Result<Topic, string>)
    ensures r.Ok? <==> e.topic.Some? && e.typeName.Some? && e.typeName.value in idl
    ensures r.Ok? ==> r.value == Topic(e.topic.value, idl[e.typeName.value])
    ensures r.Err? && (e.topic.None? || e.typeName.None?) ==> r.error == IncompleteUserData
    ensures r.Err? && e.topic.Some? && e.typeName.Some? ==> r.error == UnknownIdlType
  {
    if e.topic.None? || e.typeName.None? then Err(IncompleteUserData)
    else if e.typeName.value !in idl then Err(UnknownIdlType)
    else Ok(Topic(e.topic.value, idl[e.typeName.value]))
  }

  /** The topics of a list of elements, or the error of the first element that fails. */
  function EntryTopics(entries: seq<MappingEntry>, idl: IdlContext): (r: Result<seq<Topic>, string>)
    ensures r.Ok? ==> |r.value| == |entries|
    decreases |entries|
  {
    if |entries| == 0 then Ok([])
    else
      match EntryTopics(entries[..|entries| - 1], idl)
      case Err(m) => Err(m)
      case Ok(ts) =>
        match EntryTopic(entries[|entries| - 1], idl)
        case Err(m) => Err(m)
        case Ok(t) => Ok(ts + [t])
  }

  /** The topics come out one per element, in order, exactly when no element fails. */
  lemma {:induction false} EntryTopicsOk(entries: seq<MappingEntry>, idl: IdlContext)
    ensures EntryTopics(entries, idl).Ok? <==> forall k :: 0 <= k < |entries| ==> EntryTopic(entries[k], idl).Ok?
    ensures EntryTopics(entries, idl).Ok? ==>
      forall k :: 0 <= k < |entries| ==> EntryTopics(entries, idl).value[k] == EntryTopic(entries[k], idl).value
    decreases |entries|
  {
    if |entries| > 0 {
      var n := |entries| - 1;
      EntryTopicsOk(entries[..n], idl);
      assert forall k :: 0 <= k < n ==> entries[..n][k] == entries[k];
    }
  }

  /** An error on a prefix is the error of the whole. */
  lemma {:induction false} EntryTopicsFailFrom(entries: seq<MappingEntry>, idl: IdlContext, n: nat)
    requires n <= |entries| && EntryTopics(entries[..n], idl).Err?
    ensures EntryTopics(entries, idl) == EntryTopics(entries[..n], idl)
    decreases |entries| - n
  {
    if n < |entries| {
      assert entries[..n + 1][..n] == entries[..n];
      EntryTopicsFailFrom(entries, idl, n + 1);
    } else {
      assert entries[..n] == entries;
    }
  }
}
