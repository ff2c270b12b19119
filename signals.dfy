/**
  The signal distributor (src/detail/SignalDistributor.cpp): it walks every
  topic named in the DDS-FMU mapping file and gives each primitive, enumerated
  or string member an FMI value reference of its FMI base type.  The entries
  become the ScalarVariables of modelDescription.xml (section 2.2.7 of the FMI
  2.0 standard), and the number of outputs sizes ModelStructure/Outputs
  (section 2.2.8).
*/
module Signals {
  import opened Wrappers
  import opened XTypes

  /** `ScalarVariableType`: the FMI base types, plus Unknown for members that have none. */
  datatype FmiType = Real | Integer | Boolean | String | Unknown

  /** `resolve_type`: the FMI base type of a member of the given kind. */
  function ResolveType(k: TypeKind): (t: FmiType)
    ensures t != Unknown ==> IsSignalLeaf(k)
    ensures t == Boolean <==> k == BooleanType
  {
    match k
    case BooleanType => Boolean
    case Int8Type | UInt8Type | Int16Type | UInt16Type | Int32Type => Integer
    case Float32Type | Float64Type => Real
    case StringType | Char8Type => String
    case EnumerationType => Integer
    case UInt32Type | Int64Type | UInt64Type => Real
    case _ => Unknown
  }

  /** Every integer kind mapped to FMI Integer holds only values an FMI Integer (int32) can hold;
      the enumeration is the exception, whose uint32 storage is cast. */
  lemma IntegerKindsFitFmiInteger(k: TypeKind, i: int)
    requires ResolveType(k) == Integer && k != EnumerationType
    requires WidthOf(k).Some? && WidthOf(k).value.Fits(i)
    ensures I32.Fits(i)
  {
  }

  /** Integer kinds wider than int32 are mapped to FMI Real. */
  lemma WideIntegerKindsAreReal(k: TypeKind)
    requires k != EnumerationType && WidthOf(k).Some?
    requires WidthOf(k).value.Max() > I32.Max()
    ensures ResolveType(k) == Real
  {
  }

  /** `SignalInfo`: value reference, structured name, causality, FMI type. */
  datatype SignalInfo = SignalInfo(valueRef: nat, name: string, causality: string, fmiType: FmiType)

  function Causality(isInNotOut: bool): (c: string)
    ensures c == "input" <==> isInNotOut
    ensures !isInNotOut ==> c == "output"
  {
    if isInNotOut then "input" else "output"
  }

  /** The observable state of a distributor: its four counters, its output count and its entries. */
  datatype Distribution = Distribution(
    realIdx: nat, integerIdx: nat, booleanIdx: nat, stringIdx: nat, outputs: nat,
    mapping: seq<SignalInfo>)
  {
    function Counter(t: FmiType): nat {
      match t
      case Real => realIdx
      case Integer => integerIdx
      case Boolean => booleanIdx
      case String => stringIdx
      case Unknown => 0
    }

    function Bump(t: FmiType): Distribution {
      match t
      case Real => this.(realIdx := realIdx + 1)
      case Integer => this.(integerIdx := integerIdx + 1)
      case Boolean => this.(booleanIdx := booleanIdx + 1)
      case String => this.(stringIdx := stringIdx + 1)
      case Unknown => this
    }
  }

  function Initial(): Distribution {
    Distribution(0, 0, 0, 0, 0, [])
  }

  /** One call of the traversal callback in `add`. */
  function Visit(d: Distribution, topic: string, isInNotOut: bool, n: Node): Distribution {
    if !IsSignalLeaf(n.kind) then d
    else
      var d1 := if isInNotOut then d else d.(outputs := d.outputs + 1);
      var t := ResolveType(n.kind);
      if t == Unknown then d1
      else
        d1.(mapping := d1.mapping + [SignalInfo(d1.Counter(t), topic + "." + n.name, Causality(isInNotOut), t)]).Bump(t)
  }

  /** `add` as a function: the callback applied to every node, in traversal order. */
  function AddTopic(d: Distribution, topic: string, nodes: seq<Node>, isInNotOut: bool): Distribution
    decreases |nodes|
  {
    if |nodes| == 0 then d
    else Visit(AddTopic(d, topic, nodes[..|nodes| - 1], isInNotOut), topic, isInNotOut, nodes[|nodes| - 1])
  }

  lemma AddTopicStep(d: Distribution, topic: string, nodes: seq<Node>, isInNotOut: bool, i: nat)
    requires i < |nodes|
    ensures AddTopic(d, topic, nodes[..i + 1], isInNotOut)
         == Visit(AddTopic(d, topic, nodes[..i], isInNotOut), topic, isInNotOut, nodes[i])
  {
    assert nodes[..i + 1][..i] == nodes[..i];
  }

  /** A topic of the mapping file together with the traversal of its type's instance. */
  datatype Topic = Topic(name: string, nodes: seq<Node>)

  function AddTopics(d: Distribution, topics: seq<Topic>, isInNotOut: bool): Distribution
    decreases |topics|
  {
    if |topics| == 0 then d
    else
      var last := topics[|topics| - 1];
      AddTopic(AddTopics(d, topics[..|topics| - 1], isInNotOut), last.name, last.nodes, isInNotOut)
  }

  /** What `generate_xml` feeds the distributor: every `fmu_out` topic, then every `fmu_in` topic. */
  function Distribute(outs: seq<Topic>, ins: seq<Topic>): Distribution {
    AddTopics(AddTopics(Initial(), outs, false), ins, true)
  }

  // ---------------------------------------------------------------------------
  // The signals of one FMI type, independently of the counters

  /** A member that receives a value reference: its topic, direction, position in the traversal and node. */
  datatype SignalRef = SignalRef(topic: string, isInNotOut: bool, leaf: nat, node: Node)

  /** The members of `nodes` whose FMI type is `t`, in traversal order. */
  function TopicSignals(topic: string, nodes: seq<Node>, isInNotOut: bool, t: FmiType): seq<SignalRef>
    decreases |nodes|
  {
    if |nodes| == 0 then []
    else
      var i := |nodes| - 1;
      TopicSignals(topic, nodes[..i], isInNotOut, t)
        + (if IsSignalLeaf(nodes[i].kind) && ResolveType(nodes[i].kind) == t
           then [SignalRef(topic, isInNotOut, i, nodes[i])] else [])
  }

  function AllSignals(topics: seq<Topic>, isInNotOut: bool, t: FmiType): seq<SignalRef>
    decreases |topics|
  {
    if |topics| == 0 then []
    else
      var last := topics[|topics| - 1];
      AllSignals(topics[..|topics| - 1], isInNotOut, t) + TopicSignals(last.name, last.nodes, isInNotOut, t)
  }

  /** The signals of type `t` in the order the mapping file lists them: outputs, then inputs. */
  function ProgramSignals(outs: seq<Topic>, ins: seq<Topic>, t: FmiType): seq<SignalRef> {
    AllSignals(outs, false, t) + AllSignals(ins, true, t)
  }

  function InfoOf(s: SignalRef, vr: nat, t: FmiType): SignalInfo {
    SignalInfo(vr, s.topic + "." + s.node.name, Causality(s.isInNotOut), t)
  }

  /** The entries for `refs`, numbered consecutively from `first`. */
  function Numbered(refs: seq<SignalRef>, first: nat, t: FmiType): (r: seq<SignalInfo>)
    ensures |r| == |refs|
  {
    seq(|refs|, p requires 0 <= p < |refs| => InfoOf(refs[p], first + p, t))
  }

  /** The entries of type `t`, in order. */
  function OfType(s: seq<SignalInfo>, t: FmiType): seq<SignalInfo>
    decreases |s|
  {
    if |s| == 0 then []
    else OfType(s[..|s| - 1], t) + (if s[|s| - 1].fmiType == t then [s[|s| - 1]] else [])
  }

  /** The leaves of `nodes`, whatever their FMI type: each one counts as an output. */
  function LeafCount(nodes: seq<Node>): nat
    decreases |nodes|
  {
    if |nodes| == 0 then 0
    else LeafCount(nodes[..|nodes| - 1]) + (if IsSignalLeaf(nodes[|nodes| - 1].kind) then 1 else 0)
  }

  function TopicsLeafCount(topics: seq<Topic>): nat
    decreases |topics|
  {
    if |topics| == 0 then 0
    else TopicsLeafCount(topics[..|topics| - 1]) + LeafCount(topics[|topics| - 1].nodes)
  }

  // ---------------------------------------------------------------------------
  // Lemmas

  lemma NumberedAppend(a: seq<SignalRef>, b: seq<SignalRef>, first: nat, t: FmiType)
    ensures Numbered(a + b, first, t) == Numbered(a, first, t) + Numbered(b, first + |a|, t)
  {
    var l, r := Numbered(a + b, first, t), Numbered(a, first, t) + Numbered(b, first + |a|, t);
    assert |l| == |r|;
    forall p | 0 <= p < |l| ensures l[p] == r[p] {
      if p < |a| { assert (a + b)[p] == a[p]; } else { assert (a + b)[p] == b[p - |a|]; }
    }
  }

  lemma OfTypeAppend(s: seq<SignalInfo>, x: SignalInfo, t: FmiType)
    ensures OfType(s + [x], t) == OfType(s, t) + (if x.fmiType == t then [x] else [])
  {
    assert (s + [x])[..|s|] == s;
  }

  /** The member a callback adds to the entries of type `t`, if any. */
  function Own(topic: string, isInNotOut: bool, n: Node, i: nat, t: FmiType): seq<SignalRef> {
    if IsSignalLeaf(n.kind) && ResolveType(n.kind) == t then [SignalRef(topic, isInNotOut, i, n)] else []
  }

  /** One callback: the counter of `t` grows by one exactly for a member of type `t`. */
  lemma VisitCounter(d: Distribution, topic: string, isInNotOut: bool, n: Node, i: nat, t: FmiType)
    requires t != Unknown
    ensures Visit(d, topic, isInNotOut, n).Counter(t) == d.Counter(t) + |Own(topic, isInNotOut, n, i, t)|
  {
  }

  /** One callback: every output member adds one output, whatever its type. */
  lemma VisitOutputs(d: Distribution, topic: string, isInNotOut: bool, n: Node)
    ensures Visit(d, topic, isInNotOut, n).outputs
         == d.outputs + (if !isInNotOut && IsSignalLeaf(n.kind) then 1 else 0)
  {
  }

  /** One callback: the entries of type `t` grow by the member's entry, numbered by the counter of `t`. */
  lemma VisitOfType(d: Distribution, topic: string, isInNotOut: bool, n: Node, i: nat, t: FmiType)
    requires t != Unknown
    ensures OfType(Visit(d, topic, isInNotOut, n).mapping, t)
         == OfType(d.mapping, t) + Numbered(Own(topic, isInNotOut, n, i, t), d.Counter(t), t)
  {
    if IsSignalLeaf(n.kind) {
      var d1 := if isInNotOut then d else d.(outputs := d.outputs + 1);
      var u := ResolveType(n.kind);
      if u != Unknown {
        var e := SignalInfo(d1.Counter(u), topic + "." + n.name, Causality(isInNotOut), u);
        OfTypeAppend(d1.mapping, e, t);
        if u == t {
          assert Numbered([SignalRef(topic, isInNotOut, i, n)], d.Counter(t), t) == [e];
        }
      }
    }
  }

  lemma TopicSignalsStep(topic: string, nodes: seq<Node>, isInNotOut: bool, t: FmiType)
    requires |nodes| > 0
    ensures TopicSignals(topic, nodes, isInNotOut, t)
         == TopicSignals(topic, nodes[..|nodes| - 1], isInNotOut, t)
            + Own(topic, isInNotOut, nodes[|nodes| - 1], |nodes| - 1, t)
  {
  }

  /** `add` moves the counter of `t` on by the number of the topic's members of type `t`. */
  lemma {:induction false} AddTopicCounter(d: Distribution, topic: string, nodes: seq<Node>, isInNotOut: bool, t: FmiType)
    requires t != Unknown
    ensures AddTopic(d, topic, nodes, isInNotOut).Counter(t)
         == d.Counter(t) + |TopicSignals(topic, nodes, isInNotOut, t)|
    decreases |nodes|
  {
    if |nodes| > 0 {
      var i := |nodes| - 1;
      AddTopicCounter(d, topic, nodes[..i], isInNotOut, t);
      VisitCounter(AddTopic(d, topic, nodes[..i], isInNotOut), topic, isInNotOut, nodes[i], i, t);
      TopicSignalsStep(topic, nodes, isInNotOut, t);
    }
  }

  /** `add` on an output topic counts each of its leaves as one output; an input topic adds none. */
  lemma {:induction false} AddTopicOutputs(d: Distribution, topic: string, nodes: seq<Node>, isInNotOut: bool)
    ensures AddTopic(d, topic, nodes, isInNotOut).outputs
         == d.outputs + (if isInNotOut then 0 else LeafCount(nodes))
    decreases |nodes|
  {
    if |nodes| > 0 {
      var i := |nodes| - 1;
      AddTopicOutputs(d, topic, nodes[..i], isInNotOut);
      VisitOutputs(AddTopic(d, topic, nodes[..i], isInNotOut), topic, isInNotOut, nodes[i]);
    }
  }

  /** `add` appends, for each type, the topic's signals of that type, numbered from that type's counter. */
  lemma {:induction false} AddTopicOfType(d: Distribution, topic: string, nodes: seq<Node>, isInNotOut: bool, t: FmiType)
    requires t != Unknown
    ensures OfType(AddTopic(d, topic, nodes, isInNotOut).mapping, t)
         == OfType(d.mapping, t) + Numbered(TopicSignals(topic, nodes, isInNotOut, t), d.Counter(t), t)
    decreases |nodes|
  {
    if |nodes| > 0 {
      var i := |nodes| - 1;
      var pre := AddTopic(d, topic, nodes[..i], isInNotOut);
      var ownPre := TopicSignals(topic, nodes[..i], isInNotOut, t);
      var last := Own(topic, isInNotOut, nodes[i], i, t);
      var c := d.Counter(t);
      calc {
        OfType(AddTopic(d, topic, nodes, isInNotOut).mapping, t);
        OfType(Visit(pre, topic, isInNotOut, nodes[i]).mapping, t);
        { VisitOfType(pre, topic, isInNotOut, nodes[i], i, t); }
        OfType(pre.mapping, t) + Numbered(last, pre.Counter(t), t);
        { AddTopicOfType(d, topic, nodes[..i], isInNotOut, t);
          AddTopicCounter(d, topic, nodes[..i], isInNotOut, t); }
        (OfType(d.mapping, t) + Numbered(ownPre, c, t)) + Numbered(last, c + |ownPre|, t);
        { ConcatAssoc(OfType(d.mapping, t), Numbered(ownPre, c, t), Numbered(last, c + |ownPre|, t)); }
        OfType(d.mapping, t) + (Numbered(ownPre, c, t) + Numbered(last, c + |ownPre|, t));
        { NumberedAppend(ownPre, last, c, t); }
        OfType(d.mapping, t) + Numbered(ownPre + last, c, t);
        { TopicSignalsStep(topic, nodes, isInNotOut, t); }
        OfType(d.mapping, t) + Numbered(TopicSignals(topic, nodes, isInNotOut, t), c, t);
      }
    }
  }

  lemma {:induction false} AddTopicsCounter(d: Distribution, topics: seq<Topic>, isInNotOut: bool, t: FmiType)
    requires t != Unknown
    ensures AddTopics(d, topics, isInNotOut).Counter(t) == d.Counter(t) + |AllSignals(topics, isInNotOut, t)|
    decreases |topics|
  {
    if |topics| > 0 {
      var n := |topics| - 1;
      AddTopicsCounter(d, topics[..n], isInNotOut, t);
      AddTopicCounter(AddTopics(d, topics[..n], isInNotOut), topics[n].name, topics[n].nodes, isInNotOut, t);
    }
  }

  lemma {:induction false} AddTopicsOutputs(d: Distribution, topics: seq<Topic>, isInNotOut: bool)
    ensures AddTopics(d, topics, isInNotOut).outputs
         == d.outputs + (if isInNotOut then 0 else TopicsLeafCount(topics))
    decreases |topics|
  {
    if |topics| > 0 {
      var n := |topics| - 1;
      AddTopicsOutputs(d, topics[..n], isInNotOut);
      AddTopicOutputs(AddTopics(d, topics[..n], isInNotOut), topics[n].name, topics[n].nodes, isInNotOut);
    }
  }

  lemma {:induction false} AddTopicsOfType(d: Distribution, topics: seq<Topic>, isInNotOut: bool, t: FmiType)
    requires t != Unknown
    ensures OfType(AddTopics(d, topics, isInNotOut).mapping, t)
         == OfType(d.mapping, t) + Numbered(AllSignals(topics, isInNotOut, t), d.Counter(t), t)
    decreases |topics|
  {
    if |topics| > 0 {
      var n := |topics| - 1;
      var pre := AddTopics(d, topics[..n], isInNotOut);
      var a := AllSignals(topics[..n], isInNotOut, t);
      var b := TopicSignals(topics[n].name, topics[n].nodes, isInNotOut, t);
      var c := d.Counter(t);
      calc {
        OfType(AddTopics(d, topics, isInNotOut).mapping, t);
        OfType(AddTopic(pre, topics[n].name, topics[n].nodes, isInNotOut).mapping, t);
        { AddTopicOfType(pre, topics[n].name, topics[n].nodes, isInNotOut, t); }
        OfType(pre.mapping, t) + Numbered(b, pre.Counter(t), t);
        { AddTopicsOfType(d, topics[..n], isInNotOut, t);
          AddTopicsCounter(d, topics[..n], isInNotOut, t); }
        (OfType(d.mapping, t) + Numbered(a, c, t)) + Numbered(b, c + |a|, t);
        { ConcatAssoc(OfType(d.mapping, t), Numbered(a, c, t), Numbered(b, c + |a|, t)); }
        OfType(d.mapping, t) + (Numbered(a, c, t) + Numbered(b, c + |a|, t));
        { NumberedAppend(a, b, c, t); }
        OfType(d.mapping, t) + Numbered(a + b, c, t);
        { assert AllSignals(topics, isInNotOut, t) == a + b; }
        OfType(d.mapping, t) + Numbered(AllSignals(topics, isInNotOut, t), c, t);
      }
    }
  }

  /** The distributor's result, per FMI type: the signals of that type in mapping-file order (outputs
      first), numbered 0, 1, ..., n-1, with n the type's final counter; the output count is the number
      of leaves of all output topics, whatever their type. */
  lemma DistributeNumbersEachType(outs: seq<Topic>, ins: seq<Topic>, t: FmiType)
    requires t != Unknown
    ensures OfType(Distribute(outs, ins).mapping, t) == Numbered(ProgramSignals(outs, ins, t), 0, t)
    ensures Distribute(outs, ins).Counter(t) == |ProgramSignals(outs, ins, t)|
    ensures Distribute(outs, ins).outputs == TopicsLeafCount(outs)
  {
    var d0 := Initial();
    var mid := AddTopics(d0, outs, false);
    var a: seq<SignalRef> := AllSignals(outs, false, t);
    var b: seq<SignalRef> := AllSignals(ins, true, t);
    assert d0.Counter(t) == 0 && OfType(d0.mapping, t) == [] && d0.outputs == 0;
    AddTopicsOfType(d0, outs, false, t);
    AddTopicsCounter(d0, outs, false, t);
    AddTopicsOutputs(d0, outs, false);
    assert OfType(mid.mapping, t) == Numbered(a, 0, t) && mid.Counter(t) == |a|;
    AddTopicsOfType(mid, ins, true, t);
    AddTopicsCounter(mid, ins, true, t);
    AddTopicsOutputs(mid, ins, true);
    NumberedAppend(a, b, 0, t);
  }

  /** Within one FMI type, value references are exactly 0..n-1 in order, so no two members of a type
      share one; every output's value reference is below every input's. */
  lemma ValueReferencesPerType(outs: seq<Topic>, ins: seq<Topic>, t: FmiType, p: nat, q: nat)
    requires t != Unknown
    requires p < q < |OfType(Distribute(outs, ins).mapping, t)|
    ensures OfType(Distribute(outs, ins).mapping, t)[p].valueRef == p
    ensures OfType(Distribute(outs, ins).mapping, t)[q].valueRef == q
    ensures q < Distribute(outs, ins).Counter(t)
    ensures OfType(Distribute(outs, ins).mapping, t)[q].causality == "output"
            ==> OfType(Distribute(outs, ins).mapping, t)[p].causality == "output"
  {
    DistributeNumbersEachType(outs, ins, t);
    var es := OfType(Distribute(outs, ins).mapping, t);
    var refs := ProgramSignals(outs, ins, t);
    var outsPart, insPart := AllSignals(outs, false, t), AllSignals(ins, true, t);
    assert refs == outsPart + insPart;
    assert es[p] == InfoOf(refs[p], p, t);
    assert es[q] == InfoOf(refs[q], q, t);
    if es[q].causality == "output" {
      assert !refs[q].isInNotOut;
      if q >= |outsPart| {
        AllSignalsDirection(ins, true, t);
        assert false;
      }
      AllSignalsDirection(outs, false, t);
      assert refs[p] == outsPart[p];
    }
  }

  lemma {:induction false} TopicSignalsDirection(topic: string, nodes: seq<Node>, isInNotOut: bool, t: FmiType)
    ensures forall k :: 0 <= k < |TopicSignals(topic, nodes, isInNotOut, t)| ==>
      TopicSignals(topic, nodes, isInNotOut, t)[k].isInNotOut == isInNotOut
    decreases |nodes|
  {
    if |nodes| > 0 {
      var i := |nodes| - 1;
      TopicSignalsDirection(topic, nodes[..i], isInNotOut, t);
      TopicSignalsStep(topic, nodes, isInNotOut, t);
    }
  }

  /** Every signal collected from the topics of one direction has that direction. */
  lemma {:induction false} AllSignalsDirection(topics: seq<Topic>, isInNotOut: bool, t: FmiType)
    ensures forall k :: 0 <= k < |AllSignals(topics, isInNotOut, t)| ==>
      AllSignals(topics, isInNotOut, t)[k].isInNotOut == isInNotOut
    decreases |topics|
  {
    if |topics| > 0 {
      var n := |topics| - 1;
      AllSignalsDirection(topics[..n], isInNotOut, t);
      TopicSignalsDirection(topics[n].name, topics[n].nodes, isInNotOut, t);
      var a: seq<SignalRef> := AllSignals(topics[..n], isInNotOut, t);
      var b: seq<SignalRef> := TopicSignals(topics[n].name, topics[n].nodes, isInNotOut, t);
      assert AllSignals(topics, isInNotOut, t) == a + b;
      forall k | 0 <= k < |a + b| ensures (a + b)[k].isInNotOut == isInNotOut {
        if k < |a| { assert (a + b)[k] == a[k]; } else { assert (a + b)[k] == b[k - |a|]; }
      }
    }
  }

  // ---------------------------------------------------------------------------
  // The distributor object

  /** `SignalDistributor`: four per-type index counters, the output counter and the signal entries. */
  class SignalDistributor {
    var realIdx: nat
    var integerIdx: nat
    var booleanIdx: nat
    var stringIdx: nat
    var outputs: nat
    var mapping: seq<SignalInfo>

    function State(): Distribution
      reads this
    {
      Distribution(realIdx, integerIdx, booleanIdx, stringIdx, outputs, mapping)
    }

    /** The constructor zeroes all counters; there are no entries yet. */
    constructor ()
      ensures State() == Initial()
    {
      realIdx, integerIdx, booleanIdx, stringIdx, outputs := 0, 0, 0, 0, 0;
      mapping := [];
    }

    /** `add`: walk the topic's members, counting outputs and appending one entry per typed leaf. */
    method Add(topic: string, nodes: seq<Node>, isInNotOut: bool)
      modifies this
      ensures State() == AddTopic(old(State()), topic, nodes, isInNotOut)
    {
      var inOrOutput := if isInNotOut then "input" else "output";
      ghost var d0 := State();
      var i := 0;
      while i < |nodes|
        invariant 0 <= i <= |nodes|
        invariant State() == AddTopic(d0, topic, nodes[..i], isInNotOut)
      {
        ghost var acc := State();
        Callback(topic, nodes[i], isInNotOut, inOrOutput);
        AddTopicStep(d0, topic, nodes, isInNotOut, i);
        assert State() == Visit(acc, topic, isInNotOut, nodes[i]);
        i := i + 1;
      }
      assert nodes[..|nodes|] == nodes;
    }

    /** The traversal callback of `add` for one member. */
    method Callback(topic: string, node: Node, isInNotOut: bool, inOrOutput: string)
      requires inOrOutput == Causality(isInNotOut)
      modifies this
      ensures State() == Visit(old(State()), topic, isInNotOut, node)
    {
      if IsSignalLeaf(node.kind) {
        if !isInNotOut { outputs := outputs + 1; }
        var structuredName := topic + "." + node.name;
        var fmiType := ResolveType(node.kind);
        if fmiType != Unknown {
          Append(structuredName, inOrOutput, fmiType);
        }
      }
    }

    /** Appends an entry of type `fmiType` numbered by that type's counter, then moves the counter on. */
    method Append(structuredName: string, causality: string, fmiType: FmiType)
      requires fmiType != Unknown
      modifies this
      ensures State() == old(State()).(mapping := old(mapping) + [SignalInfo(old(State()).Counter(fmiType), structuredName, causality, fmiType)]).Bump(fmiType)
    {
      match fmiType {
        case Real =>
          mapping := mapping + [SignalInfo(realIdx, structuredName, causality, fmiType)];
          realIdx := realIdx + 1;
        case Integer =>
          mapping := mapping + [SignalInfo(integerIdx, structuredName, causality, fmiType)];
          integerIdx := integerIdx + 1;
        case Boolean =>
          mapping := mapping + [SignalInfo(booleanIdx, structuredName, causality, fmiType)];
          booleanIdx := booleanIdx + 1;
        case String =>
          mapping := mapping + [SignalInfo(stringIdx, structuredName, causality, fmiType)];
          stringIdx := stringIdx + 1;
      }
    }
  }
}
