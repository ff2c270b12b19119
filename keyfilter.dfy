/**
  The custom key content filter: a registry, keyed by the GUID text of each data reader,
  of the `@key` values the reader asked for, and the positional comparison of an incoming
  sample's key members against them.

  The sample and the key template are node sequences as in module XTypes.  Copying,
  deserialising and converting a payload belong to Fast-DDS and to the Converter, whose
  code is not part of this model; their outcome is an input (`Decoding`).  So is the
  outcome of `std::stof`/`std::stod` on a floating-point key parameter (`parseReal`).
*/
module KeyFilter {
  import opened Wrappers
  import opened XTypes
  import opened StdConv

  /** How a C++ call ended: a returned value or an exception. */
  datatype Outcome<+T> = Returned(value: T) | Raised(failure: Failure)

  /** The first parameter of a filter whose reader is not known yet. */
  const GuidUnknown := "|GUID UNKNOWN|"

  const NotDynamic :=
    "Custom filter only works with dynamic types, was unable to cast TopicDataType* to DynamicPubSubType* "

  function MoreKeysThanParameters(typeName: string): string {
    typeName + " has more @key members than parameter data provided"
  }

  /** The topic data type handed to the filter, with the default instance of its IDL type. */
  datatype TopicType = TopicType(isDynamic: bool, instance: seq<Node>)

  // ---------------------------------------------------------------------------
  // The key leaves of a traversal

  /** The key leaves of a traversal, in order. */
  function KeyLeaves(nodes: seq<Node>): (r: seq<Node>)
    ensures |r| <= |nodes|
    decreases |nodes|
  {
    if |nodes| == 0 then []
    else
      var n := nodes[|nodes| - 1];
      KeyLeaves(nodes[..|nodes| - 1]) + (if IsKeyLeaf(n) then [n] else [])
  }

  lemma KeyLeavesStep(nodes: seq<Node>, i: nat)
    requires i < |nodes|
    ensures KeyLeaves(nodes[..i + 1]) == KeyLeaves(nodes[..i]) + (if IsKeyLeaf(nodes[i]) then [nodes[i]] else [])
    ensures |KeyLeaves(nodes[..i + 1])| == |KeyLeaves(nodes[..i])| + (if IsKeyLeaf(nodes[i]) then 1 else 0)
  {
    assert nodes[..i + 1][..i] == nodes[..i];
  }

  /** The key leaves of a prefix are a prefix of the key leaves. */
  lemma {:induction false} KeyLeavesPrefix(nodes: seq<Node>, i: nat)
    requires i <= |nodes|
    ensures KeyLeaves(nodes[..i]) <= KeyLeaves(nodes)
    decreases |nodes|
  {
    if i < |nodes| {
      var n := |nodes| - 1;
      KeyLeavesPrefix(nodes[..n], i);
      assert nodes[..n][..i] == nodes[..i];
      var tail := if IsKeyLeaf(nodes[n]) then [nodes[n]] else [];
      assert KeyLeaves(nodes) == KeyLeaves(nodes[..n]) + tail;
    } else {
      assert nodes[..i] == nodes;
    }
  }

  /** The key leaf at position `i` of a traversal is key leaf number `|KeyLeaves(nodes[..i])|`. */
  lemma KeyLeavesAt(nodes: seq<Node>, i: nat)
    requires i < |nodes| && IsKeyLeaf(nodes[i])
    ensures |KeyLeaves(nodes[..i])| < |KeyLeaves(nodes)|
    ensures KeyLeaves(nodes)[|KeyLeaves(nodes[..i])|] == nodes[i]
  {
    KeyLeavesStep(nodes, i);
    KeyLeavesPrefix(nodes, i + 1);
  }

  /** Counting key leaves along a traversal passes every value between 1 and the total. */
  lemma {:induction false} CountReaches(nodes: seq<Node>, c: nat)
    requires 1 <= c <= |KeyLeaves(nodes)|
    ensures exists m :: 1 <= m <= |nodes| && |KeyLeaves(nodes[..m])| == c
    decreases |nodes|
  {
    var n := |nodes| - 1;
    KeyLeavesStep(nodes, n);
    assert nodes[..n + 1] == nodes;
    if c <= |KeyLeaves(nodes[..n])| {
      CountReaches(nodes[..n], c);
      var m :| 1 <= m <= n && |KeyLeaves(nodes[..n][..m])| == c;
      assert nodes[..n][..m] == nodes[..m];
    } else {
      assert |KeyLeaves(nodes[..n + 1])| == c;
    }
  }

  // ---------------------------------------------------------------------------
  // compare_keys, as a reference definition

  /**
    How many key leaves `compare_keys` compares.  The traversal of the sample stops
    after the first node at which the number of key leaves seen equals `keyCount`.
    With `keyCount == 0` that is the first node when it is not a key leaf (nothing is
    compared), and never otherwise.
  */
  function ComparedCount(sample: seq<Node>, keyCount: nat): (c: nat)
    ensures c <= |KeyLeaves(sample)|
  {
    var total := |KeyLeaves(sample)|;
    if keyCount == 0 then (if |sample| > 0 && IsKeyLeaf(sample[0]) then total else 0)
    else if keyCount < total then keyCount
    else total
  }

  /**
    The verdict of `compare_keys`: the j-th key leaf of the sample equals the j-th key
    leaf of the key template, for every compared j that the template has.
  */
  predicate KeysMatch(sample: seq<Node>, keys: seq<Node>, keyCount: nat) {
    MatchedUpTo(KeyLeaves(sample), KeyLeaves(keys), ComparedCount(sample, keyCount))
  }

  /** The first `c` key leaves agree in value, as far as the template has them. */
  predicate MatchedUpTo(sk: seq<Node>, kk: seq<Node>, c: nat)
    requires c <= |sk|
  {
    forall j :: 0 <= j < c && j < |kk| ==> sk[j].data == kk[j].data
  }

  lemma MatchedUpToStep(sk: seq<Node>, kk: seq<Node>, c: nat)
    requires c < |sk|
    ensures MatchedUpTo(sk, kk, c + 1) == (MatchedUpTo(sk, kk, c) && (c < |kk| ==> sk[c].data == kk[c].data))
  {
  }

  /** No prefix of the sample of length 1 to `i - 1` holds exactly `keyCount` key leaves. */
  predicate NoStopBefore(sample: seq<Node>, keyCount: nat, i: nat)
    requires i <= |sample| + 1
  {
    forall m :: 1 <= m < i ==> |KeyLeaves(sample[..m])| != keyCount
  }

  lemma NoStopBeforeStep(sample: seq<Node>, keyCount: nat, i: nat)
    requires 1 <= i <= |sample| && NoStopBefore(sample, keyCount, i)
    requires |KeyLeaves(sample[..i])| != keyCount
    ensures NoStopBefore(sample, keyCount, i + 1)
  {
  }

  /** A traversal stopped after its first `i` nodes compared exactly `keyCount` key leaves. */
  lemma StopPoint(sample: seq<Node>, keyCount: nat, i: nat)
    requires 1 <= i <= |sample|
    requires |KeyLeaves(sample[..i])| == keyCount
    requires NoStopBefore(sample, keyCount, i)
    ensures ComparedCount(sample, keyCount) == keyCount
  {
    KeyLeavesPrefix(sample, i);
    if keyCount == 0 && i > 1 {
      assert |KeyLeaves(sample[..1])| != 0;
      KeyLeavesPrefix(sample[..i], 1);
      assert false;
    }
    if keyCount == 0 {
      KeyLeavesStep(sample, 0);
    }
  }

  /** A traversal that never stopped compared every key leaf of the sample. */
  lemma NoStop(sample: seq<Node>, keyCount: nat)
    requires NoStopBefore(sample, keyCount, |sample| + 1)
    ensures ComparedCount(sample, keyCount) == |KeyLeaves(sample)|
  {
    if keyCount == 0 && |sample| > 0 {
      KeyLeavesStep(sample, 0);
      assert |KeyLeaves(sample[..1])| != 0;
    } else if keyCount > 0 && keyCount <= |KeyLeaves(sample)| {
      CountReaches(sample, keyCount);
    }
  }

  // ---------------------------------------------------------------------------
  // Binding the key template to the parameters (the traversal in add_type)

  /** The key kinds `add_type` converts a parameter for; the others take none. */
  predicate ConvertedKind(k: TypeKind) {
    match k
    case BooleanType | UInt8Type | UInt16Type | UInt32Type | UInt64Type
       | Int8Type | Int16Type | Int32Type | Int64Type | Float32Type | Float64Type
       | StringType | Char8Type | EnumerationType => true
    case _ => false
  }

  /** The value a key member of kind `k` gets from parameter `p`, none for an unsupported kind. */
  function KeyDatum(k: TypeKind, p: string, parseReal: string -> Result<real, Failure>): (r: Result<Option<Datum>, Failure>)
    ensures r == Ok(None) <==> !ConvertedKind(k)
  {
    match k
    case BooleanType => Ok(Some(BoolVal(StreamBool(p))))
    case UInt8Type => IntegerKey(Stoul(p), Some(U8))
    case UInt16Type => IntegerKey(Stoul(p), Some(U16))
    case UInt32Type => IntegerKey(Stoul(p), Some(U32))
    case UInt64Type => IntegerKey(Stoul(p), None)
    case Int8Type => IntegerKey(Stoi(p), Some(I8))
    case Int16Type => IntegerKey(Stoi(p), Some(I16))
    case Int32Type => IntegerKey(Stoi(p), None)
    case Int64Type => IntegerKey(Stoll(p), None)
    case Float32Type | Float64Type => RealKey(parseReal(p))
    case StringType => Ok(Some(StrVal(p)))
    case Char8Type => Ok(Some(CharVal(if |p| > 0 then p[0] else 0 as char)))
    case EnumerationType => IntegerKey(Stoul(p), Some(U32))
    case _ => Ok(None)
  }

  /** A parsed integer key, cast to the member's width when it is narrower than the parse. */
  function IntegerKey(parsed: Result<int, Failure>, w: Option<IntWidth>): (r: Result<Option<Datum>, Failure>)
    ensures r.Ok? ==> r.value.Some?
  {
    match parsed
    case Err(f) => Err(f)
    case Ok(v) => Ok(Some(IntVal(if w.Some? then Cast(v, w.value) else v)))
  }

  function RealKey(parsed: Result<real, Failure>): (r: Result<Option<Datum>, Failure>)
    ensures r.Ok? ==> r.value.Some?
  {
    match parsed
    case Err(f) => Err(f)
    case Ok(x) => Ok(Some(RealVal(x)))
  }

  /** The traversal so far: the nodes visited (their values bound), the next parameter, an exception. */
  datatype Binding = Binding(bound: seq<Node>, next: nat, failure: Option<Failure>)

  /** One node of the traversal; after an exception the remaining nodes keep their values. */
  function BindStep(b: Binding, n: Node, params: seq<string>, typeName: string,
                    parseReal: string -> Result<real, Failure>): (r: Binding)
    requires 1 <= b.next <= |params|
    ensures 1 <= r.next <= |params|
  {
    if b.failure.Some? || !IsKeyLeaf(n) then Binding(b.bound + [n], b.next, b.failure)
    else if b.next == |params| then Binding(b.bound + [n], b.next, Some(RuntimeError(MoreKeysThanParameters(typeName))))
    else
      match KeyDatum(n.kind, params[b.next], parseReal)
      case Err(f) => Binding(b.bound + [n], b.next + 1, Some(f))
      case Ok(None) => Binding(b.bound + [n], b.next, None)
      case Ok(Some(d)) => Binding(b.bound + [n.(data := d)], b.next + 1, None)
  }

  /** The key template after `add_type`'s traversal, starting at parameter 1. */
  function BindKeys(nodes: seq<Node>, params: seq<string>, typeName: string,
                    parseReal: string -> Result<real, Failure>): (r: Binding)
    requires |params| >= 1
    ensures 1 <= r.next <= |params|
    ensures |r.bound| == |nodes|
    decreases |nodes|
  {
    if |nodes| == 0 then Binding([], 1, None)
    else BindStep(BindKeys(nodes[..|nodes| - 1], params, typeName, parseReal), nodes[|nodes| - 1],
                  params, typeName, parseReal)
  }

  /** The number of key leaves of converted kinds, i.e. of parameters a traversal consumes. */
  function Consumed(nodes: seq<Node>): nat
    decreases |nodes|
  {
    if |nodes| == 0 then 0
    else
      var n := nodes[|nodes| - 1];
      Consumed(nodes[..|nodes| - 1]) + (if IsKeyLeaf(n) && ConvertedKind(n.kind) then 1 else 0)
  }

  lemma BindKeysStep(nodes: seq<Node>, i: nat, params: seq<string>, typeName: string,
                     parseReal: string -> Result<real, Failure>)
    requires |params| >= 1 && i < |nodes|
    ensures BindKeys(nodes[..i + 1], params, typeName, parseReal)
         == BindStep(BindKeys(nodes[..i], params, typeName, parseReal), nodes[i], params, typeName, parseReal)
  {
    assert nodes[..i + 1][..i] == nodes[..i];
  }

  /** Once the traversal has thrown, the remaining nodes are passed through unchanged. */
  lemma {:induction false} BindStopAtThrow(nodes: seq<Node>, i: nat, params: seq<string>, typeName: string,
                                           parseReal: string -> Result<real, Failure>)
    requires |params| >= 1 && i <= |nodes|
    requires BindKeys(nodes[..i], params, typeName, parseReal).failure.Some?
    ensures var b := BindKeys(nodes[..i], params, typeName, parseReal);
      BindKeys(nodes, params, typeName, parseReal) == Binding(b.bound + nodes[i..], b.next, b.failure)
    decreases |nodes|
  {
    var b := BindKeys(nodes[..i], params, typeName, parseReal);
    if i == |nodes| {
      assert nodes[..i] == nodes;
    } else {
      var n := |nodes| - 1;
      assert nodes[..n][..i] == nodes[..i];
      BindStopAtThrow(nodes[..n], i, params, typeName, parseReal);
      var pre := BindKeys(nodes[..n], params, typeName, parseReal);
      assert pre == Binding(b.bound + nodes[..n][i..], b.next, b.failure);
      assert BindKeys(nodes, params, typeName, parseReal) == Binding(pre.bound + [nodes[n]], b.next, b.failure);
      calc {
        pre.bound + [nodes[n]];
        (b.bound + nodes[..n][i..]) + [nodes[n]];
        b.bound + (nodes[..n][i..] + [nodes[n]]);
        { assert nodes[..n][i..] + [nodes[n]] == nodes[i..]; }
        b.bound + nodes[i..];
      }
    }
  }

  /** A traversal that ended, at the last node or at an exception, has bound the whole template. */
  lemma BindFinished(original: seq<Node>, data: seq<Node>, i: nat, params: seq<string>, typeName: string,
                     parseReal: string -> Result<real, Failure>)
    requires |params| >= 1 && i <= |original| == |data|
    requires BindKeys(original[..i], params, typeName, parseReal).bound == data[..i]
    requires i == |original| || BindKeys(original[..i], params, typeName, parseReal).failure.Some?
    requires forall k :: i <= k < |data| ==> data[k] == original[k]
    ensures var b := BindKeys(original[..i], params, typeName, parseReal);
      BindKeys(original, params, typeName, parseReal) == Binding(data, b.next, b.failure)
  {
    if i == |original| {
      assert original[..i] == original && data[..i] == data;
    } else {
      BindStopAtThrow(original, i, params, typeName, parseReal);
      assert data == data[..i] + original[i..];
    }
  }

  /** Two nodes stand for the same member: only their values may differ. */
  predicate SameMember(a: Node, b: Node) {
    a.name == b.name && a.kind == b.kind && a.isKey == b.isKey
  }

  /** What one step of the traversal does to the node it visits. */
  lemma BindStepNode(b: Binding, n: Node, params: seq<string>, typeName: string,
                     parseReal: string -> Result<real, Failure>)
    requires 1 <= b.next <= |params|
    ensures var r := BindStep(b, n, params, typeName, parseReal);
      |r.bound| == |b.bound| + 1 && r.bound[..|b.bound|] == b.bound && SameMember(r.bound[|b.bound|], n) &&
      (!(IsKeyLeaf(n) && ConvertedKind(n.kind)) ==> r.bound[|b.bound|] == n)
  {
    var r := BindStep(b, n, params, typeName, parseReal);
    assert r.bound[..|b.bound|] == b.bound;
  }

  /** What one step of the traversal without an exception does to the parameter position. */
  lemma BindStepNext(b: Binding, n: Node, params: seq<string>, typeName: string,
                     parseReal: string -> Result<real, Failure>)
    requires 1 <= b.next <= |params|
    ensures var r := BindStep(b, n, params, typeName, parseReal);
      r.failure.None? ==>
        b.failure.None? &&
        r.next == b.next + (if IsKeyLeaf(n) && ConvertedKind(n.kind) then 1 else 0) &&
        (IsKeyLeaf(n) ==> b.next < |params|) &&
        (IsKeyLeaf(n) && ConvertedKind(n.kind) ==>
          KeyDatum(n.kind, params[b.next], parseReal) == Ok(Some(r.bound[|b.bound|].data)))
  {
  }

  /** Without an exception, the next parameter is one past the ones consumed. */
  lemma {:induction false} BindKeysNext(nodes: seq<Node>, params: seq<string>, typeName: string,
                                        parseReal: string -> Result<real, Failure>)
    requires |params| >= 1
    ensures var b := BindKeys(nodes, params, typeName, parseReal);
      b.failure.None? ==> b.next == 1 + Consumed(nodes)
    decreases |nodes|
  {
    if |nodes| > 0 {
      var n := |nodes| - 1;
      BindKeysNext(nodes[..n], params, typeName, parseReal);
      BindStepNext(BindKeys(nodes[..n], params, typeName, parseReal), nodes[n], params, typeName, parseReal);
    }
  }

  /** Binding a traversal binds each of its prefixes the same way, and an exception in a
      prefix is an exception of the whole. */
  lemma {:induction false} BindKeysPrefix(nodes: seq<Node>, j: nat, params: seq<string>, typeName: string,
                                          parseReal: string -> Result<real, Failure>)
    requires |params| >= 1 && j <= |nodes|
    ensures BindKeys(nodes, params, typeName, parseReal).bound[..j] == BindKeys(nodes[..j], params, typeName, parseReal).bound
    ensures BindKeys(nodes, params, typeName, parseReal).failure.None? ==>
      BindKeys(nodes[..j], params, typeName, parseReal).failure.None?
    decreases |nodes|
  {
    if j == |nodes| {
      assert nodes[..j] == nodes;
    } else {
      var n := |nodes| - 1;
      var p := BindKeys(nodes[..n], params, typeName, parseReal);
      BindKeysPrefix(nodes[..n], j, params, typeName, parseReal);
      assert nodes[..n][..j] == nodes[..j];
      BindStepNode(p, nodes[n], params, typeName, parseReal);
      BindStepNext(p, nodes[n], params, typeName, parseReal);
      var b := BindKeys(nodes, params, typeName, parseReal);
      assert b.bound[..j] == b.bound[..n][..j];
    }
  }

  /** Binding changes only the values of key leaves of converted kinds. */
  lemma BindKeysShape(nodes: seq<Node>, i: nat, params: seq<string>, typeName: string,
                      parseReal: string -> Result<real, Failure>)
    requires |params| >= 1 && i < |nodes|
    ensures var b := BindKeys(nodes, params, typeName, parseReal);
      SameMember(b.bound[i], nodes[i]) &&
      (!(IsKeyLeaf(nodes[i]) && ConvertedKind(nodes[i].kind)) ==> b.bound[i] == nodes[i])
  {
    var p := BindKeys(nodes[..i], params, typeName, parseReal);
    var b := BindKeys(nodes, params, typeName, parseReal);
    BindKeysPrefix(nodes, i + 1, params, typeName, parseReal);
    BindKeysStep(nodes, i, params, typeName, parseReal);
    BindStepNode(p, nodes[i], params, typeName, parseReal);
    assert b.bound[i] == b.bound[..i + 1][i];
  }

  /**
    Without an exception, every key leaf was met while parameters remained, and the k-th
    key leaf of a converted kind holds the conversion of parameter k (counting from 1,
    after the GUID).
  */
  lemma BindKeysPositional(nodes: seq<Node>, i: nat, params: seq<string>, typeName: string,
                           parseReal: string -> Result<real, Failure>)
    requires |params| >= 1 && i < |nodes| && IsKeyLeaf(nodes[i])
    requires BindKeys(nodes, params, typeName, parseReal).failure.None?
    ensures 1 + Consumed(nodes[..i]) < |params|
    ensures ConvertedKind(nodes[i].kind) ==>
      KeyDatum(nodes[i].kind, params[1 + Consumed(nodes[..i])], parseReal)
        == Ok(Some(BindKeys(nodes, params, typeName, parseReal).bound[i].data))
  {
    var p := BindKeys(nodes[..i], params, typeName, parseReal);
    var b := BindKeys(nodes, params, typeName, parseReal);
    BindKeysPrefix(nodes, i + 1, params, typeName, parseReal);
    BindKeysStep(nodes, i, params, typeName, parseReal);
    BindStepNode(p, nodes[i], params, typeName, parseReal);
    BindStepNext(p, nodes[i], params, typeName, parseReal);
    BindKeysNext(nodes[..i], params, typeName, parseReal);
    assert b.bound[i] == b.bound[..i + 1][i];
  }

  /** More key leaves of converted kinds than parameters after the GUID make the traversal throw. */
  lemma TooFewParameters(nodes: seq<Node>, params: seq<string>, typeName: string,
                         parseReal: string -> Result<real, Failure>)
    requires |params| >= 1 && Consumed(nodes) >= |params|
    ensures BindKeys(nodes, params, typeName, parseReal).failure.Some?
  {
    BindKeysNext(nodes, params, typeName, parseReal);
  }

  // ---------------------------------------------------------------------------
  // One reader's entry

  /** What the registry keeps per reader GUID: the type name, the bound key template and `key_count`. */
  datatype Registered = Registered(typeName: string, keyData: seq<Node>, keyCount: nat)

  /** `FilterMemberType`: the key template and the sample of one reader's type. */
  class FilterMemberType {
    var keyData: seq<Node>
    var sampleData: seq<Node>
    var keyCount: nat
    var typeName: string

    function Entry(): Registered
      reads this
    {
      Registered(typeName, keyData, keyCount)
    }

    /** Both node sequences start as the default instance; `key_count` starts at 0.  The
        check that the data type is dynamic happens before (see `CustomKeyFilter.AddType`). */
    constructor (tt: TopicType, typeName: string)
      requires tt.isDynamic
      ensures keyData == tt.instance && sampleData == tt.instance
      ensures keyCount == 0 && this.typeName == typeName
    {
      keyData := tt.instance;
      sampleData := tt.instance;
      keyCount := 0;
      this.typeName := typeName;
    }

    /** The traversal of `key_data` in `add_type`: bind each key leaf to the next parameter. */
    method BindParameters(params: seq<string>, parseReal: string -> Result<real, Failure>)
      returns (next: nat, failure: Option<Failure>)
      requires |params| >= 1
      modifies this
      ensures BindKeys(old(keyData), params, typeName, parseReal) == Binding(keyData, next, failure)
      ensures sampleData == old(sampleData) && keyCount == old(keyCount) && typeName == old(typeName)
    {
      var data := keyData;
      ghost var original := data;
      next, failure := 1, None;
      var i := 0;
      while i < |data| && failure.None?
        invariant 0 <= i <= |data| == |original|
        invariant BindKeys(original[..i], params, typeName, parseReal) == Binding(data[..i], next, failure)
        invariant forall k :: i <= k < |data| ==> data[k] == original[k]
        invariant keyData == original && sampleData == old(sampleData) && keyCount == old(keyCount) && typeName == old(typeName)
      {
        BindKeysStep(original, i, params, typeName, parseReal);
        var bound, n, f := BindNode(data[i], next, params, parseReal, data[..i]);
        assert data[..i] + [bound] == data[i := bound][..i + 1];
        data, next, failure := data[i := bound], n, f;
        i := i + 1;
      }
      BindFinished(original, data, i, params, typeName, parseReal);
      keyData := data;
    }

    /** The traversal callback of `add_type` on one node, before any exception. */
    method BindNode(node: Node, next: nat, params: seq<string>, parseReal: string -> Result<real, Failure>,
                    ghost prefix: seq<Node>)
      returns (bound: Node, next': nat, failure: Option<Failure>)
      requires 1 <= next <= |params|
      ensures BindStep(Binding(prefix, next, None), node, params, typeName, parseReal) == Binding(prefix + [bound], next', failure)
    {
      bound, next', failure := node, next, None;
      if IsKeyLeaf(node) {
        if next == |params| {
          failure := Some(RuntimeError(MoreKeysThanParameters(typeName)));
        } else {
          var converted := KeyDatum(node.kind, params[next], parseReal);
          match converted {
            case Err(f) =>
              next', failure := next + 1, Some(f);
            case Ok(None) =>
            case Ok(Some(d)) =>
              bound := node.(data := d);
              next' := next + 1;
          }
        }
      }
    }

    /** The inner traversal of `compare_keys`: match sample key leaf number `keyA` against the template. */
    method CompareWithTemplate(a: Node, keyA: nat, eqIn: bool) returns (eq: bool)
      ensures eq == (eqIn && (keyA < |KeyLeaves(keyData)| ==> a.data == KeyLeaves(keyData)[keyA].data))
    {
      var keys := keyData;
      ghost var kk := KeyLeaves(keys);
      eq := eqIn;
      var keyB := 0;
      var k := 0;
      while k < |keys|
        invariant 0 <= k <= |keys|
        invariant keyB == |KeyLeaves(keys[..k])| <= |kk|
        invariant eq == (eqIn && (keyA < keyB ==> a.data == kk[keyA].data))
      {
        KeyLeavesStep(keys, k);
        if IsKeyLeaf(keys[k]) {
          KeyLeavesAt(keys, k);
          if keyA == keyB {
            eq := eq && a.data == keys[k].data;
          }
          keyB := keyB + 1;
        }
        KeyLeavesPrefix(keys, k + 1);
        k := k + 1;
      }
      assert keys[..k] == keys;
    }

    /** `compare_keys`: the positional comparison of the sample's key leaves against the template. */
    method CompareKeys() returns (isEqual: bool)
      ensures isEqual == KeysMatch(sampleData, keyData, keyCount)
    {
      var sample, count := sampleData, keyCount;
      ghost var sk, kk := KeyLeaves(sample), KeyLeaves(keyData);
      isEqual := true;
      var keyA := 0;
      var i := 0;
      var stopped := false;
      while i < |sample| && !stopped
        invariant 0 <= i <= |sample|
        invariant keyA == |KeyLeaves(sample[..i])| <= |sk|
        invariant isEqual == MatchedUpTo(sk, kk, keyA)
        invariant stopped ==> 1 <= i && keyA == count
        invariant NoStopBefore(sample, count, i)
        invariant !stopped && 1 <= i ==> keyA != count
      {
        var a := sample[i];
        KeyLeavesStep(sample, i);
        if i >= 1 {
          NoStopBeforeStep(sample, count, i);
        }
        if IsKeyLeaf(a) {
          KeyLeavesAt(sample, i);
          MatchedUpToStep(sk, kk, keyA);
          isEqual := CompareWithTemplate(a, keyA, isEqual);
          keyA := keyA + 1;
        }
        KeyLeavesPrefix(sample, i + 1);
        if keyA == count {
          stopped := true;
        }
        i := i + 1;
      }
      if stopped {
        StopPoint(sample, count, i);
      } else {
        assert sample[..i] == sample;
        if i >= 1 {
          NoStopBeforeStep(sample, count, i);
        }
        NoStop(sample, count);
      }
    }
  }

  // ---------------------------------------------------------------------------
  // The registry

  /** `add_type` on the registry, as a function. */
  function AddTypeSpec(reg: map<string, Registered>, tt: TopicType, typeName: string, params: seq<string>,
                       parseReal: string -> Result<real, Failure>): (map<string, Registered>, Outcome<bool>)
    requires |params| >= 1
  {
    if params[0] == GuidUnknown then (reg, Returned(false))
    else if !tt.isDynamic then (reg, Raised(RuntimeError(NotDynamic)))
    else
      var b := BindKeys(tt.instance, params, typeName, parseReal);
      (reg[params[0] := Registration(typeName, b)], BindOutcome(b))
  }

  /** The entry a finished traversal leaves: `key_count` is set only when nothing was thrown. */
  function Registration(typeName: string, b: Binding): Registered
    requires b.next >= 1
  {
    Registered(typeName, b.bound, if b.failure.None? then b.next - 1 else 0)
  }

  function BindOutcome(b: Binding): Outcome<bool> {
    if b.failure.None? then Returned(true) else Raised(b.failure.value)
  }

  /** The verdict of `evaluate`, as a function of the registry and the decoding outcome. */
  datatype Decoding = CopyFailed | DeserializeFailed | ConversionFailed | Converted(sample: seq<Node>)

  predicate Accepts(reg: map<string, Registered>, guid: string, d: Decoding) {
    guid in reg && d.Converted? && KeysMatch(d.sample, reg[guid].keyData, reg[guid].keyCount)
  }

  /** `CustomKeyFilter`: the map from reader GUID to its key template. */
  class CustomKeyFilter {
    var memberTypes: map<string, FilterMemberType>

    function Registry(): map<string, Registered>
      reads this, memberTypes.Values
    {
      map g | g in memberTypes :: memberTypes[g].Entry()
    }

    constructor Empty()
      ensures Registry() == map[]
    {
      memberTypes := map[];
    }

    /** The `CustomKeyFilter` constructor: an empty registry, then exactly one `add_type`. */
    static method Create(tt: TopicType, typeName: string, params: seq<string>,
                         parseReal: string -> Result<real, Failure>)
      returns (filter: CustomKeyFilter, outcome: Outcome<bool>)
      requires |params| >= 1
      ensures fresh(filter)
      ensures (filter.Registry(), outcome) == AddTypeSpec(map[], tt, typeName, params, parseReal)
    {
      filter := new CustomKeyFilter.Empty();
      outcome := filter.AddType(tt, typeName, params, parseReal);
    }

    /** `has_reader_GUID`. */
    function HasReaderGuid(guid: string): (r: bool)
      reads this, memberTypes.Values
      ensures r <==> guid in Registry()
    {
      guid in memberTypes
    }

    /** `add_type`: an unknown GUID is ignored; otherwise the entry is inserted or replaced
        before its keys are bound, so it stays, with `key_count` 0, when binding throws. */
    method AddType(tt: TopicType, typeName: string, params: seq<string>,
                   parseReal: string -> Result<real, Failure>) returns (outcome: Outcome<bool>)
      requires |params| >= 1
      modifies this
      ensures (Registry(), outcome) == AddTypeSpec(old(Registry()), tt, typeName, params, parseReal)
    {
      if params[0] == GuidUnknown {
        return Returned(false);
      }
      if !tt.isDynamic {
        return Raised(RuntimeError(NotDynamic));
      }
      outcome := InsertMember(tt, typeName, params, parseReal);
    }

    /** The `insert_or_assign` of a new entry for `params[0]` and the binding of its keys.  The
        entry is bound before it is stored; nothing can observe it in between. */
    method InsertMember(tt: TopicType, typeName: string, params: seq<string>,
                        parseReal: string -> Result<real, Failure>) returns (outcome: Outcome<bool>)
      requires |params| >= 1 && tt.isDynamic
      modifies this
      ensures var b := BindKeys(tt.instance, params, typeName, parseReal);
        Registry() == old(Registry())[params[0] := Registration(typeName, b)] && outcome == BindOutcome(b)
    {
      var member := new FilterMemberType(tt, typeName);
      var next, failure := member.BindParameters(params, parseReal);
      if failure.None? {
        member.keyCount := next - 1;
        outcome := Returned(true);
      } else {
        outcome := Raised(failure.value);
      }
      assert member.Entry() == Registration(typeName, BindKeys(tt.instance, params, typeName, parseReal));
      assert Registry() == old(Registry());
      Store(params[0], member);
    }

    /** Stores `member` under `guid`, replacing any entry there. */
    method Store(guid: string, member: FilterMemberType)
      modifies this
      ensures Registry() == old(Registry())[guid := member.Entry()]
    {
      ghost var before := Registry();
      memberTypes := memberTypes[guid := member];
      ghost var after := before[guid := member.Entry()];
      assert Registry().Keys == after.Keys;
      forall g | g in memberTypes
        ensures Registry()[g] == after[g]
      {
        if g != guid {
          assert memberTypes[g] == old(memberTypes)[g];
        }
      }
    }

    /** `evaluate`: an unknown reader, or a payload that cannot be copied, deserialised or
        converted, is rejected; otherwise the verdict of `compare_keys` on the converted sample. */
    method Evaluate(guid: string, decoded: Decoding) returns (accept: bool)
      modifies memberTypes.Values
      ensures accept == Accepts(old(Registry()), guid, decoded)
      ensures Registry() == old(Registry())
    {
      if guid !in memberTypes {
        return false;
      }
      var member := memberTypes[guid];
      match decoded {
        case CopyFailed => return false;
        case DeserializeFailed => return false;
        case ConversionFailed => return false;
        case Converted(sample) =>
          ghost var before := Registry();
          member.sampleData := sample;
          assert Registry() == before;
          accept := member.CompareKeys();
      }
    }
  }

  // ---------------------------------------------------------------------------
  // Properties of registration and evaluation

  /** The placeholder GUID registers nothing and returns false. */
  lemma GuidUnknownIgnored(reg: map<string, Registered>, tt: TopicType, typeName: string, params: seq<string>,
                           parseReal: string -> Result<real, Failure>)
    requires |params| >= 1 && params[0] == GuidUnknown
    ensures AddTypeSpec(reg, tt, typeName, params, parseReal) == (reg, Returned(false))
  {
  }

  /**
    For a real GUID and a dynamic type, the GUID's entry is inserted or replaced and no other
    entry changes; the call returns true exactly when binding does not throw, and `key_count`
    is then the number of parameters consumed.
  */
  lemma AddTypeRegisters(reg: map<string, Registered>, tt: TopicType, typeName: string, params: seq<string>,
                         parseReal: string -> Result<real, Failure>)
    requires |params| >= 1 && params[0] != GuidUnknown && tt.isDynamic
    ensures var (reg', out) := AddTypeSpec(reg, tt, typeName, params, parseReal);
      reg'.Keys == reg.Keys + {params[0]} &&
      (forall g :: g in reg && g != params[0] ==> reg'[g] == reg[g]) &&
      (out == Returned(true) <==> BindKeys(tt.instance, params, typeName, parseReal).failure.None?) &&
      (out.Returned? ==> reg'[params[0]].keyCount == Consumed(tt.instance) <= |params| - 1)
  {
    BindKeysNext(tt.instance, params, typeName, parseReal);
  }

  /** A reader whose binding threw keeps `key_count` 0, so it accepts every converted sample
      whose traversal starts with a node that is not a key leaf (a struct root, say). */
  lemma FailedBindingAcceptsAll(reg: map<string, Registered>, tt: TopicType, typeName: string, params: seq<string>,
                                parseReal: string -> Result<real, Failure>, sample: seq<Node>)
    requires |params| >= 1 && params[0] != GuidUnknown && tt.isDynamic
    requires BindKeys(tt.instance, params, typeName, parseReal).failure.Some?
    requires |sample| > 0 && !IsKeyLeaf(sample[0])
    ensures Accepts(AddTypeSpec(reg, tt, typeName, params, parseReal).0, params[0], Converted(sample))
  {
  }

  /** Non-key nodes of a sample play no part once at least one key is expected. */
  lemma NonKeyNodesIrrelevant(s: seq<Node>, t: seq<Node>, keys: seq<Node>, keyCount: nat)
    requires keyCount >= 1 && KeyLeaves(s) == KeyLeaves(t)
    ensures KeysMatch(s, keys, keyCount) <==> KeysMatch(t, keys, keyCount)
  {
  }

  /** A sample whose key leaves carry exactly the template's values is accepted. */
  lemma SameKeysAccepted(sample: seq<Node>, keys: seq<Node>, keyCount: nat)
    requires |KeyLeaves(sample)| == |KeyLeaves(keys)|
    requires forall j :: 0 <= j < |KeyLeaves(keys)| ==> KeyLeaves(sample)[j].data == KeyLeaves(keys)[j].data
    ensures KeysMatch(sample, keys, keyCount)
  {
  }

  // ---------------------------------------------------------------------------
  // CustomKeyFilterFactory

  datatype ReturnCode = RetcodeOk | RetcodeBadParameter

  const CustomKeyFilterName := "CUSTOM_KEY_FILTER"

  /** The outcome of `create_content_filter` and the registry of the filter instance afterwards
      (`None` for a null instance). */
  function CreateSpec(className: string, typeName: string, tt: TopicType, params: seq<string>,
                      parseReal: string -> Result<real, Failure>, existing: Option<map<string, Registered>>)
    : (Outcome<ReturnCode>, Option<map<string, Registered>>)
  {
    if className != CustomKeyFilterName || |params| < 1 then (Returned(RetcodeBadParameter), existing)
    else if existing.None? then
      var (reg, out) := AddTypeSpec(map[], tt, typeName, params, parseReal);
      match out
      case Raised(RuntimeError(_)) => (Returned(RetcodeBadParameter), None)
      case Raised(f) => (Raised(f), None)
      case Returned(_) => AddReader(typeName, tt, params, parseReal, reg)
    else AddReader(typeName, tt, params, parseReal, existing.value)
  }

  /** The second half of `create_content_filter`: register a real GUID once. */
  function AddReader(typeName: string, tt: TopicType, params: seq<string>,
                     parseReal: string -> Result<real, Failure>, reg: map<string, Registered>)
    : (Outcome<ReturnCode>, Option<map<string, Registered>>)
    requires |params| >= 1
  {
    if params[0] != GuidUnknown && params[0] !in reg then
      var (reg', out) := AddTypeSpec(reg, tt, typeName, params, parseReal);
      match out
      case Raised(RuntimeError(_)) => (Returned(RetcodeBadParameter), Some(reg'))
      case Raised(f) => (Raised(f), Some(reg'))
      case Returned(_) => (Returned(RetcodeOk), Some(reg'))
    else (Returned(RetcodeOk), Some(reg))
  }

  /** `create_content_filter`, with the filter instance as the in-out parameter. */
  method CreateContentFilter(className: string, typeName: string, tt: TopicType, params: seq<string>,
                             parseReal: string -> Result<real, Failure>, instance: CustomKeyFilter?)
    returns (outcome: Outcome<ReturnCode>, filter: CustomKeyFilter?)
    modifies instance
    ensures instance != null ==> filter == instance
    ensures instance == null && filter != null ==> fresh(filter)
    ensures var (o, reg) := CreateSpec(className, typeName, tt, params, parseReal,
                                       if instance == null then None else Some(old(instance.Registry())));
      outcome == o && (filter == null <==> reg.None?) && (filter != null ==> filter.Registry() == reg.value)
  {
    filter := instance;
    if className != CustomKeyFilterName {
      return Returned(RetcodeBadParameter), filter;
    }
    if |params| < 1 {
      return Returned(RetcodeBadParameter), filter;
    }
    if filter == null {
      var created, out := CustomKeyFilter.Create(tt, typeName, params, parseReal);
      if out.Raised? {
        if out.failure.RuntimeError? {
          return Returned(RetcodeBadParameter), null;
        }
        return Raised(out.failure), null;
      }
      filter := created;
    }
    if params[0] != GuidUnknown {
      if !filter.HasReaderGuid(params[0]) {
        var out := filter.AddType(tt, typeName, params, parseReal);
        if out.Raised? {
          if out.failure.RuntimeError? {
            return Returned(RetcodeBadParameter), filter;
          }
          return Raised(out.failure), filter;
        }
      }
    }
    return Returned(RetcodeOk), filter;
  }

  /** A wrong class name or an empty parameter list is refused and touches nothing. */
  lemma CreateGuards(className: string, typeName: string, tt: TopicType, params: seq<string>,
                     parseReal: string -> Result<real, Failure>, existing: Option<map<string, Registered>>)
    requires className != CustomKeyFilterName || |params| < 1
    ensures CreateSpec(className, typeName, tt, params, parseReal, existing) == (Returned(RetcodeBadParameter), existing)
  {
  }

  /** A reader GUID is registered once: later calls with it leave the registry as it is and succeed. */
  lemma RegisteredOnce(typeName: string, tt: TopicType, params: seq<string>,
                       parseReal: string -> Result<real, Failure>, reg: map<string, Registered>)
    requires |params| >= 1 && params[0] in reg
    ensures CreateSpec(CustomKeyFilterName, typeName, tt, params, parseReal, Some(reg)) == (Returned(RetcodeOk), Some(reg))
  {
  }

  /**
    On success with a real GUID, the GUID is registered afterwards and every other reader's
    entry is as before.
  */
  lemma CreateRegistersReader(typeName: string, tt: TopicType, params: seq<string>,
                              parseReal: string -> Result<real, Failure>, existing: Option<map<string, Registered>>)
    requires |params| >= 1 && params[0] != GuidUnknown
    ensures var (o, reg) := CreateSpec(CustomKeyFilterName, typeName, tt, params, parseReal, existing);
      o == Returned(RetcodeOk) ==>
        reg.Some? && params[0] in reg.value &&
        (existing.Some? ==> forall g :: g in existing.value && g != params[0] ==> g in reg.value && reg.value[g] == existing.value[g])
  {
  }

  /** `delete_content_filter`: refused for a wrong class name or a null instance. */
  function DeleteContentFilter(className: string, instanceIsNull: bool): (r: ReturnCode)
    ensures r == RetcodeOk <==> className == CustomKeyFilterName && !instanceIsNull
  {
    if className != CustomKeyFilterName || instanceIsNull then RetcodeBadParameter else RetcodeOk
  }
}
