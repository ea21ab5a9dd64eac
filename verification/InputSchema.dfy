/** The strict input schema of `crates/artifact/src/schema.rs`. */
module InputSchema {
  import opened Wrappers
  import opened Strings
  import opened JsonPointer

  datatype Property = Property(name: string, schema: Schema)

  datatype Schema =
    | ObjectSchema(properties: seq<Property>, required: seq<string>, maxProperties: nat)
    | ArraySchema(items: Schema, maxItems: nat)
    | StringSchema(maxUtf8Bytes: nat)
    | IntegerSchema(minimum: Option<int>, maximum: Option<int>)
    | BooleanSchema
    | NullSchema

  datatype Limits = Limits(maxBytes: nat, maxDepth: nat)

  datatype SchemaError =
    | BytesLimit | DepthLimit
    | TooDeep | MaxPropertiesRange | TooManyProperties | UndeclaredRequired | PropertyName
    | MaxItemsRange | StringLimit | UnsafeBounds | EmptyRange

  datatype Reason =
    | ExpectedObject | TooManyFields | UnknownField | MissingField
    | ExpectedArray | TooManyItems | ExpectedString | StringTooLong
    | ExpectedInteger | UnsafeInteger | OutOfRange | ExpectedBoolean | ExpectedNull

  datatype Mismatch = Mismatch(path: string, reason: Reason)

  const MAX_INPUT_BYTES := 1048576
  const MAX_INPUT_DEPTH := 64
  const MAX_SCHEMA_PROPERTIES := 256
  const MAX_ARRAY_ITEMS := 65536
  const SAFE_MIN: int := -9007199254740991
  const SAFE_MAX: int := 9007199254740991

  // ------------------------------------------------------------ declarations

  function SubSchemas(s: Schema): (children: seq<Schema>)
    ensures forall i | 0 <= i < |children| :: children[i] < s
  {
    match s
    case ObjectSchema(properties, _, _) => seq(|properties|, i requires 0 <= i < |properties| => properties[i].schema)
    case ArraySchema(items, _) => [items]
    case _ => []
  }

  function FindProperty(properties: seq<Property>, name: string): (r: Option<nat>)
    ensures r.Some? ==> r.value < |properties| && properties[r.value].name == name
    ensures r.None? ==> forall p <- properties :: p.name != name
  {
    if properties == [] then None
    else if properties[0].name == name then Some(0)
    else
      var rest := FindProperty(properties[1..], name);
      if rest.Some? then Some(rest.value + 1) else None
  }

  predicate PropertyNameOk(name: string) { name != "" && Utf8Length(name) <= 128 && forall c <- name :: !IsControl(c) }

  /** `as_i64` answers. */
  predicate FitsI64(n: int) { -0x8000_0000_0000_0000 <= n < 0x8000_0000_0000_0000 }

  predicate Safe(n: int) { SAFE_MIN <= n <= SAFE_MAX }

  function LimitsFault(limits: Limits): Check<SchemaError> {
    if limits.maxBytes == 0 || limits.maxBytes > MAX_INPUT_BYTES then Fail(BytesLimit)
    else if limits.maxDepth == 0 || limits.maxDepth > MAX_INPUT_DEPTH then Fail(DepthLimit)
    else Pass
  }

  /** The checks on one schema node, in the order they are made. */
  function NodeFault(s: Schema, depth: nat, limits: Limits): Check<SchemaError> {
    if depth > limits.maxDepth then Fail(TooDeep)
    else
      match s
      case ObjectSchema(properties, required, maxProperties) =>
        if maxProperties == 0 || maxProperties > MAX_SCHEMA_PROPERTIES then Fail(MaxPropertiesRange)
        else if |properties| > maxProperties then Fail(TooManyProperties)
        else if exists name <- required :: FindProperty(properties, name).None? then Fail(UndeclaredRequired)
        else if exists p <- properties :: !PropertyNameOk(p.name) then Fail(PropertyName)
        else Pass
      case ArraySchema(_, maxItems) => if maxItems == 0 || maxItems > MAX_ARRAY_ITEMS then Fail(MaxItemsRange) else Pass
      case StringSchema(maxUtf8Bytes) =>
        if maxUtf8Bytes == 0 || maxUtf8Bytes > limits.maxBytes then Fail(StringLimit) else Pass
      case IntegerSchema(minimum, maximum) =>
        if (minimum.Some? && !Safe(minimum.value)) || (maximum.Some? && !Safe(maximum.value)) then Fail(UnsafeBounds)
        else if minimum.Some? && maximum.Some? && minimum.value > maximum.value then Fail(EmptyRange)
        else Pass
      case _ => Pass
  }

  /** The limits an operation may declare. */
  predicate LimitsDeclared(limits: Limits) { 1 <= limits.maxBytes <= 1048576 && 1 <= limits.maxDepth <= 64 }

  predicate SafeBound(bound: Option<int>) {
    bound.Some? ==> -9007199254740991 <= bound.value <= 9007199254740991
  }

  /** What a node may declare. */
  predicate NodeDeclared(s: Schema, depth: nat, limits: Limits) {
    && depth <= limits.maxDepth
    && match s
       case ObjectSchema(properties, required, maxProperties) =>
         && 1 <= maxProperties <= 256 && |properties| <= maxProperties
         && (forall name <- required :: exists p <- properties :: p.name == name)
         && (forall p <- properties :: p.name != "" && Utf8Length(p.name) <= 128 && forall c <- p.name :: !IsControl(c))
       case ArraySchema(_, maxItems) => 1 <= maxItems <= 65536
       case StringSchema(maxUtf8Bytes) => 1 <= maxUtf8Bytes <= limits.maxBytes
       case IntegerSchema(minimum, maximum) =>
         && SafeBound(minimum) && SafeBound(maximum)
         && (minimum.Some? && maximum.Some? ==> minimum.value <= maximum.value)
       case BooleanSchema => true
       case NullSchema => true
  }

  /** Every node of the schema is well declared: the recursive definition. */
  predicate Declared(s: Schema, depth: nat, limits: Limits) {
    && NodeDeclared(s, depth, limits)
    && forall i | 0 <= i < |SubSchemas(s)| :: Declared(SubSchemas(s)[i], depth + 1, limits)
  }

  /** What is wrong with a node, by the error that is reported. */
  predicate NodeLacks(e: SchemaError, s: Schema, depth: nat, limits: Limits) {
    match e
    case TooDeep => depth > limits.maxDepth
    case MaxPropertiesRange => s.ObjectSchema? && !(1 <= s.maxProperties <= 256)
    case TooManyProperties => s.ObjectSchema? && |s.properties| > s.maxProperties
    case UndeclaredRequired => s.ObjectSchema? && exists name <- s.required :: forall p <- s.properties :: p.name != name
    case PropertyName => s.ObjectSchema? && exists p <- s.properties :: !PropertyNameOk(p.name)
    case MaxItemsRange => s.ArraySchema? && !(1 <= s.maxItems <= 65536)
    case StringLimit => s.StringSchema? && !(1 <= s.maxUtf8Bytes <= limits.maxBytes)
    case UnsafeBounds => s.IntegerSchema? && !(SafeBound(s.minimum) && SafeBound(s.maximum))
    case EmptyRange => s.IntegerSchema? && s.minimum.Some? && s.maximum.Some? && s.minimum.value > s.maximum.value
    case BytesLimit => false
    case DepthLimit => false
  }

  lemma NodeFaultMeaning(s: Schema, depth: nat, limits: Limits)
    ensures NodeFault(s, depth, limits).Pass? <==> NodeDeclared(s, depth, limits)
    ensures NodeFault(s, depth, limits).Fail? ==> NodeLacks(NodeFault(s, depth, limits).error, s, depth, limits)
  {
    if s.ObjectSchema? {
      forall name <- s.required
        ensures FindProperty(s.properties, name).None? <==> !exists p <- s.properties :: p.name == name
      {
        if FindProperty(s.properties, name).Some? {
          assert s.properties[FindProperty(s.properties, name).value] in s.properties;
        }
      }
    }
  }

  /** The order in which the checks of a node are made. */
  function Order(e: SchemaError): nat {
    match e
    case TooDeep => 0
    case MaxPropertiesRange => 1
    case TooManyProperties => 2
    case UndeclaredRequired => 3
    case PropertyName => 4
    case MaxItemsRange => 1
    case StringLimit => 1
    case UnsafeBounds => 1
    case EmptyRange => 2
    case BytesLimit => 0
    case DepthLimit => 0
  }

  /** Of several faults of a node the first check that fails is reported. */
  lemma FirstFaultIsReported(s: Schema, depth: nat, limits: Limits, e: SchemaError)
    requires NodeLacks(e, s, depth, limits)
    ensures NodeFault(s, depth, limits).Fail? && Order(NodeFault(s, depth, limits).error) <= Order(e)
  {
    NodeFaultMeaning(s, depth, limits);
    if s.ObjectSchema? {
      assert forall i | 0 <= i < |s.properties| :: s.properties[i] in s.properties;
    }
  }

  /** Some node of the schema lacks what the error says. */
  predicate SomeNodeLacks(e: SchemaError, s: Schema, depth: nat, limits: Limits)
    decreases s, 1
  {
    || NodeLacks(e, s, depth, limits)
    || SomeChildLacks(e, s, depth + 1, limits)
  }

  predicate SomeChildLacks(e: SchemaError, s: Schema, depth: nat, limits: Limits)
    decreases s, 0
  {
    exists i :: 0 <= i < |SubSchemas(s)| && SomeNodeLacks(e, SubSchemas(s)[i], depth, limits)
  }

  /** What is wrong with a declaration that is refused. */
  predicate RefusedFor(e: SchemaError, s: Schema, limits: Limits) {
    match e
    case BytesLimit => !(1 <= limits.maxBytes <= 1048576)
    case DepthLimit => !(1 <= limits.maxDepth <= 64)
    case _ => LimitsDeclared(limits) && SomeNodeLacks(e, s, 1, limits)
  }

  lemma LimitsMeaning(limits: Limits)
    ensures LimitsFault(limits).Pass? <==> LimitsDeclared(limits)
  {
  }

  lemma LimitsRefused(s: Schema, limits: Limits)
    requires LimitsFault(limits).Fail?
    ensures RefusedFor(LimitsFault(limits).error, s, limits)
  {
  }

  lemma DeclarationRefused(s: Schema, limits: Limits)
    requires LimitsFault(limits).Pass? && DeclarationFault(s, 1, limits).Fail?
    ensures RefusedFor(DeclarationFault(s, 1, limits).error, s, limits)
  {
    LimitsMeaning(limits);
    DeclarationFaultIsTrue(s, 1, limits);
  }

  lemma {:induction false} DeclarationFaultIsTrue(s: Schema, depth: nat, limits: Limits)
    requires DeclarationFault(s, depth, limits).Fail?
    ensures var e := DeclarationFault(s, depth, limits).error;
      SomeNodeLacks(e, s, depth, limits) && !e.BytesLimit? && !e.DepthLimit?
    decreases s, 0
  {
    NodeFaultMeaning(s, depth, limits);
    if NodeFault(s, depth, limits).Pass? {
      ChildrenFaultIsTrue(s, |SubSchemas(s)|, depth + 1, limits);
    }
  }

  lemma {:induction false} ChildrenFaultIsTrue(s: Schema, n: nat, depth: nat, limits: Limits)
    requires n <= |SubSchemas(s)| && ChildrenFault(s, n, depth, limits).Fail?
    ensures var e := ChildrenFault(s, n, depth, limits).error;
      SomeChildLacks(e, s, depth, limits) && !e.BytesLimit? && !e.DepthLimit?
    decreases s, 0, n
  {
    if DeclarationFault(SubSchemas(s)[n - 1], depth, limits).Fail? {
      DeclarationFaultIsTrue(SubSchemas(s)[n - 1], depth, limits);
    } else {
      ChildrenFaultIsTrue(s, n - 1, depth, limits);
    }
  }

  /** The fault that is reported: the node's own, else the first of its children taken from the last. */
  function DeclarationFault(s: Schema, depth: nat, limits: Limits): Check<SchemaError>
    decreases s, 0
  {
    var own := NodeFault(s, depth, limits);
    if own.Fail? then own else ChildrenFault(s, |SubSchemas(s)|, depth + 1, limits)
  }

  /** The fault of the first `n` children of `s`. */
  function ChildrenFault(s: Schema, n: nat, depth: nat, limits: Limits): Check<SchemaError>
    requires n <= |SubSchemas(s)|
    decreases s, 0, n
  {
    if n == 0 then Pass
    else
      var last := DeclarationFault(SubSchemas(s)[n - 1], depth, limits);
      if last.Fail? then last else ChildrenFault(s, n - 1, depth, limits)
  }

  lemma {:induction false} NoFaultIffDeclared(s: Schema, depth: nat, limits: Limits)
    ensures DeclarationFault(s, depth, limits).Pass? <==> Declared(s, depth, limits)
    decreases s, 0
  {
    NodeFaultMeaning(s, depth, limits);
    NoChildFault(s, |SubSchemas(s)|, depth + 1, limits);
    assert SubSchemas(s)[..|SubSchemas(s)|] == SubSchemas(s);
  }

  lemma {:induction false} NoChildFault(s: Schema, n: nat, depth: nat, limits: Limits)
    requires n <= |SubSchemas(s)|
    ensures ChildrenFault(s, n, depth, limits).Pass? <==> ChildrenDeclared(SubSchemas(s)[..n], depth, limits)
    decreases s, 0, n
  {
    if n > 0 {
      NoFaultIffDeclared(SubSchemas(s)[n - 1], depth, limits);
      NoChildFault(s, n - 1, depth, limits);
      OneMoreDeclared(SubSchemas(s)[..n - 1], SubSchemas(s)[n - 1], depth, limits);
      assert SubSchemas(s)[..n] == SubSchemas(s)[..n - 1] + [SubSchemas(s)[n - 1]];
    }
  }

  predicate ChildrenDeclared(children: seq<Schema>, depth: nat, limits: Limits) {
    forall i | 0 <= i < |children| :: Declared(children[i], depth, limits)
  }

  lemma OneMoreDeclared(children: seq<Schema>, last: Schema, depth: nat, limits: Limits)
    ensures ChildrenDeclared(children + [last], depth, limits)
      <==> ChildrenDeclared(children, depth, limits) && Declared(last, depth, limits)
  {
    var all := children + [last];
    assert all[|children|] == last;
    assert forall i | 0 <= i < |children| :: all[i] == children[i];
  }

  // ---------------------------------------------------- the explicit stack

  datatype Pending<T> = Pending(node: T, depth: nat)

  function SchemaSize(s: Schema): nat
    decreases s, 0
  {
    1 + SubSize(s, |SubSchemas(s)|)
  }

  function SubSize(s: Schema, n: nat): nat
    requires n <= |SubSchemas(s)|
    decreases s, 0, n
  {
    if n == 0 then 0
    else
      SubSize(s, n - 1) + SchemaSize(SubSchemas(s)[n - 1])
  }

  function PendingSize(stack: seq<Pending<Schema>>): nat {
    if stack == [] then 0
    else PendingSize(stack[..|stack| - 1]) + SchemaSize(stack[|stack| - 1].node)
  }

  /** What the rest of the loop reports for a stack. */
  function StackFault(stack: seq<Pending<Schema>>, limits: Limits): Check<SchemaError> {
    if stack == [] then Pass
    else
      var top := stack[|stack| - 1];
      var fault := DeclarationFault(top.node, top.depth, limits);
      if fault.Fail? then fault else StackFault(stack[..|stack| - 1], limits)
  }

  /** The first `n` children of a node, as they are pushed. */
  function Pushed(s: Schema, n: nat, depth: nat): (stack: seq<Pending<Schema>>)
    requires n <= |SubSchemas(s)|
    ensures |stack| == n
  {
    if n == 0 then [] else Pushed(s, n - 1, depth) + [Pending(SubSchemas(s)[n - 1], depth)]
  }

  lemma PushOneSize(stack: seq<Pending<Schema>>, top: Pending<Schema>)
    ensures PendingSize(stack + [top]) == PendingSize(stack) + SchemaSize(top.node)
  {
    assert (stack + [top])[..|stack|] == stack;
  }

  lemma PushOne(stack: seq<Pending<Schema>>, top: Pending<Schema>, limits: Limits)
    ensures StackFault(stack + [top], limits) ==
      var fault := DeclarationFault(top.node, top.depth, limits);
      if fault.Fail? then fault else StackFault(stack, limits)
  {
    assert (stack + [top])[..|stack|] == stack;
  }

  lemma AppendAssociates<T>(a: seq<T>, b: seq<T>, c: T)
    ensures a + (b + [c]) == (a + b) + [c]
  {
  }

  lemma PushedSplits(stack: seq<Pending<Schema>>, s: Schema, n: nat, depth: nat)
    requires 0 < n <= |SubSchemas(s)|
    ensures stack + Pushed(s, n, depth) == (stack + Pushed(s, n - 1, depth)) + [Pending(SubSchemas(s)[n - 1], depth)]
  {
    AppendAssociates(stack, Pushed(s, n - 1, depth), Pending(SubSchemas(s)[n - 1], depth));
  }

  lemma {:induction false} PushedChildrenSize(stack: seq<Pending<Schema>>, s: Schema, n: nat, depth: nat)
    requires n <= |SubSchemas(s)|
    ensures PendingSize(stack + Pushed(s, n, depth)) == PendingSize(stack) + SubSize(s, n)
  {
    if n == 0 {
      assert stack + [] == stack;
    } else {
      PushedChildrenSize(stack, s, n - 1, depth);
      PushedSplits(stack, s, n, depth);
      PushOneSize(stack + Pushed(s, n - 1, depth), Pending(SubSchemas(s)[n - 1], depth));
      SubSizeStep(s, n);
    }
  }

  lemma SubSizeStep(s: Schema, n: nat)
    requires 0 < n <= |SubSchemas(s)|
    ensures SubSize(s, n) == SubSize(s, n - 1) + SchemaSize(SubSchemas(s)[n - 1])
  {
  }

  lemma {:induction false} PushedChildrenFault(stack: seq<Pending<Schema>>, s: Schema, n: nat, depth: nat, limits: Limits)
    requires n <= |SubSchemas(s)|
    ensures StackFault(stack + Pushed(s, n, depth), limits) ==
      var fault := ChildrenFault(s, n, depth, limits);
      if fault.Fail? then fault else StackFault(stack, limits)
  {
    if n == 0 {
      assert stack + [] == stack;
    } else {
      PushedChildrenFault(stack, s, n - 1, depth, limits);
      PushedSplits(stack, s, n, depth);
      PushOne(stack + Pushed(s, n - 1, depth), Pending(SubSchemas(s)[n - 1], depth), limits);
      ChildrenFaultStep(s, n, depth, limits);
    }
  }

  lemma ChildrenFaultStep(s: Schema, n: nat, depth: nat, limits: Limits)
    requires 0 < n <= |SubSchemas(s)|
    ensures ChildrenFault(s, n, depth, limits) ==
      var last := DeclarationFault(SubSchemas(s)[n - 1], depth, limits);
      if last.Fail? then last else ChildrenFault(s, n - 1, depth, limits)
  {
  }

  /** The stack after its top was popped and that node's children pushed. */
  function NextStack(stack: seq<Pending<Schema>>): seq<Pending<Schema>>
    requires stack != []
  {
    var top := stack[|stack| - 1];
    stack[..|stack| - 1] + Pushed(top.node, |SubSchemas(top.node)|, top.depth + 1)
  }

  lemma NextStackSize(stack: seq<Pending<Schema>>)
    requires stack != []
    ensures PendingSize(NextStack(stack)) < PendingSize(stack)
  {
    var top := stack[|stack| - 1];
    PushedChildrenSize(stack[..|stack| - 1], top.node, |SubSchemas(top.node)|, top.depth + 1);
  }

  lemma NextStackFault(stack: seq<Pending<Schema>>, limits: Limits)
    requires stack != []
    ensures var top := stack[|stack| - 1];
      var own := NodeFault(top.node, top.depth, limits);
      StackFault(stack, limits) == if own.Fail? then own else StackFault(NextStack(stack), limits)
  {
    var top := stack[|stack| - 1];
    PushedChildrenFault(stack[..|stack| - 1], top.node, |SubSchemas(top.node)|, top.depth + 1, limits);
  }

  lemma OnlySchema(schema: Schema, limits: Limits)
    ensures StackFault([Pending(schema, 1)], limits) == DeclarationFault(schema, 1, limits)
  {
    PushOne([], Pending(schema, 1), limits);
    assert [] + [Pending(schema, 1)] == [Pending(schema, 1)];
  }

  /** What a verdict on a declaration says. */
  lemma VerdictMeaning(schema: Schema, limits: Limits)
    ensures var r := if LimitsFault(limits).Fail? then LimitsFault(limits) else DeclarationFault(schema, 1, limits);
      && (r.Pass? <==> LimitsDeclared(limits) && Declared(schema, 1, limits))
      && (r.Fail? ==> RefusedFor(r.error, schema, limits))
  {
    NoFaultIffDeclared(schema, 1, limits);
    LimitsMeaning(limits);
    if LimitsFault(limits).Fail? {
      LimitsRefused(schema, limits);
    } else if DeclarationFault(schema, 1, limits).Fail? {
      DeclarationRefused(schema, limits);
    }
  }

  /** The limits, then every node of the schema. */
  method ValidateDeclaration(schema: Schema, limits: Limits) returns (r: Check<SchemaError>)
    ensures r == if LimitsFault(limits).Fail? then LimitsFault(limits) else DeclarationFault(schema, 1, limits)
    ensures r.Pass? <==> LimitsDeclared(limits) && Declared(schema, 1, limits)
    ensures r.Fail? ==> RefusedFor(r.error, schema, limits)
  {
    VerdictMeaning(schema, limits);
    r := LimitsFault(limits);
    if r.Pass? {
      r := CheckNodes(schema, limits);
    }
  }

  /** The loop over an explicit stack reports exactly what the recursive definition does. */
  method CheckNodes(schema: Schema, limits: Limits) returns (r: Check<SchemaError>)
    ensures r == DeclarationFault(schema, 1, limits)
  {
    var stack := [Pending(schema, 1)];
    OnlySchema(schema, limits);
    while stack != []
      invariant StackFault(stack, limits) == DeclarationFault(schema, 1, limits)
      decreases PendingSize(stack)
    {
      NextStackFault(stack, limits);
      NextStackSize(stack);
      var top := stack[|stack| - 1];
      var own := NodeFault(top.node, top.depth, limits);
      if own.Fail? {
        return own;
      }
      stack := stack[..|stack| - 1] + Pushed(top.node, |SubSchemas(top.node)|, top.depth + 1);
    }
    return Pass;
  }

  // ------------------------------------------------------------------- depth

  function Max(a: nat, b: nat): nat { if a < b then b else a }

  /** The nesting depth of a value, a scalar having depth one. */
  function Depth(v: Value): (d: nat)
    ensures d >= 1
    decreases v, 0
  {
    1 + ChildrenDepth(v, |Children(v)|)
  }

  function ChildrenDepth(v: Value, n: nat): nat
    requires n <= |Children(v)|
    decreases v, 0, n
  {
    if n == 0 then 0
    else
      Max(ChildrenDepth(v, n - 1), Depth(Children(v)[n - 1]))
  }

  function ValueSize(v: Value): nat
    decreases v, 0
  {
    1 + ChildrenSize(v, |Children(v)|)
  }

  function ChildrenSize(v: Value, n: nat): nat
    requires n <= |Children(v)|
    decreases v, 0, n
  {
    if n == 0 then 0
    else
      ChildrenSize(v, n - 1) + ValueSize(Children(v)[n - 1])
  }

  function StackSize(stack: seq<Pending<Value>>): nat {
    if stack == [] then 0 else StackSize(stack[..|stack| - 1]) + ValueSize(stack[|stack| - 1].node)
  }

  /** The greatest depth a stack still reaches. */
  function Reach(stack: seq<Pending<Value>>): nat {
    if stack == [] then 0
    else
      var top := stack[|stack| - 1];
      Max(Reach(stack[..|stack| - 1]), top.depth + Depth(top.node) - 1)
  }

  /** The first `n` children of a value, as they are pushed. */
  function PushedValues(v: Value, n: nat, depth: nat): (stack: seq<Pending<Value>>)
    requires n <= |Children(v)|
    ensures |stack| == n && forall i | 0 <= i < n :: stack[i].depth == depth
  {
    if n == 0 then [] else PushedValues(v, n - 1, depth) + [Pending(Children(v)[n - 1], depth)]
  }

  lemma PushValue(stack: seq<Pending<Value>>, top: Pending<Value>)
    ensures StackSize(stack + [top]) == StackSize(stack) + ValueSize(top.node)
    ensures Reach(stack + [top]) == Max(Reach(stack), top.depth + Depth(top.node) - 1)
  {
    assert (stack + [top])[..|stack|] == stack;
  }

  lemma PushedValuesSplit(stack: seq<Pending<Value>>, v: Value, n: nat, depth: nat)
    requires 0 < n <= |Children(v)|
    ensures stack + PushedValues(v, n, depth) == (stack + PushedValues(v, n - 1, depth)) + [Pending(Children(v)[n - 1], depth)]
  {
    AppendAssociates(stack, PushedValues(v, n - 1, depth), Pending(Children(v)[n - 1], depth));
  }

  lemma {:induction false} PushedSize(stack: seq<Pending<Value>>, v: Value, n: nat, depth: nat)
    requires n <= |Children(v)|
    ensures StackSize(stack + PushedValues(v, n, depth)) == StackSize(stack) + ChildrenSize(v, n)
  {
    if n == 0 {
      assert stack + [] == stack;
    } else {
      PushedSize(stack, v, n - 1, depth);
      PushedValuesSplit(stack, v, n, depth);
      PushValue(stack + PushedValues(v, n - 1, depth), Pending(Children(v)[n - 1], depth));
    }
  }

  /** How deep the first `n` children of a value at `depth - 1` reach. */
  function ChildrenReach(v: Value, n: nat, depth: nat): nat
    requires n <= |Children(v)| && depth >= 1
  {
    if n == 0 then 0 else depth + ChildrenDepth(v, n) - 1
  }

  lemma {:induction false} PushedReach(stack: seq<Pending<Value>>, v: Value, n: nat, depth: nat)
    requires n <= |Children(v)| && depth >= 1
    ensures Reach(stack + PushedValues(v, n, depth)) == Max(Reach(stack), ChildrenReach(v, n, depth))
  {
    if n == 0 {
      assert stack + [] == stack;
    } else {
      PushedReach(stack, v, n - 1, depth);
      PushedValuesSplit(stack, v, n, depth);
      PushValue(stack + PushedValues(v, n - 1, depth), Pending(Children(v)[n - 1], depth));
      ChildrenReachStep(v, n, depth);
      MaxAssociates(Reach(stack), ChildrenReach(v, n - 1, depth), depth + Depth(Children(v)[n - 1]) - 1);
    }
  }

  lemma MaxAssociates(a: nat, b: nat, c: nat)
    ensures Max(Max(a, b), c) == Max(a, Max(b, c))
  {
  }

  lemma ChildrenReachStep(v: Value, n: nat, depth: nat)
    requires 0 < n <= |Children(v)| && depth >= 1
    ensures ChildrenReach(v, n, depth) == Max(ChildrenReach(v, n - 1, depth), depth + Depth(Children(v)[n - 1]) - 1)
  {
  }

  lemma DepthReach(v: Value, depth: nat)
    requires depth >= 1
    ensures depth + Depth(v) - 1 == Max(depth, ChildrenReach(v, |Children(v)|, depth + 1))
  {
  }

  function Popped(stack: seq<Pending<Value>>): seq<Pending<Value>>
    requires stack != []
  {
    var top := stack[|stack| - 1];
    stack[..|stack| - 1] + PushedValues(top.node, |Children(top.node)|, top.depth + 1)
  }

  lemma PopShrinks(stack: seq<Pending<Value>>)
    requires stack != []
    ensures StackSize(Popped(stack)) == StackSize(stack) - 1
  {
    var rest, top := stack[..|stack| - 1], stack[|stack| - 1];
    assert StackSize(stack) == StackSize(rest) + ValueSize(top.node);
    TopSize(top.node);
    PushedSize(rest, top.node, |Children(top.node)|, top.depth + 1);
    assert Popped(stack) == rest + PushedValues(top.node, |Children(top.node)|, top.depth + 1);
  }

  lemma TopSize(v: Value)
    ensures ValueSize(v) == 1 + ChildrenSize(v, |Children(v)|)
  {
  }

  /** How deep the children of the top value reach. */
  function TopReach(stack: seq<Pending<Value>>): nat
    requires stack != []
  {
    var top := stack[|stack| - 1];
    ChildrenReach(top.node, |Children(top.node)|, top.depth + 1)
  }

  lemma ReachPopped(stack: seq<Pending<Value>>)
    requires stack != []
    ensures Reach(Popped(stack)) == Max(Reach(stack[..|stack| - 1]), TopReach(stack))
  {
    var top := stack[|stack| - 1];
    PushedReach(stack[..|stack| - 1], top.node, |Children(top.node)|, top.depth + 1);
  }

  lemma ReachTop(stack: seq<Pending<Value>>)
    requires stack != [] && stack[|stack| - 1].depth >= 1
    ensures Reach(stack) == Max(Reach(stack[..|stack| - 1]), Max(stack[|stack| - 1].depth, TopReach(stack)))
  {
    DepthReach(stack[|stack| - 1].node, stack[|stack| - 1].depth);
  }

  /** One iteration: the popped value's children reach exactly as deep as it did. */
  lemma PopReach(stack: seq<Pending<Value>>, maximum: nat)
    requires stack != [] && stack[|stack| - 1].depth >= 1
    ensures Max(Max(maximum, stack[|stack| - 1].depth), Reach(Popped(stack))) == Max(maximum, Reach(stack))
  {
    ReachPopped(stack);
    ReachTop(stack);
    MaxShuffle(maximum, stack[|stack| - 1].depth, Reach(stack[..|stack| - 1]), TopReach(stack));
  }

  lemma MaxShuffle(a: nat, b: nat, c: nat, d: nat)
    ensures Max(Max(a, b), Max(c, d)) == Max(a, Max(c, Max(b, d)))
  {
  }

  /** Depths count from one. */
  ghost predicate Counted(stack: seq<Pending<Value>>) { forall i | 0 <= i < |stack| :: stack[i].depth >= 1 }

  lemma PoppedCounted(stack: seq<Pending<Value>>)
    requires stack != [] && Counted(stack)
    ensures Counted(Popped(stack))
  {
  }

  lemma OnlyRoot(root: Value)
    ensures Reach([Pending(root, 1)]) == Depth(root) && Counted([Pending(root, 1)])
  {
    PushValue([], Pending(root, 1));
    assert [] + [Pending(root, 1)] == [Pending(root, 1)];
  }

  /** The loop over an explicit stack computes the recursive depth. */
  method JsonDepth(root: Value) returns (maximum: nat)
    ensures maximum == Depth(root)
  {
    maximum := 1;
    var stack := [Pending(root, 1)];
    OnlyRoot(root);
    while stack != []
      invariant Max(maximum, Reach(stack)) == Depth(root)
      invariant Counted(stack)
      decreases StackSize(stack)
    {
      PopReach(stack, maximum);
      PopShrinks(stack);
      PoppedCounted(stack);
      var top := stack[|stack| - 1];
      maximum := Max(maximum, top.depth);
      stack := stack[..|stack| - 1] + PushedValues(top.node, |Children(top.node)|, top.depth + 1);
    }
  }

  /** A path is as long as the value is deep at most. */
  lemma {:induction false} PathsAreShort(v: Value, tokens: seq<string>)
    requires Walk(v, tokens).Some?
    ensures |tokens| < Depth(v)
    decreases |tokens|
  {
    if tokens != [] {
      var next := Follow(v, tokens[0]).value;
      PathsAreShort(next, tokens[1..]);
      FollowedIsChild(v, tokens[0]);
      var k :| 0 <= k < |Children(v)| && Children(v)[k] == next;
      ChildDepth(v, |Children(v)|, k);
    }
  }

  /** What a token leads to is one of the items or field values. */
  lemma FollowedIsChild(v: Value, token: string)
    requires Follow(v, token).Some?
    ensures exists k :: 0 <= k < |Children(v)| && Children(v)[k] == Follow(v, token).value
  {
    if v.ObjectValue? {
      var i := FindField(v.fields, token).value;
      assert Children(v)[i] == v.fields[i].value;
    } else {
      assert Children(v)[DecimalValue(token)] == v.items[DecimalValue(token)];
    }
  }

  lemma {:induction false} ChildDepth(v: Value, n: nat, k: nat)
    requires k < n <= |Children(v)|
    ensures Depth(Children(v)[k]) <= ChildrenDepth(v, n)
  {
    if k < n - 1 {
      ChildDepth(v, n - 1, k);
    }
  }

  /** The depth of a value is one more than the length of a longest path in it. */
  lemma {:induction false} DepthIsLongestPath(v: Value) returns (longest: seq<string>)
    requires DistinctKeys(v)
    ensures Walk(v, longest).Some? && |longest| + 1 == Depth(v)
    ensures forall tokens :: Walk(v, tokens).Some? ==> |tokens| <= |longest|
    decreases v
  {
    if ChildrenDepth(v, |Children(v)|) == 0 {
      longest := [];
    } else {
      var k := DeepestChild(v, |Children(v)|);
      var rest := DepthIsLongestPath(Children(v)[k]);
      longest := [TokenOf(v, k)] + rest;
      TokenLeads(v, k);
      assert longest[1..] == rest;
    }
    forall tokens | Walk(v, tokens).Some? ensures |tokens| <= |longest| {
      PathsAreShort(v, tokens);
    }
  }

  lemma {:induction false} DeepestChild(v: Value, n: nat) returns (k: nat)
    requires n <= |Children(v)| && ChildrenDepth(v, n) > 0
    ensures k < n && Depth(Children(v)[k]) == ChildrenDepth(v, n)
  {
    if ChildrenDepth(v, n) == Depth(Children(v)[n - 1]) {
      k := n - 1;
    } else {
      k := DeepestChild(v, n - 1);
    }
  }

  /** The token of a child. */
  function TokenOf(v: Value, k: nat): string
    requires k < |Children(v)|
  {
    if v.ObjectValue? then v.fields[k].name else Decimal(k)
  }

  lemma TokenLeads(v: Value, k: nat)
    requires DistinctKeys(v) && k < |Children(v)|
    ensures Follow(v, TokenOf(v, k)) == Some(Children(v)[k])
  {
    if v.ObjectValue? {
      FollowField(v, k);
    } else {
      FollowsIndexExactly(v.items, Decimal(k));
    }
  }

  // -------------------------------------------------------------- validation

  /** The mismatch of a value, with the path of the offending place. */
  function ValidateAt(s: Schema, v: Value, path: string): Check<Mismatch>
    decreases v, 1, 0
  {
    match s
    case ObjectSchema(properties, required, maxProperties) =>
      if !v.ObjectValue? then Fail(Mismatch(path, ExpectedObject))
      else if |v.fields| > maxProperties then Fail(Mismatch(path, TooManyFields))
      else
        var unknown := FirstUnknown(properties, v.fields);
        if unknown.Some? then Fail(Mismatch(ChildPath(path, unknown.value), UnknownField))
        else
          var missing := FirstMissing(required, v.fields);
          if missing.Some? then Fail(Mismatch(ChildPath(path, missing.value), MissingField))
          else ValidateFields(properties, v, 0, path)
    case ArraySchema(items, maxItems) =>
      if !v.ArrayValue? then Fail(Mismatch(path, ExpectedArray))
      else if |v.items| > maxItems then Fail(Mismatch(path, TooManyItems))
      else ValidateItems(items, v, 0, path)
    case StringSchema(maxUtf8Bytes) =>
      if !v.StringValue? then Fail(Mismatch(path, ExpectedString))
      else if Utf8Length(v.s) > maxUtf8Bytes then Fail(Mismatch(path, StringTooLong))
      else Pass
    case IntegerSchema(minimum, maximum) =>
      if !v.IntValue? || !FitsI64(v.n) then Fail(Mismatch(path, ExpectedInteger))
      else if !Safe(v.n) then Fail(Mismatch(path, UnsafeInteger))
      else if (minimum.Some? && v.n < minimum.value) || (maximum.Some? && v.n > maximum.value) then
        Fail(Mismatch(path, OutOfRange))
      else Pass
    case BooleanSchema => if v.BoolValue? then Pass else Fail(Mismatch(path, ExpectedBoolean))
    case NullSchema => if v.NullValue? then Pass else Fail(Mismatch(path, ExpectedNull))
  }

  function FirstUnknown(properties: seq<Property>, fields: seq<Field>): (r: Option<string>)
    ensures r.Some? ==> FindProperty(properties, r.value).None? && FindField(fields, r.value).Some?
    ensures r.None? ==> forall f <- fields :: FindProperty(properties, f.name).Some?
  {
    if fields == [] then None
    else if FindProperty(properties, fields[0].name).None? then Some(fields[0].name)
    else FirstUnknown(properties, fields[1..])
  }

  function FirstMissing(required: seq<string>, fields: seq<Field>): (r: Option<string>)
    ensures r.Some? ==> r.value in required && FindField(fields, r.value).None?
    ensures r.None? ==> forall name <- required :: FindField(fields, name).Some?
  {
    if required == [] then None
    else if FindField(fields, required[0]).None? then Some(required[0])
    else FirstMissing(required[1..], fields)
  }

  /** The fields from the `i`-th on. */
  function ValidateFields(properties: seq<Property>, v: Value, i: nat, path: string): Check<Mismatch>
    requires v.ObjectValue? && i <= |v.fields|
    requires forall f <- v.fields :: FindProperty(properties, f.name).Some?
    decreases v, 0, |v.fields| - i
  {
    if i == |v.fields| then Pass
    else
      var f := v.fields[i];
      var first := ValidateAt(properties[FindProperty(properties, f.name).value].schema, f.value, ChildPath(path, f.name));
      if first.Fail? then first else ValidateFields(properties, v, i + 1, path)
  }

  function ValidateItems(items: Schema, v: Value, i: nat, path: string): Check<Mismatch>
    requires v.ArrayValue? && i <= |v.items|
    decreases v, 0, |v.items| - i
  {
    if i == |v.items| then Pass
    else
      var first := ValidateAt(items, v.items[i], path + "/" + Decimal(i));
      if first.Fail? then first else ValidateItems(items, v, i + 1, path)
  }

  // ---------------------------------------------- accepted values are shallow

  function SchemaDepth(s: Schema): (d: nat)
    ensures d >= 1
    decreases s, 0
  {
    1 + SubDepth(s, |SubSchemas(s)|)
  }

  function SubDepth(s: Schema, n: nat): nat
    requires n <= |SubSchemas(s)|
    decreases s, 0, n
  {
    if n == 0 then 0
    else
      Max(SubDepth(s, n - 1), SchemaDepth(SubSchemas(s)[n - 1]))
  }

  lemma {:induction false} SubDepthBounds(s: Schema, n: nat, i: nat)
    requires i < n <= |SubSchemas(s)|
    ensures SchemaDepth(SubSchemas(s)[i]) <= SubDepth(s, n)
  {
    if i < n - 1 {
      SubDepthBounds(s, n - 1, i);
    }
  }

  lemma {:induction false} DeclaredDepth(s: Schema, depth: nat, limits: Limits)
    requires Declared(s, depth, limits)
    ensures depth + SchemaDepth(s) - 1 <= limits.maxDepth
    decreases s, 0
  {
    DeclaredSubDepth(s, |SubSchemas(s)|, depth, limits);
  }

  lemma {:induction false} DeclaredSubDepth(s: Schema, n: nat, depth: nat, limits: Limits)
    requires Declared(s, depth, limits) && n <= |SubSchemas(s)|
    ensures depth + SubDepth(s, n) <= limits.maxDepth
    decreases s, 0, n
  {
    if n > 0 {
      DeclaredDepth(SubSchemas(s)[n - 1], depth + 1, limits);
      DeclaredSubDepth(s, n - 1, depth, limits);
    }
  }

  /** Each child of an accepted value is accepted by some sub-schema. */
  lemma {:induction false} AcceptedChildren(s: Schema, v: Value, path: string, k: nat)
    requires ValidateAt(s, v, path).Pass? && k < |Children(v)|
    requires s.ObjectSchema? || s.ArraySchema?
    ensures exists i, p :: 0 <= i < |SubSchemas(s)| && ValidateAt(SubSchemas(s)[i], Children(v)[k], p).Pass?
  {
    if s.ObjectSchema? {
      FieldAccepted(s.properties, v, 0, path, k);
      var f := v.fields[k];
      var i := FindProperty(s.properties, f.name).value;
      assert ValidateAt(SubSchemas(s)[i], Children(v)[k], ChildPath(path, f.name)).Pass?;
    } else {
      ItemAccepted(s.items, v, 0, path, k);
      assert ValidateAt(SubSchemas(s)[0], Children(v)[k], path + "/" + Decimal(k)).Pass?;
    }
  }

  lemma {:induction false} FieldAccepted(properties: seq<Property>, v: Value, i: nat, path: string, k: nat)
    requires v.ObjectValue? && i <= k < |v.fields|
    requires forall f <- v.fields :: FindProperty(properties, f.name).Some?
    requires ValidateFields(properties, v, i, path).Pass?
    ensures var f := v.fields[k];
      ValidateAt(properties[FindProperty(properties, f.name).value].schema, f.value, ChildPath(path, f.name)).Pass?
    decreases k - i
  {
    if i < k {
      FieldAccepted(properties, v, i + 1, path, k);
    }
  }

  lemma {:induction false} ItemAccepted(items: Schema, v: Value, i: nat, path: string, k: nat)
    requires v.ArrayValue? && i <= k < |v.items| && ValidateItems(items, v, i, path).Pass?
    ensures ValidateAt(items, v.items[k], path + "/" + Decimal(k)).Pass?
    decreases k - i
  {
    if i < k {
      ItemAccepted(items, v, i + 1, path, k);
    }
  }

  lemma ScalarsHaveNoChildren(s: Schema, v: Value, path: string)
    requires ValidateAt(s, v, path).Pass? && !s.ObjectSchema? && !s.ArraySchema?
    ensures Children(v) == []
  {
  }

  /** Children that are no deeper than a bound. */
  lemma {:induction false} ChildrenBounded(v: Value, n: nat, bound: nat)
    requires n <= |Children(v)| && forall k | 0 <= k < n :: Depth(Children(v)[k]) <= bound
    ensures ChildrenDepth(v, n) <= bound
  {
    if n > 0 {
      ChildrenBounded(v, n - 1, bound);
    }
  }

  lemma DepthOfChildren(v: Value, bound: nat)
    requires ChildrenDepth(v, |Children(v)|) <= bound
    ensures Depth(v) <= 1 + bound
  {
  }

  lemma {:induction false} AcceptedDepth(s: Schema, v: Value, path: string)
    requires ValidateAt(s, v, path).Pass?
    ensures Depth(v) <= SchemaDepth(s)
    decreases v, 1
  {
    var bound := SubDepth(s, |SubSchemas(s)|);
    if s.ObjectSchema? || s.ArraySchema? {
      forall k | 0 <= k < |Children(v)| ensures Depth(Children(v)[k]) <= bound {
        AcceptedChild(s, v, path, k);
      }
    } else {
      ScalarsHaveNoChildren(s, v, path);
    }
    ChildrenBounded(v, |Children(v)|, bound);
    DepthOfChildren(v, bound);
  }

  lemma {:induction false} AcceptedChild(s: Schema, v: Value, path: string, k: nat)
    requires ValidateAt(s, v, path).Pass? && (s.ObjectSchema? || s.ArraySchema?) && k < |Children(v)|
    ensures Depth(Children(v)[k]) <= SubDepth(s, |SubSchemas(s)|)
    decreases v, 0
  {
    AcceptedChildren(s, v, path, k);
    var i, p :| 0 <= i < |SubSchemas(s)| && ValidateAt(SubSchemas(s)[i], Children(v)[k], p).Pass?;
    AcceptedDepth(SubSchemas(s)[i], Children(v)[k], p);
    SubDepthBounds(s, |SubSchemas(s)|, i);
  }

  /** A value accepted by a schema that is valid for some limits is no deeper than they allow. */
  lemma AcceptedWithinLimits(s: Schema, v: Value, limits: Limits)
    requires Declared(s, 1, limits) && ValidateAt(s, v, "").Pass?
    ensures Depth(v) <= limits.maxDepth
  {
    DeclaredDepth(s, 1, limits);
    AcceptedDepth(s, v, "");
  }

  // ----------------------------------------------------- which mismatch is reported

  predicate Unknown(properties: seq<Property>, v: Value, i: nat)
    requires v.ObjectValue? && i < |v.fields|
  {
    forall p <- properties :: p.name != v.fields[i].name
  }

  predicate Missing(required: seq<string>, v: Value, k: nat)
    requires v.ObjectValue? && k < |required|
  {
    forall f <- v.fields :: f.name != required[k]
  }

  /** The mismatch of field `i` by itself. */
  function FieldMismatch(properties: seq<Property>, v: Value, i: nat, path: string): Check<Mismatch>
    requires v.ObjectValue? && i < |v.fields|
  {
    var p := FindProperty(properties, v.fields[i].name);
    if p.None? then Pass else ValidateAt(properties[p.value].schema, v.fields[i].value, ChildPath(path, v.fields[i].name))
  }

  lemma {:induction false} FirstUnknownAt(properties: seq<Property>, fields: seq<Field>) returns (i: nat)
    requires FirstUnknown(properties, fields).Some?
    ensures i < |fields| && FirstUnknown(properties, fields).value == fields[i].name
    ensures FindProperty(properties, fields[i].name).None?
    ensures forall k | 0 <= k < i :: FindProperty(properties, fields[k].name).Some?
  {
    if FindProperty(properties, fields[0].name).None? {
      i := 0;
    } else {
      var rest := FirstUnknownAt(properties, fields[1..]);
      i := rest + 1;
    }
  }

  lemma {:induction false} FirstMissingAt(required: seq<string>, fields: seq<Field>) returns (k: nat)
    requires FirstMissing(required, fields).Some?
    ensures k < |required| && FirstMissing(required, fields).value == required[k]
    ensures FindField(fields, required[k]).None?
    ensures forall j | 0 <= j < k :: FindField(fields, required[j]).Some?
  {
    if FindField(fields, required[0]).None? {
      k := 0;
    } else {
      var rest := FirstMissingAt(required[1..], fields);
      k := rest + 1;
    }
  }

  lemma ValidateFieldsStep(properties: seq<Property>, v: Value, i: nat, path: string)
    requires v.ObjectValue? && i < |v.fields|
    requires forall f <- v.fields :: FindProperty(properties, f.name).Some?
    ensures ValidateFields(properties, v, i, path) ==
      var own := FieldMismatch(properties, v, i, path);
      if own.Fail? then own else ValidateFields(properties, v, i + 1, path)
  {
    assert v.fields[i] in v.fields;
  }

  /** The mismatches of the fields, each by itself. */
  function FieldMismatches(properties: seq<Property>, v: Value, path: string): (own: seq<Check<Mismatch>>)
    requires v.ObjectValue?
    ensures |own| == |v.fields|
  {
    seq(|v.fields|, i requires 0 <= i < |v.fields| => FieldMismatch(properties, v, i, path))
  }

  /** The first failure from the `i`-th on. */
  function FirstFailure(own: seq<Check<Mismatch>>, i: nat): Check<Mismatch>
    requires i <= |own|
    decreases |own| - i
  {
    if i == |own| then Pass else if own[i].Fail? then own[i] else FirstFailure(own, i + 1)
  }

  lemma {:induction false} FieldsReportFirstFailure(properties: seq<Property>, v: Value, i: nat, path: string)
    requires v.ObjectValue? && i <= |v.fields|
    requires forall f <- v.fields :: FindProperty(properties, f.name).Some?
    ensures ValidateFields(properties, v, i, path) == FirstFailure(FieldMismatches(properties, v, path), i)
    decreases |v.fields| - i
  {
    if i < |v.fields| {
      ValidateFieldsStep(properties, v, i, path);
      FieldsReportFirstFailure(properties, v, i + 1, path);
    }
  }

  lemma {:induction false} FirstFailureAt(own: seq<Check<Mismatch>>, from: nat) returns (i: nat)
    requires from <= |own|
    ensures from <= i <= |own| && forall k | from <= k < i :: own[k].Pass?
    ensures FirstFailure(own, from) == if i < |own| then own[i] else Pass
    ensures i < |own| ==> own[i].Fail?
    decreases |own| - from
  {
    i := from;
    if from < |own| && own[from].Pass? {
      i := FirstFailureAt(own, from + 1);
    }
  }

  lemma FirstRejectedField(properties: seq<Property>, v: Value, path: string) returns (i: nat)
    requires v.ObjectValue? && forall f <- v.fields :: FindProperty(properties, f.name).Some?
    requires ValidateFields(properties, v, 0, path).Fail?
    ensures i < |v.fields| && FieldMismatches(properties, v, path)[i] == ValidateFields(properties, v, 0, path)
    ensures forall k | 0 <= k < i :: FieldMismatches(properties, v, path)[k].Pass?
  {
    FieldsReportFirstFailure(properties, v, 0, path);
    i := FirstFailureAt(FieldMismatches(properties, v, path), 0);
  }

  lemma {:induction false} FirstRejectedItem(items: Schema, v: Value, from: nat, path: string) returns (i: nat)
    requires v.ArrayValue? && from <= |v.items| && ValidateItems(items, v, from, path).Fail?
    ensures from <= i < |v.items| && ValidateAt(items, v.items[i], path + "/" + Decimal(i)) == ValidateItems(items, v, from, path)
    ensures forall k | from <= k < i :: ValidateAt(items, v.items[k], path + "/" + Decimal(k)).Pass?
    decreases |v.items| - from
  {
    if ValidateAt(items, v.items[from], path + "/" + Decimal(from)).Fail? {
      i := from;
    } else {
      i := FirstRejectedItem(items, v, from + 1, path);
    }
  }

  /** Field `i` is the first that is not declared. */
  predicate FirstUnknownField(s: Schema, v: Value, i: nat)
    requires s.ObjectSchema? && v.ObjectValue?
  {
    && i < |v.fields| && Unknown(s.properties, v, i)
    && forall k | 0 <= k < i :: !Unknown(s.properties, v, k)
  }

  predicate FirstMissingField(s: Schema, v: Value, k: nat)
    requires s.ObjectSchema? && v.ObjectValue?
  {
    && k < |s.required| && Missing(s.required, v, k)
    && (forall i | 0 <= i < |v.fields| :: !Unknown(s.properties, v, i))
    && forall j | 0 <= j < k :: !Missing(s.required, v, j)
  }

  predicate FirstBadField(s: Schema, v: Value, i: nat, path: string)
    requires s.ObjectSchema? && v.ObjectValue?
  {
    && i < |v.fields| && FieldMismatches(s.properties, v, path)[i].Fail?
    && (forall k | 0 <= k < |v.fields| :: !Unknown(s.properties, v, k))
    && (forall k | 0 <= k < |s.required| :: !Missing(s.required, v, k))
    && forall k | 0 <= k < i :: FieldMismatches(s.properties, v, path)[k].Pass?
  }

  lemma FoundOrUnknown(properties: seq<Property>, v: Value)
    requires v.ObjectValue?
    ensures forall i | 0 <= i < |v.fields| :: Unknown(properties, v, i) <==> FindProperty(properties, v.fields[i].name).None?
  {
    assert forall k | 0 <= k < |properties| :: properties[k] in properties;
  }

  lemma FoundOrMissing(required: seq<string>, v: Value)
    requires v.ObjectValue?
    ensures forall k | 0 <= k < |required| :: Missing(required, v, k) <==> FindField(v.fields, required[k]).None?
  {
    assert forall i | 0 <= i < |v.fields| :: v.fields[i] in v.fields;
  }

  lemma UnknownIsFirst(s: Schema, v: Value) returns (i: nat)
    requires s.ObjectSchema? && v.ObjectValue? && FirstUnknown(s.properties, v.fields).Some?
    ensures FirstUnknownField(s, v, i) && FirstUnknown(s.properties, v.fields).value == v.fields[i].name
  {
    FoundOrUnknown(s.properties, v);
    i := FirstUnknownAt(s.properties, v.fields);
  }

  lemma MissingIsFirst(s: Schema, v: Value) returns (k: nat)
    requires s.ObjectSchema? && v.ObjectValue? && FirstUnknown(s.properties, v.fields).None?
    requires FirstMissing(s.required, v.fields).Some?
    ensures FirstMissingField(s, v, k) && FirstMissing(s.required, v.fields).value == s.required[k]
  {
    FoundOrUnknown(s.properties, v);
    FoundOrMissing(s.required, v);
    assert forall i | 0 <= i < |v.fields| :: v.fields[i] in v.fields;
    k := FirstMissingAt(s.required, v.fields);
  }

  lemma BadFieldIsFirst(s: Schema, v: Value, path: string) returns (i: nat)
    requires s.ObjectSchema? && v.ObjectValue? && FirstUnknown(s.properties, v.fields).None?
    requires FirstMissing(s.required, v.fields).None? && ValidateFields(s.properties, v, 0, path).Fail?
    ensures FirstBadField(s, v, i, path)
    ensures FieldMismatches(s.properties, v, path)[i] == ValidateFields(s.properties, v, 0, path)
  {
    FoundOrUnknown(s.properties, v);
    FoundOrMissing(s.required, v);
    assert forall k | 0 <= k < |v.fields| :: v.fields[k] in v.fields;
    assert forall k | 0 <= k < |s.required| :: s.required[k] in s.required;
    i := FirstRejectedField(s.properties, v, path);
  }

  /** What is reported of an object. */
  predicate ReportedFirst(s: Schema, v: Value, path: string, i: nat, m: Mismatch)
    requires s.ObjectSchema? && v.ObjectValue?
  {
    || (FirstUnknownField(s, v, i) && m == Mismatch(ChildPath(path, v.fields[i].name), UnknownField))
    || (FirstMissingField(s, v, i) && m == Mismatch(ChildPath(path, s.required[i]), MissingField))
    || (FirstBadField(s, v, i, path) && FieldMismatches(s.properties, v, path)[i] == Fail(m))
  }

  /**
    Of an object that is not too large the first unknown field is reported, else
    the first missing one, else the mismatch of the first field that is rejected.
  */
  lemma ObjectReportsFirst(s: Schema, v: Value, path: string) returns (i: nat)
    requires s.ObjectSchema? && v.ObjectValue? && |v.fields| <= s.maxProperties && ValidateAt(s, v, path).Fail?
    ensures ReportedFirst(s, v, path, i, ValidateAt(s, v, path).error)
  {
    var unknown, missing := FirstUnknown(s.properties, v.fields), FirstMissing(s.required, v.fields);
    if unknown.Some? {
      i := UnknownIsFirst(s, v);
      assert ValidateAt(s, v, path) == Fail(Mismatch(ChildPath(path, unknown.value), UnknownField));
    } else if missing.Some? {
      i := MissingIsFirst(s, v);
      assert ValidateAt(s, v, path) == Fail(Mismatch(ChildPath(path, missing.value), MissingField));
    } else {
      assert ValidateAt(s, v, path) == ValidateFields(s.properties, v, 0, path);
      i := BadFieldIsFirst(s, v, path);
    }
  }

  /** Of an array that is not too long the mismatch of the first item that is rejected is reported. */
  lemma ArrayReportsFirst(s: Schema, v: Value, path: string) returns (i: nat)
    requires s.ArraySchema? && v.ArrayValue? && |v.items| <= s.maxItems && ValidateAt(s, v, path).Fail?
    ensures i < |v.items| && ValidateAt(s.items, v.items[i], path + "/" + Decimal(i)) == ValidateAt(s, v, path)
    ensures forall k | 0 <= k < i :: ValidateAt(s.items, v.items[k], path + "/" + Decimal(k)).Pass?
  {
    i := FirstRejectedItem(s.items, v, 0, path);
  }

  // ------------------------------------------- declared schemas accept something

  /** A value a declared schema accepts: every property, no items, the least number. */
  function Witness(s: Schema): Value {
    match s
    case ObjectSchema(properties, _, _) =>
      ObjectValue(seq(|properties|, i requires 0 <= i < |properties| =>
        assert properties[i] in properties;
        Field(properties[i].name, Witness(properties[FindProperty(properties, properties[i].name).value].schema))))
    case ArraySchema(_, _) => ArrayValue([])
    case StringSchema(_) => StringValue("")
    case IntegerSchema(minimum, maximum) =>
      IntValue(if minimum.Some? then minimum.value else if maximum.Some? && maximum.value < 0 then maximum.value else 0)
    case BooleanSchema => BoolValue(true)
    case NullSchema => NullValue
  }

  /** Every declared schema accepts some value. */
  lemma {:induction false} DeclaredAcceptsSomething(s: Schema, depth: nat, limits: Limits, path: string)
    requires Declared(s, depth, limits)
    ensures ValidateAt(s, Witness(s), path).Pass?
    decreases s
  {
    if s.ObjectSchema? {
      WitnessFields(s, depth, limits, path);
    }
  }

  lemma {:induction false} WitnessFields(s: Schema, depth: nat, limits: Limits, path: string)
    requires Declared(s, depth, limits) && s.ObjectSchema?
    ensures ValidateAt(s, Witness(s), path).Pass?
    decreases s, 0
  {
    var v := Witness(s);
    forall k | 0 <= k < |v.fields|
      ensures FindProperty(s.properties, v.fields[k].name).Some?
      ensures ValidateAt(s.properties[FindProperty(s.properties, v.fields[k].name).value].schema, v.fields[k].value,
                         ChildPath(path, v.fields[k].name)).Pass?
    {
      assert s.properties[k] in s.properties;
      var i := FindProperty(s.properties, v.fields[k].name).value;
      assert SubSchemas(s)[i] == s.properties[i].schema;
      DeclaredAcceptsSomething(SubSchemas(s)[i], depth + 1, limits, ChildPath(path, v.fields[k].name));
    }
    forall name <- s.required ensures FindField(v.fields, name).Some? {
      var p :| p in s.properties && p.name == name;
      var k :| 0 <= k < |s.properties| && s.properties[k] == p;
      assert v.fields[k] in v.fields && v.fields[k].name == name;
    }
    FieldsReportFirstFailure(s.properties, v, 0, path);
    var i := FirstFailureAt(FieldMismatches(s.properties, v, path), 0);
  }

  // ----------------------------------------------------------- mismatch paths

  /** The sub-schema the tokens lead to: the schema of a declared property, or that of the items. */
  function SchemaAt(s: Schema, tokens: seq<string>): Option<Schema>
    decreases |tokens|
  {
    if tokens == [] then Some(s)
    else
      match s
      case ObjectSchema(properties, _, _) =>
        var i := FindProperty(properties, tokens[0]);
        if i.Some? then SchemaAt(properties[i.value].schema, tokens[1..]) else None
      case ArraySchema(items, _) => SchemaAt(items, tokens[1..])
      case _ => None
  }

  /** A schema node rejects the value itself, for that reason. */
  predicate Rejects(s: Schema, v: Value, reason: Reason) {
    match reason
    case ExpectedObject => s.ObjectSchema? && !v.ObjectValue?
    case TooManyFields => s.ObjectSchema? && v.ObjectValue? && |v.fields| > s.maxProperties
    case ExpectedArray => s.ArraySchema? && !v.ArrayValue?
    case TooManyItems => s.ArraySchema? && v.ArrayValue? && |v.items| > s.maxItems
    case ExpectedString => s.StringSchema? && !v.StringValue?
    case StringTooLong => s.StringSchema? && v.StringValue? && Utf8Length(v.s) > s.maxUtf8Bytes
    case ExpectedInteger => s.IntegerSchema? && (!v.IntValue? || !FitsI64(v.n))
    case UnsafeInteger => s.IntegerSchema? && v.IntValue? && FitsI64(v.n) && !Safe(v.n)
    case OutOfRange =>
      && s.IntegerSchema? && v.IntValue? && Safe(v.n)
      && ((s.minimum.Some? && v.n < s.minimum.value) || (s.maximum.Some? && v.n > s.maximum.value))
    case ExpectedBoolean => s.BooleanSchema? && !v.BoolValue?
    case ExpectedNull => s.NullSchema? && !v.NullValue?
    case UnknownField => false
    case MissingField => false
  }

  /** An object's own schema does not declare the field it has, or requires the one it lacks. */
  predicate RejectsField(s: Schema, v: Value, name: string, reason: Reason) {
    && s.ObjectSchema? && v.ObjectValue?
    && match reason
       case UnknownField => Follow(v, name).Some? && FindProperty(s.properties, name).None?
       case MissingField => Follow(v, name).None? && name in s.required
       case _ => false
  }

  predicate IsFieldReason(reason: Reason) { reason == UnknownField || reason == MissingField }

  /**
    The tokens lead, in value and schema alike, to the place that is rejected:
    the value there by the sub-schema there, or a field of the object there.
  */
  predicate PointsAt(s: Schema, v: Value, tokens: seq<string>, reason: Reason) {
    if IsFieldReason(reason) then
      && tokens != []
      && var n := |tokens| - 1;
      && Walk(v, tokens[..n]).Some? && SchemaAt(s, tokens[..n]).Some?
      && RejectsField(SchemaAt(s, tokens[..n]).value, Walk(v, tokens[..n]).value, tokens[n], reason)
    else
      && Walk(v, tokens).Some? && SchemaAt(s, tokens).Some?
      && Rejects(SchemaAt(s, tokens).value, Walk(v, tokens).value, reason)
  }

  lemma FollowField(v: Value, i: nat)
    requires v.ObjectValue? && DistinctNames(v.fields) && i < |v.fields|
    ensures Follow(v, v.fields[i].name) == Some(v.fields[i].value)
  {
    var k := FindField(v.fields, v.fields[i].name);
    assert v.fields[i] in v.fields;
  }

  lemma DecimalIsIndex(n: nat)
    ensures IsIndex(Decimal(n)) && DecimalValue(Decimal(n)) == n
    ensures Escape(Decimal(n)) == Decimal(n)
  {
    DecimalValueOfDecimal(n);
    EscapeDigits(Decimal(n));
  }

  lemma {:induction false} EscapeDigits(s: string)
    requires forall c <- s :: IsDigit(c)
    ensures Escape(s) == s
  {
    if s != "" {
      EscapeStep(s);
      EscapeDigits(s[1..]);
      assert IsDigit(s[0]);
      assert [s[0]] + s[1..] == s;
    }
  }

  /** One step down: a mismatch in a child is the child's, one token longer. */
  lemma PointsBelow(s: Schema, v: Value, token: string, below: Schema, child: Value, tokens: seq<string>, reason: Reason)
    requires Follow(v, token) == Some(child) && SchemaAt(s, [token]) == Some(below)
    requires PointsAt(below, child, tokens, reason)
    ensures PointsAt(s, v, [token] + tokens, reason)
    ensures Render([token] + tokens) == "/" + Escape(token) + Render(tokens)
  {
    assert ([token] + tokens)[1..] == tokens;
    StepDown(s, v, token, below, child, tokens);
    if IsFieldReason(reason) {
      var n := |tokens| - 1;
      StepDown(s, v, token, below, child, tokens[..n]);
      assert ([token] + tokens)[..n + 1] == [token] + tokens[..n];
    }
  }

  lemma StepDown(s: Schema, v: Value, token: string, below: Schema, child: Value, tokens: seq<string>)
    requires Follow(v, token) == Some(child) && SchemaAt(s, [token]) == Some(below)
    ensures Walk(v, [token] + tokens) == Walk(child, tokens)
    ensures SchemaAt(s, [token] + tokens) == SchemaAt(below, tokens)
  {
    assert ([token] + tokens)[1..] == tokens && [token][1..] == [];
  }

  /** The path of a mismatch is the given path and the rendered tokens of the offending place. */
  lemma {:induction false} MismatchTokens(s: Schema, v: Value, path: string) returns (tokens: seq<string>)
    requires DistinctKeys(v) && ValidateAt(s, v, path).Fail?
    ensures ValidateAt(s, v, path).error.path == path + Render(tokens)
    ensures PointsAt(s, v, tokens, ValidateAt(s, v, path).error.reason)
    decreases v, 1, 0
  {
    if s.ObjectSchema? && v.ObjectValue? && |v.fields| <= s.maxProperties {
      var unknown := FirstUnknown(s.properties, v.fields);
      var missing := FirstMissing(s.required, v.fields);
      if unknown.Some? {
        tokens := [unknown.value];
        OneToken(path, unknown.value);
        assert [unknown.value][..0] == [];
      } else if missing.Some? {
        tokens := [missing.value];
        OneToken(path, missing.value);
        assert [missing.value][..0] == [];
      } else {
        tokens := FieldTokens(s, v, 0, path);
      }
    } else if s.ArraySchema? && v.ArrayValue? && |v.items| <= s.maxItems {
      tokens := ItemTokens(s, v, 0, path);
    } else {
      tokens := [];
      assert path + "" == path;
    }
  }

  lemma OneToken(path: string, name: string)
    ensures path + Render([name]) == ChildPath(path, name)
  {
    assert [name][1..] == [];
    assert path + ("/" + Escape(name) + "") == path + "/" + Escape(name);
  }

  lemma FieldPath(path: string, name: string, below: seq<string>)
    ensures path + Render([name] + below) == ChildPath(path, name) + Render(below)
  {
    assert ([name] + below)[1..] == below;
    assert path + ("/" + Escape(name) + Render(below)) == path + "/" + Escape(name) + Render(below);
  }

  lemma {:induction false} FieldTokens(s: Schema, v: Value, i: nat, path: string) returns (tokens: seq<string>)
    requires s.ObjectSchema? && v.ObjectValue? && DistinctKeys(v) && i <= |v.fields|
    requires forall f <- v.fields :: FindProperty(s.properties, f.name).Some?
    requires ValidateFields(s.properties, v, i, path).Fail?
    ensures ValidateFields(s.properties, v, i, path).error.path == path + Render(tokens)
    ensures PointsAt(s, v, tokens, ValidateFields(s.properties, v, i, path).error.reason)
    decreases v, 0, |v.fields| - i
  {
    var f := v.fields[i];
    var schema := s.properties[FindProperty(s.properties, f.name).value].schema;
    var first := ValidateAt(schema, f.value, ChildPath(path, f.name));
    if first.Fail? {
      assert Children(v)[i] == f.value;
      var rest := MismatchTokens(schema, f.value, ChildPath(path, f.name));
      FollowField(v, i);
      assert [f.name][1..] == [];
      PointsBelow(s, v, f.name, schema, f.value, rest, first.error.reason);
      FieldPath(path, f.name, rest);
      tokens := [f.name] + rest;
    } else {
      tokens := FieldTokens(s, v, i + 1, path);
    }
  }

  lemma FollowItem(v: Value, i: nat)
    requires v.ArrayValue? && i < |v.items|
    ensures Follow(v, Decimal(i)) == Some(v.items[i])
  {
    DecimalIsIndex(i);
  }

  lemma ItemPath(path: string, i: nat, below: seq<string>)
    ensures path + Render([Decimal(i)] + below) == path + "/" + Decimal(i) + Render(below)
  {
    DecimalIsIndex(i);
    assert ([Decimal(i)] + below)[1..] == below;
    assert path + ("/" + Decimal(i) + Render(below)) == path + "/" + Decimal(i) + Render(below);
  }

  lemma {:induction false} ItemTokens(s: Schema, v: Value, i: nat, path: string) returns (tokens: seq<string>)
    requires s.ArraySchema? && v.ArrayValue? && DistinctKeys(v) && i <= |v.items|
    requires ValidateItems(s.items, v, i, path).Fail?
    ensures ValidateItems(s.items, v, i, path).error.path == path + Render(tokens)
    ensures PointsAt(s, v, tokens, ValidateItems(s.items, v, i, path).error.reason)
    decreases v, 0, |v.items| - i
  {
    var below := path + "/" + Decimal(i);
    var first := ValidateAt(s.items, v.items[i], below);
    if first.Fail? {
      assert Children(v)[i] == v.items[i];
      var rest := MismatchTokens(s.items, v.items[i], below);
      FollowItem(v, i);
      assert [Decimal(i)][1..] == [];
      PointsBelow(s, v, Decimal(i), s.items, v.items[i], rest, first.error.reason);
      ItemPath(path, i, rest);
      tokens := [Decimal(i)] + rest;
    } else {
      tokens := ItemTokens(s, v, i + 1, path);
    }
  }

  /** Nothing inside an accepted value is rejected. */
  lemma {:induction false} AcceptedHasNoOffence(s: Schema, v: Value, path: string, tokens: seq<string>, reason: Reason)
    requires ValidateAt(s, v, path).Pass?
    ensures !PointsAt(s, v, tokens, reason)
    decreases |tokens|
  {
    if |tokens| <= (if IsFieldReason(reason) then 1 else 0) {
      NoOffenceHere(s, v, path, tokens, reason);
    } else if Follow(v, tokens[0]).Some? && SchemaAt(s, [tokens[0]]).Some? {
      var below, child := SchemaAt(s, [tokens[0]]).value, Follow(v, tokens[0]).value;
      var p := FollowedIsAccepted(s, v, path, tokens[0]);
      AcceptedHasNoOffence(below, child, p, tokens[1..], reason);
      OffenceBelow(s, v, below, child, tokens, reason);
    } else {
      OffenceFollows(s, v, tokens, reason);
    }
  }

  /** What the first tokens reach, the first of them reaches part of. */
  lemma FirstStep(s: Schema, v: Value, tokens: seq<string>, n: nat)
    requires 1 <= n <= |tokens|
    ensures Walk(v, tokens[..n]).Some? ==> Follow(v, tokens[0]).Some?
    ensures SchemaAt(s, tokens[..n]).Some? ==> SchemaAt(s, [tokens[0]]).Some?
  {
    assert tokens[..n][0] == tokens[0] && [tokens[0]][1..] == [];
  }

  lemma OffenceFollows(s: Schema, v: Value, tokens: seq<string>, reason: Reason)
    requires |tokens| > (if IsFieldReason(reason) then 1 else 0)
    ensures PointsAt(s, v, tokens, reason) ==> Follow(v, tokens[0]).Some? && SchemaAt(s, [tokens[0]]).Some?
  {
    if IsFieldReason(reason) {
      FirstStep(s, v, tokens, |tokens| - 1);
    } else {
      FirstStep(s, v, tokens, |tokens|);
      assert tokens[..|tokens|] == tokens;
    }
  }

  lemma OffenceBelow(s: Schema, v: Value, below: Schema, child: Value, tokens: seq<string>, reason: Reason)
    requires |tokens| > (if IsFieldReason(reason) then 1 else 0)
    requires Follow(v, tokens[0]) == Some(child) && SchemaAt(s, [tokens[0]]) == Some(below)
    ensures PointsAt(s, v, tokens, reason) <==> PointsAt(below, child, tokens[1..], reason)
  {
    StepBelow(s, v, below, child, tokens, |tokens|);
    assert tokens[..|tokens|] == tokens && tokens[1..|tokens|] == tokens[1..];
    if IsFieldReason(reason) {
      StepBelow(s, v, below, child, tokens, |tokens| - 1);
      assert tokens[1..][..|tokens| - 2] == tokens[1..|tokens| - 1];
    }
  }

  /** The first `n` tokens are one step and the rest of them from there. */
  lemma StepBelow(s: Schema, v: Value, below: Schema, child: Value, tokens: seq<string>, n: nat)
    requires 1 <= n <= |tokens|
    requires Follow(v, tokens[0]) == Some(child) && SchemaAt(s, [tokens[0]]) == Some(below)
    ensures Walk(v, tokens[..n]) == Walk(child, tokens[1..n])
    ensures SchemaAt(s, tokens[..n]) == SchemaAt(below, tokens[1..n])
  {
    StepDown(s, v, tokens[0], below, child, tokens[1..n]);
    assert [tokens[0]] + tokens[1..n] == tokens[..n];
  }

  /** A child reached by a token is accepted by the sub-schema reached by that token. */
  lemma FollowedIsAccepted(s: Schema, v: Value, path: string, token: string) returns (p: string)
    requires ValidateAt(s, v, path).Pass? && Follow(v, token).Some? && SchemaAt(s, [token]).Some?
    ensures ValidateAt(SchemaAt(s, [token]).value, Follow(v, token).value, p).Pass?
  {
    assert [token][1..] == [];
    if s.ObjectSchema? {
      p := ChildPath(path, token);
      FieldAccepted(s.properties, v, 0, path, FindField(v.fields, token).value);
    } else {
      p := path + "/" + Decimal(DecimalValue(token));
      ItemAccepted(s.items, v, 0, path, DecimalValue(token));
    }
  }

  lemma NoOffenceHere(s: Schema, v: Value, path: string, tokens: seq<string>, reason: Reason)
    requires ValidateAt(s, v, path).Pass? && |tokens| <= (if IsFieldReason(reason) then 1 else 0)
    ensures !PointsAt(s, v, tokens, reason)
  {
    if IsFieldReason(reason) && tokens != [] {
      assert tokens[..0] == [];
      if s.ObjectSchema? && v.ObjectValue? {
        EveryFieldDeclared(s, v, path, tokens[0]);
      }
    }
  }

  lemma EveryFieldDeclared(s: Schema, v: Value, path: string, name: string)
    requires ValidateAt(s, v, path).Pass? && s.ObjectSchema? && v.ObjectValue?
    ensures Follow(v, name).Some? ==> FindProperty(s.properties, name).Some?
    ensures Follow(v, name).None? ==> name !in s.required
  {
    var i := FindField(v.fields, name);
    if i.Some? {
      assert v.fields[i.value] in v.fields;
    }
  }

  /** A value is accepted exactly when no place in it is rejected. */
  lemma RejectedExactly(s: Schema, v: Value)
    requires DistinctKeys(v)
    ensures ValidateAt(s, v, "").Fail? <==> exists tokens, reason :: PointsAt(s, v, tokens, reason)
  {
    if ValidateAt(s, v, "").Fail? {
      var tokens := MismatchTokens(s, v, "");
      assert PointsAt(s, v, tokens, ValidateAt(s, v, "").error.reason);
    } else {
      forall tokens, reason ensures !PointsAt(s, v, tokens, reason) {
        AcceptedHasNoOffence(s, v, "", tokens, reason);
      }
    }
  }

  /** How a path is shown: the root as a slash. */
  function Shown(path: string): string { if path == "" then "/" else path }

  /**
    The path of every mismatch is a valid JSON Pointer.  In value and schema it
    leads to the value its own sub-schema rejects for that reason, or to a field
    its parent does not declare, or to nothing: a field its parent requires.
    It is shown unchanged unless it is the root.
  */
  lemma MismatchPathIsAPointer(s: Schema, v: Value)
    requires DistinctKeys(v) && ValidateAt(s, v, "").Fail?
    ensures var error := ValidateAt(s, v, "").error;
      && PointerSyntax(error.path)
      && PointsAt(s, v, Tokens(error.path), error.reason)
      && (Evaluate(v, error.path).Some? <==> error.reason != MissingField)
      && (error.path != "" ==> Shown(error.path) == error.path)
  {
    var error := ValidateAt(s, v, "").error;
    var tokens := MismatchTokens(s, v, "");
    assert "" + Render(tokens) == Render(tokens);
    RenderedPointer(tokens);
    PointsMeansEvaluates(s, v, tokens, error.reason);
  }

  lemma PointsMeansEvaluates(s: Schema, v: Value, tokens: seq<string>, reason: Reason)
    requires PointsAt(s, v, tokens, reason)
    ensures Walk(v, tokens).Some? <==> reason != MissingField
  {
    if IsFieldReason(reason) {
      var n := |tokens| - 1;
      assert tokens == tokens[..n] + [tokens[n]];
      WalkAppend(v, tokens[..n], tokens[n]);
    }
  }

  /** The one pair of places that is shown alike: the root, and the field with the empty name. */
  predicate RootAndEmptyField(a: seq<string>, b: seq<string>) { a == [] && b == [""] }

  lemma RenderedEmptyField()
    ensures Render([""]) == "/"
  {
    assert [""][1..] == [] && Escape("") == "";
  }

  lemma RenderIsInjective(a: seq<string>, b: seq<string>)
    ensures Render(a) == Render(b) <==> a == b
  {
    RenderedPointer(a);
    RenderedPointer(b);
  }

  /** A shown path reads back as the tokens of the place exactly if that is not the root. */
  lemma ShownReadsBackExactly(tokens: seq<string>)
    ensures Tokens(Shown(Render(tokens))) == tokens <==> tokens != []
  {
    RenderedEmptyField();
    RenderedPointer([""]);
    RenderedPointer(tokens);
  }

  /** Two places are shown alike exactly if they are one place, or the root and the field with the empty name. */
  lemma ShownAlikeExactly(a: seq<string>, b: seq<string>)
    ensures Shown(Render(a)) == Shown(Render(b)) <==> a == b || RootAndEmptyField(a, b) || RootAndEmptyField(b, a)
  {
    RenderedEmptyField();
    RenderIsInjective(a, b);
    RenderIsInjective(a, [""]);
    RenderIsInjective(b, [""]);
  }

  lemma NoEmptyProperty(s: Schema, limits: Limits)
    requires Declared(s, 1, limits) && s.ObjectSchema?
    ensures FindProperty(s.properties, "").None? && "" !in s.required
  {
  }

  /**
    Under a declared schema the reason tells the two apart: what is shown as a
    slash is the root exactly if the reason is not an unknown field.
  */
  lemma ReasonTellsTheRoot(s: Schema, v: Value, limits: Limits)
    requires Declared(s, 1, limits) && DistinctKeys(v) && ValidateAt(s, v, "").Fail?
    requires Shown(ValidateAt(s, v, "").error.path) == "/"
    ensures ValidateAt(s, v, "").error.path == "" <==> ValidateAt(s, v, "").error.reason != UnknownField
  {
    var error := ValidateAt(s, v, "").error;
    var tokens := MismatchTokens(s, v, "");
    assert "" + Render(tokens) == Render(tokens);
    if error.path == "/" {
      RenderedEmptyField();
      RenderIsInjective(tokens, [""]);
      EmptyFieldIsUnknown(s, v, error.reason, limits);
    } else {
      RenderIsInjective(tokens, []);
    }
  }

  /** Under a declared schema the only fault of a field with the empty name is to be unknown. */
  lemma EmptyFieldIsUnknown(s: Schema, v: Value, reason: Reason, limits: Limits)
    requires Declared(s, 1, limits) && PointsAt(s, v, [""], reason)
    requires s.ArraySchema? ==> v.ArrayValue?
    ensures reason == UnknownField
  {
    assert [""][1..] == [] && [""][..0] == [];
    if s.ObjectSchema? {
      NoEmptyProperty(s, limits);
    }
  }

  /** The shown path of a root mismatch is also the path of an unknown field with the empty name. */
  lemma RootLooksLikeTheEmptyField(s: Schema, n: int)
    requires s == ObjectSchema([], [], 1)
    ensures ValidateAt(s, IntValue(n), "").Fail? && Shown(ValidateAt(s, IntValue(n), "").error.path) == "/"
    ensures var v := ObjectValue([Field("", NullValue)]);
      && ValidateAt(s, v, "").Fail? && Shown(ValidateAt(s, v, "").error.path) == "/"
      && Evaluate(v, "/") == Some(NullValue)
  {
    var v := ObjectValue([Field("", NullValue)]);
    OneToken("", "");
    assert Escape("") == "";
    assert ChildPath("", "") == "/";
    RenderedPointer([""]);
    assert [""][1..] == [];
    assert Render([""]) == "/" by { assert "" + Render([""]) == Render([""]); }
  }
}
