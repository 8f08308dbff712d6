/** The SQL parse-tree node OLevelZeroIdentifier: a function call, `@this`,
    or a collection literal. The node's children (OFunctionCall, OCollection)
    are abstract: each carries, as fields, the answers its own methods give. */
module LevelZeroIdentifier {
  import opened Common

  datatype CommandContext = CommandContext(id: int)
  datatype Identifiable = Identifiable(id: int)
  datatype ResultRow = ResultRow(id: int)

  /** The record an expression is evaluated against; the two `execute`
      overloads differ only in which of these they are given. */
  datatype CurrentRecord = OfIdentifiable(identifiable: Identifiable) | OfResult(row: ResultRow)

  /** A value an expression evaluates to. */
  datatype Value = Current(record: CurrentRecord) | Computed(id: int)

  datatype FromClause = FromClause(id: int)
  datatype CompareOperator = CompareOperator(symbol: string)
  datatype AggregateProjectionSplit = AggregateProjectionSplit(id: int)
  datatype AggregationContext = AggregationContext(id: int)
  datatype Expression = Expression(text: string)

  /** Query parameters substituted when a node is rendered. */
  type Params = map<string, string>

  /** An OFunctionCall as this node uses it. */
  datatype FunctionCall = FunctionCall(
    params: seq<Expression>,
    render: Params -> string,
    execute: (CurrentRecord, CommandContext) -> Value,
    isIndexedFunctionCall: bool,
    estimateIndexedFunction: (FromClause, CommandContext, CompareOperator, Value) -> Long,
    executeIndexedFunction: (FromClause, CommandContext, CompareOperator, Value) -> Option<seq<Identifiable>>,
    isExpand: bool,
    needsAliases: set<string> -> bool,
    isAggregate: bool,
    isEarlyCalculated: bool,
    splitForAggregation: AggregateProjectionSplit -> SimpleNode,
    getAggregationContext: CommandContext -> AggregationContext)

  /** An OCollection as this node uses it. */
  datatype Collection = Collection(
    render: Params -> string,
    execute: (CurrentRecord, CommandContext) -> Value,
    needsAliases: set<string> -> bool,
    isAggregate: bool,
    isEarlyCalculated: bool,
    splitForAggregation: AggregateProjectionSplit -> Collection)

  /** The three fields of the node; `self` is a nullable Boolean. */
  datatype LevelZeroIdentifier = LevelZeroIdentifier(
    functionCall: Option<FunctionCall>,
    self: Option<bool>,
    collection: Option<Collection>)

  /** A parse-tree node as `splitForAggregation` returns it. */
  datatype SimpleNode =
    | FunctionCallNode(call: FunctionCall)
    | LevelZeroNode(identifier: LevelZeroIdentifier)
    | OtherNode(tag: int)

  datatype Failure =
    | UnsupportedOperation
    | CommandExecution(message: string)
    | IllegalState
    | NullPointer

  /** `Boolean.TRUE.equals(self)`: a null `self` counts as false. */
  predicate IsSelf(node: LevelZeroIdentifier) {
    node.self == Some(true)
  }

  // ---------------------------------------------------------------------
  // Dispatch: which part of the node `toString` and `execute` delegate to
  // ---------------------------------------------------------------------

  datatype Part = CallPart | SelfPart | CollectionPart | NoPart

  function RenderedPart(node: LevelZeroIdentifier): Part {
    if node.functionCall.Some? then CallPart
    else if IsSelf(node) then SelfPart
    else if node.collection.Some? then CollectionPart
    else NoPart
  }

  function ExecutedPart(node: LevelZeroIdentifier): Part {
    if node.functionCall.Some? then CallPart
    else if node.collection.Some? then CollectionPart
    else if IsSelf(node) then SelfPart
    else NoPart
  }

  /** A node as the parser builds it: exactly one alternative is present. */
  predicate SingleAlternative(node: LevelZeroIdentifier) {
    (if node.functionCall.Some? then 1 else 0) +
    (if IsSelf(node) then 1 else 0) +
    (if node.collection.Some? then 1 else 0) == 1
  }

  /** The two methods pick different parts exactly when `@this` and a
      collection are both present without a function call. */
  lemma DispatchOrdersDiffer(node: LevelZeroIdentifier)
    ensures RenderedPart(node) != ExecutedPart(node) <==>
      node.functionCall.None? && IsSelf(node) && node.collection.Some?
  {
  }

  /** On the nodes the parser builds, both pick the one part that is present. */
  lemma DispatchOrdersAgree(node: LevelZeroIdentifier)
    requires SingleAlternative(node)
    ensures RenderedPart(node) == ExecutedPart(node) != NoPart
  {
  }

  // ---------------------------------------------------------------------
  // The node's methods
  // ---------------------------------------------------------------------

  /** What `toString(params, builder)` appends to the builder. */
  function Render(node: LevelZeroIdentifier, params: Params): (s: string)
    ensures RenderedPart(node) == CallPart ==> s == node.functionCall.value.render(params)
    ensures RenderedPart(node) == SelfPart ==> s == "@this"
    ensures RenderedPart(node) == CollectionPart ==> s == node.collection.value.render(params)
    ensures RenderedPart(node) == NoPart ==> s == ""
  {
    if node.functionCall.Some? then node.functionCall.value.render(params)
    else if IsSelf(node) then "@this"
    else if node.collection.Some? then node.collection.value.render(params)
    else ""
  }

  /** `toString(params, builder)`: the builder's content afterwards. */
  function ToString(node: LevelZeroIdentifier, params: Params, builder: string): (s: string)
    ensures |s| >= |builder| && s[..|builder|] == builder
    ensures s[|builder|..] == Render(node, params)
  {
    builder + Render(node, params)
  }

  /** Both `execute` overloads: delegate to the function call, else to the
      collection, else give back the current record for `@this`. */
  function Execute(node: LevelZeroIdentifier, current: CurrentRecord, ctx: CommandContext): (r: Result<Value, Failure>)
    ensures r.Err? <==> ExecutedPart(node) == NoPart
    ensures r.Err? ==> r.error == UnsupportedOperation
    ensures ExecutedPart(node) == CallPart ==> r == Ok(node.functionCall.value.execute(current, ctx))
    ensures ExecutedPart(node) == CollectionPart ==> r == Ok(node.collection.value.execute(current, ctx))
    ensures ExecutedPart(node) == SelfPart ==> r == Ok(Current(current))
  {
    if node.functionCall.Some? then Ok(node.functionCall.value.execute(current, ctx))
    else if node.collection.Some? then Ok(node.collection.value.execute(current, ctx))
    else if IsSelf(node) then Ok(Current(current))
    else Err(UnsupportedOperation)
  }

  /** `@this` evaluates to the record it is given, whichever overload is used. */
  lemma SelfIsIdentity(node: LevelZeroIdentifier, current: CurrentRecord, ctx: CommandContext)
    requires node.functionCall.None? && node.collection.None? && IsSelf(node)
    ensures Execute(node, current, ctx) == Ok(Current(current))
  {
  }

  /** A node that renders as `@this` but evaluates through its collection. */
  lemma {:induction false} RenderAndExecuteDisagree(c: Collection, current: CurrentRecord, ctx: CommandContext)
    ensures var node := LevelZeroIdentifier(Option.None, Some(true), Some(c));
      Render(node, map[]) == "@this" && Execute(node, current, ctx) == Ok(c.execute(current, ctx))
  {
    var node := LevelZeroIdentifier(Option.None, Some(true), Some(c));
    assert RenderedPart(node) == SelfPart;
    assert ExecutedPart(node) == CollectionPart;
  }

  function IsIndexedFunctionCall(node: LevelZeroIdentifier): (b: bool)
    ensures b <==> node.functionCall.Some? && node.functionCall.value.isIndexedFunctionCall
  {
    if node.functionCall.Some? then node.functionCall.value.isIndexedFunctionCall else false
  }

  function EstimateIndexedFunction(node: LevelZeroIdentifier, target: FromClause, ctx: CommandContext,
                                   operator: CompareOperator, right: Value): (n: Long)
    ensures node.functionCall.None? ==> n == -1
    ensures node.functionCall.Some? ==> n == node.functionCall.value.estimateIndexedFunction(target, ctx, operator, right)
  {
    if node.functionCall.Some? then node.functionCall.value.estimateIndexedFunction(target, ctx, operator, right)
    else -1
  }

  function ExecuteIndexedFunction(node: LevelZeroIdentifier, target: FromClause, ctx: CommandContext,
                                  operator: CompareOperator, right: Value): (r: Option<seq<Identifiable>>)
    ensures node.functionCall.None? ==> r.None?
    ensures node.functionCall.Some? ==> r == node.functionCall.value.executeIndexedFunction(target, ctx, operator, right)
  {
    if node.functionCall.Some? then node.functionCall.value.executeIndexedFunction(target, ctx, operator, right)
    else Option.None
  }

  function IsExpand(node: LevelZeroIdentifier): (b: bool)
    ensures b <==> node.functionCall.Some? && node.functionCall.value.isExpand
  {
    if node.functionCall.Some? then node.functionCall.value.isExpand else false
  }

  /** The single argument of `expand(...)`. The function call is dereferenced
      without a null test. */
  function GetExpandContent(node: LevelZeroIdentifier): (r: Result<Expression, Failure>)
    ensures r.Ok? <==> node.functionCall.Some? && |node.functionCall.value.params| == 1
    ensures r.Ok? ==> r.value == node.functionCall.value.params[0]
    ensures node.functionCall.None? ==> r == Err(NullPointer)
    ensures node.functionCall.Some? && |node.functionCall.value.params| != 1 ==>
      r == Err(CommandExecution("Invalid expand expression: " + node.functionCall.value.render(map[])))
  {
    if node.functionCall.None? then Err(NullPointer)
    else
      var call := node.functionCall.value;
      if |call.params| != 1 then Err(CommandExecution("Invalid expand expression: " + call.render(map[])))
      else Ok(call.params[0])
  }

  function NeedsAliases(node: LevelZeroIdentifier, aliases: set<string>): (b: bool)
    ensures b <==> (node.functionCall.Some? && node.functionCall.value.needsAliases(aliases)) ||
                   (node.collection.Some? && node.collection.value.needsAliases(aliases))
  {
    if node.functionCall.Some? && node.functionCall.value.needsAliases(aliases) then true
    else if node.collection.Some? && node.collection.value.needsAliases(aliases) then true
    else false
  }

  function IsAggregate(node: LevelZeroIdentifier): (b: bool)
    ensures b <==> (node.functionCall.Some? && node.functionCall.value.isAggregate) ||
                   (node.collection.Some? && node.collection.value.isAggregate)
  {
    if node.functionCall.Some? && node.functionCall.value.isAggregate then true
    else if node.collection.Some? && node.collection.value.isAggregate then true
    else false
  }

  /** An early function call decides true; otherwise `@this` decides false;
      otherwise the collection decides. */
  function IsEarlyCalculated(node: LevelZeroIdentifier): (b: bool)
    ensures b <==> (node.functionCall.Some? && node.functionCall.value.isEarlyCalculated) ||
                   (!IsSelf(node) && node.collection.Some? && node.collection.value.isEarlyCalculated)
  {
    if node.functionCall.Some? && node.functionCall.value.isEarlyCalculated then true
    else if IsSelf(node) then false
    else if node.collection.Some? && node.collection.value.isEarlyCalculated then true
    else false
  }

  /** `@this` is never early-calculated unless an early function call is
      present, whatever the collection says. */
  lemma SelfBlocksEarlyCollection(node: LevelZeroIdentifier)
    requires IsSelf(node) && !(node.functionCall.Some? && node.functionCall.value.isEarlyCalculated)
    ensures !IsEarlyCalculated(node)
  {
  }

  /** Splits an aggregate projection: a node that does not aggregate is
      returned as it is; otherwise the function call is split (a split that
      is still a function call is wrapped in a fresh node) or, without a
      function call, a fresh node holds the split collection. */
  function SplitForAggregation(node: LevelZeroIdentifier, proj: AggregateProjectionSplit): (r: Result<SimpleNode, Failure>)
    ensures !IsAggregate(node) ==> r == Ok(LevelZeroNode(node))
    ensures IsAggregate(node) && node.functionCall.Some? ==>
      match node.functionCall.value.splitForAggregation(proj)
      case FunctionCallNode(f) => r == Ok(LevelZeroNode(LevelZeroIdentifier(Some(f), Option.None, Option.None)))
      case other => r == Ok(other)
    ensures IsAggregate(node) && node.functionCall.None? && node.collection.Some? ==>
      r == Ok(LevelZeroNode(LevelZeroIdentifier(Option.None, Option.None,
                                                Some(node.collection.value.splitForAggregation(proj)))))
  {
    if !IsAggregate(node) then Ok(LevelZeroNode(node))
    else if node.functionCall.Some? then
      match node.functionCall.value.splitForAggregation(proj)
      case FunctionCallNode(f) => Ok(LevelZeroNode(LevelZeroIdentifier(Some(f), Option.None, Option.None)))
      case other => Ok(other)
    else if node.collection.Some? then
      Ok(LevelZeroNode(LevelZeroIdentifier(Option.None, Option.None, Some(node.collection.value.splitForAggregation(proj)))))
    else Err(IllegalState)
  }

  /** The IllegalStateException branch cannot be taken: an aggregate node
      always has a function call or a collection. */
  lemma SplitNeverFails(node: LevelZeroIdentifier, proj: AggregateProjectionSplit)
    ensures SplitForAggregation(node, proj).Ok?
  {
  }

  /** The aggregation context comes from the function call; any other node
      raises "cannot aggregate on ...". */
  function GetAggregationContext(node: LevelZeroIdentifier, ctx: CommandContext): (r: Result<AggregationContext, Failure>)
    ensures r.Ok? <==> IsAggregate(node) && node.functionCall.Some?
    ensures r.Ok? ==> r.value == node.functionCall.value.getAggregationContext(ctx)
    ensures r.Err? ==> r.error == CommandExecution("cannot aggregate on " + Render(node, map[]))
  {
    if IsAggregate(node) && node.functionCall.Some? then Ok(node.functionCall.value.getAggregationContext(ctx))
    else Err(CommandExecution("cannot aggregate on " + Render(node, map[])))
  }

  /** A node that aggregates only through its collection still cannot give
      an aggregation context. */
  lemma CollectionAggregateHasNoContext(node: LevelZeroIdentifier, ctx: CommandContext)
    requires node.functionCall.None? && node.collection.Some? && node.collection.value.isAggregate
    ensures IsAggregate(node) && GetAggregationContext(node, ctx).Err?
  {
  }
}
