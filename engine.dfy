/**
 * The step compiler and scenario runner of index.js.
 *
 * `StepOf` is `LambdaEngine.prototype.step`: it looks at which field of a
 * flow node is set, in the fixed order loop, log, think, function, invoke,
 * and anything else becomes a pass-through step. `CreateScenario` compiles a
 * whole flow. `RunStep`/`RunSteps` say what the compiled steps do when run
 * as a waterfall that stops at the first error; `ExecStep`, `Waterfall` and
 * `RunScenarioOn` are the same steps run imperatively against a context
 * object and an event emitter.
 *
 * The code reads `self.config` (index.js:42, index.js:47), but the
 * constructor (index.js:12-18) assigns only `script`, `ee` and `helpers`.
 * `FunctionLookupAsWritten` and `ThinkDefaultsAsWritten` model the code as
 * written; the rest of this module reads the processor table and the think
 * defaults from `script.config`, which `self.config` evidently stands for.
 */
module Engine {
  import opened Js
  import opened Runtime

  /** `rs.invoke`; a field that is absent is `Undefined`. */
  datatype InvokeSpec = InvokeSpec(
    target: JsValue,
    payload: JsValue,
    clientContext: JsValue,
    invocationType: JsValue,
    logType: JsValue,
    qualifier: JsValue)

  /** A flow node `rs`. `hasLoop` says whether `rs.loop` is present (an array,
   *  truthy even when empty) and `loop` is that array; `fn` is the `function`
   *  field; `invoke` is present when the node has an `invoke` object. */
  datatype FlowNode = FlowNode(
    hasLoop: bool,
    loop: seq<FlowNode>,
    count: JsValue,
    log: JsValue,
    think: JsValue,
    fn: Option<string>,
    invoke: Option<InvokeSpec>)

  datatype ScenarioSpec = ScenarioSpec(flow: seq<FlowNode>)

  /** `LambdaEngine(script, ee, helpers)`; the emitter travels separately. */
  datatype Engine = Engine(script: Script, helpers: Helpers)

  /** A compiled step, the closure `step` returns. */
  datatype Step =
    | LoopStep(count: JsValue, body: seq<Step>)      // createLoopWithCount(count, steps)
    | LogStep
    | ThinkStep(think: JsValue, defaults: JsValue)   // createThink(rs, defaults)
    | FunctionStep(name: string)
    | InvokeStep(spec: InvokeSpec)
    | PassStep

  /** The runnable scenario `createScenario` returns. */
  datatype Scenario = Scenario(tasks: seq<Step>)

  /** A function name is set when it is present and not the empty string. */
  predicate FnSet(rs: FlowNode)
  {
    rs.fn.Some? && rs.fn.value != ""
  }

  /** `_.get(config, 'defaults.think', {})`: the script's think defaults, or
   *  `{}` when it sets none. */
  function ThinkDefaults(script: Script): (d: JsValue)
    ensures !d.Undefined?
    ensures !script.thinkDefaults.Undefined? ==> d == script.thinkDefaults
    ensures script.thinkDefaults.Undefined? ==> d == Obj(map[])
  {
    if script.thinkDefaults.Undefined? then Obj(map[]) else script.thinkDefaults
  }

  /** The kinds of step `step` can produce. */
  datatype Kind = LoopKind | LogKind | ThinkKind | FunctionKind | InvokeKind | PassKind

  function KindOf(s: Step): Kind
  {
    match s
    case LoopStep(_, _) => LoopKind
    case LogStep => LogKind
    case ThinkStep(_, _) => ThinkKind
    case FunctionStep(_) => FunctionKind
    case InvokeStep(_) => InvokeKind
    case PassStep => PassKind
  }

  /** The fields a node has set, listed in the order loop, log, think, function, invoke. */
  function TagsOf(rs: FlowNode): seq<Kind>
  {
    (if rs.hasLoop then [LoopKind] else [])
    + (if Truthy(rs.log) then [LogKind] else [])
    + (if Truthy(rs.think) then [ThinkKind] else [])
    + (if FnSet(rs) then [FunctionKind] else [])
    + (if rs.invoke.Some? then [InvokeKind] else [])
  }

  /** `step(rs, ee)`: dispatch on the first field set among loop, log, think,
   *  function and invoke; a node with none of them becomes a pass-through step. */
  function StepOf(eng: Engine, rs: FlowNode): (s: Step)
    ensures KindOf(s) == if TagsOf(rs) == [] then PassKind else TagsOf(rs)[0]
    ensures s.ThinkStep? ==> s.think == rs.think && s.defaults == ThinkDefaults(eng.script)
    ensures s.FunctionStep? ==> rs.fn == Some(s.name)
    ensures s.InvokeStep? ==> rs.invoke == Some(s.spec)
    decreases rs
  {
    if rs.hasLoop then LoopStep(Or(rs.count, Num(-1)), StepsOf(eng, rs.loop))
    else if Truthy(rs.log) then LogStep
    else if Truthy(rs.think) then ThinkStep(rs.think, ThinkDefaults(eng.script))
    else if FnSet(rs) then FunctionStep(rs.fn.value)
    else if rs.invoke.Some? then InvokeStep(rs.invoke.value)
    else PassStep
  }

  /** `flow.map(rs => this.step(rs, ee))`. */
  function StepsOf(eng: Engine, flow: seq<FlowNode>): (steps: seq<Step>)
    ensures |steps| == |flow|
    ensures forall i :: 0 <= i < |flow| ==> steps[i] == StepOf(eng, flow[i])
    decreases flow
  {
    if flow == [] then [] else [StepOf(eng, flow[0])] + StepsOf(eng, flow[1..])
  }

  /** `createScenario`: every node of the flow compiled, in declared order. */
  function CreateScenario(eng: Engine, spec: ScenarioSpec): (sc: Scenario)
    ensures |sc.tasks| == |spec.flow|
    ensures forall i :: 0 <= i < |spec.flow| ==> sc.tasks[i] == StepOf(eng, spec.flow[i])
  {
    Scenario(StepsOf(eng, spec.flow))
  }

  /** The payload string: JSON for an object (`null` included), `String(v)` otherwise. */
  function PayloadString(stringify: JsValue -> string, payload: JsValue): (s: string)
    ensures IsObject(payload) ==> s == stringify(payload)
    ensures payload.Str? ==> s == payload.s
    ensures !IsObject(payload) ==> s == ToJsString(payload)
    ensures payload.Undefined? ==> s == "undefined"
    ensures payload.Bool? ==> s == (if payload.b then "true" else "false")
    ensures payload.Num? && payload.n >= 0 ==> Canonical(s) && DecimalValue(s) == payload.n
    ensures payload.Num? && payload.n < 0 ==> |s| > 1 && s[0] == '-' && Canonical(s[1..]) && DecimalValue(s[1..]) == -payload.n
  {
    if IsObject(payload) then stringify(payload) else ToJsString(payload)
  }

  /** The `params` record of an invoke step. */
  function InvokeParamsOf(target: JsValue, spec: InvokeSpec, payload: string): (p: InvokeParams)
    ensures p.functionName == target && p.payload == payload
    ensures p.clientContext == (if Truthy(spec.clientContext) then spec.clientContext else Str(""))
    ensures Truthy(spec.invocationType) ==> p.invocationType == spec.invocationType
    ensures !Truthy(spec.invocationType) ==> p.invocationType == Str("Event")
    ensures Truthy(spec.logType) ==> p.logType == spec.logType
    ensures !Truthy(spec.logType) ==> p.logType == Str("Tail")
    ensures Truthy(spec.qualifier) ==> p.qualifier == spec.qualifier
    ensures !Truthy(spec.qualifier) ==> p.qualifier == Str("1")
    ensures Truthy(p.invocationType) && Truthy(p.logType) && Truthy(p.qualifier)
  {
    InvokeParams(
      Or(spec.clientContext, Str("")),
      target,
      Or(spec.invocationType, Str("Event")),
      Or(spec.logType, Str("Tail")),
      payload,
      Or(spec.qualifier, Str("1")))
  }

  /** The parameters the invoke step `spec` sends. */
  function ParamsFor(eng: Engine, x: Foreign, spec: InvokeSpec): InvokeParams
  {
    InvokeParamsOf(eng.script.target, spec, PayloadString(x.stringify, spec.payload))
  }

  /** The options `init` builds for the Lambda client. */
  function InitOptions(cfg: LambdaConfig): (o: ClientOptions)
    ensures Truthy(o.region)
    ensures Truthy(cfg.region) ==> o.region == cfg.region
    ensures !Truthy(cfg.region) ==> o.region == Str("us-east-1")
    ensures o.endpoint.Some? <==> Truthy(cfg.functionEndpoint)
    ensures o.endpoint.Some? ==> o.endpoint.value == cfg.functionEndpoint
  {
    ClientOptions(
      Or(cfg.region, Str("us-east-1")),
      if Truthy(cfg.functionEndpoint) then Some(cfg.functionEndpoint) else None)
  }

  /** The context's variables and the events emitted so far. */
  datatype State = State(vars: Vars, events: seq<Event>)

  /** A step's completion: the state it hands on and the error it reports (None for `null`). */
  datatype StepResult = StepResult(st: State, err: Option<JsValue>)

  /** The invoke closure: `request`, the transport call, then `response` or `error`. */
  function RunInvoke(eng: Engine, x: Foreign, client: ClientOptions, uid: JsValue,
                     spec: InvokeSpec, st: State): (r: StepResult)
    ensures r.st.vars == st.vars
    ensures |r.st.events| == |st.events| + 2
    ensures r.st.events[..|st.events|] == st.events && r.st.events[|st.events|] == Request
    ensures var reply := x.invoke(client, ParamsFor(eng, x, spec));
            && (r.err.Some? <==> Truthy(reply.err))
            && (r.err.Some? ==> r.err.value == reply.err && r.st.events[|st.events| + 1] == Error(reply.err))
            && (r.err.None? ==> r.st.events[|st.events| + 1] == Response(0, 0, uid))
  {
    var reply := x.invoke(client, ParamsFor(eng, x, spec));
    if Truthy(reply.err) then
      StepResult(st.(events := st.events + [Request, Error(reply.err)]), Some(reply.err))
    else
      StepResult(st.(events := st.events + [Request, Response(0, 0, uid)]), None)
  }

  /** What running one compiled step does. A loop runs its body as many
   *  rounds as the loop helper does for its count; a think step only waits. */
  function RunStep(eng: Engine, x: Foreign, client: ClientOptions, uid: JsValue,
                   step: Step, st: State): (r: StepResult)
    ensures st.events <= r.st.events
    ensures r.err.Some? ==> Truthy(r.err.value)
    ensures step.InvokeStep? || step.LoopStep? || r.err.None?
    decreases step, 0, 0
  {
    match step
    case LoopStep(count, body) => RunRounds(eng, x, client, uid, body, eng.helpers.loopRounds(count), st)
    case LogStep => StepResult(st, None)
    case ThinkStep(_, _) => StepResult(st, None)
    case FunctionStep(name) =>
      if name in eng.script.processor then
        StepResult(st.(vars := eng.script.processor[name].behave(StepCall, st.vars).vars), None)
      else
        StepResult(st, None)
    case InvokeStep(spec) => RunInvoke(eng, x, client, uid, spec, st)
    case PassStep => StepResult(st, None)
  }

  /** The waterfall: each step gets the context the previous one handed on,
   *  and the first error ends the run. */
  function RunSteps(eng: Engine, x: Foreign, client: ClientOptions, uid: JsValue,
                    steps: seq<Step>, st: State): (r: StepResult)
    ensures st.events <= r.st.events
    ensures r.err.Some? ==> Truthy(r.err.value)
    decreases steps, 0
  {
    if steps == [] then StepResult(st, None)
    else
      var r := RunStep(eng, x, client, uid, steps[0], st);
      if r.err.Some? then r else RunSteps(eng, x, client, uid, steps[1..], r.st)
  }

  /** `n` rounds of a loop body, stopping at the first error. */
  function RunRounds(eng: Engine, x: Foreign, client: ClientOptions, uid: JsValue,
                     body: seq<Step>, n: nat, st: State): (r: StepResult)
    ensures st.events <= r.st.events
    ensures r.err.Some? ==> Truthy(r.err.value)
    decreases body, 1, n
  {
    if n == 0 then StepResult(st, None)
    else
      var r := RunSteps(eng, x, client, uid, body, st);
      if r.err.Some? then r else RunRounds(eng, x, client, uid, body, n - 1, r.st)
  }

  /** The outcome of the scenario function: the client `init` made, the final
   *  state and the error handed to the final callback. */
  datatype Run = Run(client: ClientOptions, st: State, err: Option<JsValue>)

  /** `compile(tasks)` applied to a context: `init`, then the waterfall over the tasks. */
  function RunScenario(eng: Engine, x: Foreign, sc: Scenario, uid: JsValue, st: State): (r: Run)
    ensures r.client == InitOptions(eng.script.lambda)
    ensures st.events + [Started] <= r.st.events
    ensures r.err.Some? ==> Truthy(r.err.value)
  {
    var client := InitOptions(eng.script.lambda);
    var r := RunSteps(eng, x, client, uid, sc.tasks, st.(events := st.events + [Started]));
    Run(client, r.st, r.err)
  }

  /** One compiled step run against the context object and the emitter. */
  method ExecStep(eng: Engine, x: Foreign, step: Step, ctx: Context, ee: Emitter)
    returns (err: Option<JsValue>)
    requires ctx.lambda.Some?
    modifies ctx`vars, ee
    ensures var r := RunStep(eng, x, ctx.lambda.value, ctx.uid, step, State(old(ctx.vars), old(ee.events)));
            ctx.vars == r.st.vars && ee.events == r.st.events && err == r.err
    decreases step, 0, 0
  {
    match step {
      case LoopStep(count, body) =>
        err := ExecRounds(eng, x, body, eng.helpers.loopRounds(count), ctx, ee);
      case LogStep =>
        err := None;
      case ThinkStep(_, _) =>
        err := None;
      case FunctionStep(name) =>
        if name in eng.script.processor {
          var o := eng.script.processor[name].behave(StepCall, ctx.vars);
          ctx.vars := o.vars;
        }
        err := None;
      case InvokeStep(spec) =>
        var payload := PayloadString(x.stringify, spec.payload);
        var params := InvokeParamsOf(eng.script.target, spec, payload);
        ee.Emit(Request);
        var reply := x.invoke(ctx.lambda.value, params);
        if Truthy(reply.err) {
          ee.Emit(Error(reply.err));
          err := Some(reply.err);
        } else {
          ee.Emit(Response(0, 0, ctx.uid));
          err := None;
        }
      case PassStep =>
        err := None;
    }
  }

  /** `A.waterfall` over compiled steps: run them in order, stop at the first error. */
  method Waterfall(eng: Engine, x: Foreign, steps: seq<Step>, ctx: Context, ee: Emitter)
    returns (err: Option<JsValue>)
    requires ctx.lambda.Some?
    modifies ctx`vars, ee
    ensures var r := RunSteps(eng, x, ctx.lambda.value, ctx.uid, steps, State(old(ctx.vars), old(ee.events)));
            ctx.vars == r.st.vars && ee.events == r.st.events && err == r.err
    decreases steps, 0
  {
    err := None;
    var i := 0;
    while i < |steps|
      invariant 0 <= i <= |steps|
      invariant err == None
      invariant RunSteps(eng, x, ctx.lambda.value, ctx.uid, steps, State(old(ctx.vars), old(ee.events)))
                == RunSteps(eng, x, ctx.lambda.value, ctx.uid, steps[i..], State(ctx.vars, ee.events))
    {
      assert steps[i..][0] == steps[i] && steps[i..][1..] == steps[i + 1..];
      ghost var before := State(ctx.vars, ee.events);
      err := ExecStep(eng, x, steps[i], ctx, ee);
      if err.Some? {
        assert RunSteps(eng, x, ctx.lambda.value, ctx.uid, steps[i..], before)
               == RunStep(eng, x, ctx.lambda.value, ctx.uid, steps[i], before);
        return;
      }
      i := i + 1;
    }
    assert steps[i..] == [];
  }

  /** The rounds of a loop step, each a waterfall over the body. */
  method ExecRounds(eng: Engine, x: Foreign, body: seq<Step>, n: nat, ctx: Context, ee: Emitter)
    returns (err: Option<JsValue>)
    requires ctx.lambda.Some?
    modifies ctx`vars, ee
    ensures var r := RunRounds(eng, x, ctx.lambda.value, ctx.uid, body, n, State(old(ctx.vars), old(ee.events)));
            ctx.vars == r.st.vars && ee.events == r.st.events && err == r.err
    decreases body, 1, n
  {
    err := None;
    var k: nat := n;
    while k > 0
      invariant k <= n
      invariant err == None
      invariant RunRounds(eng, x, ctx.lambda.value, ctx.uid, body, n, State(old(ctx.vars), old(ee.events)))
                == RunRounds(eng, x, ctx.lambda.value, ctx.uid, body, k, State(ctx.vars, ee.events))
    {
      err := Waterfall(eng, x, body, ctx, ee);
      if err.Some? {
        return;
      }
      k := k - 1;
    }
  }

  /** The scenario function `compile` returns, applied to `initialContext`:
   *  `init` sets the Lambda client and emits `started`, then the waterfall runs. */
  method RunScenarioOn(eng: Engine, x: Foreign, sc: Scenario, ctx: Context, ee: Emitter)
    returns (err: Option<JsValue>)
    modifies ctx, ee
    ensures var r := RunScenario(eng, x, sc, ctx.uid, State(old(ctx.vars), old(ee.events)));
            ctx.lambda == Some(r.client) && ctx.vars == r.st.vars && ee.events == r.st.events && err == r.err
  {
    var cfg := eng.script.lambda;
    var opts := ClientOptions(Or(cfg.region, Str("us-east-1")), None);
    if Truthy(cfg.functionEndpoint) {
      opts := opts.(endpoint := Some(cfg.functionEndpoint));
    }
    ctx.lambda := Some(opts);
    ee.Emit(Started);
    err := Waterfall(eng, x, sc.tasks, ctx, ee);
  }

  // ---- The code as written: `self.config` is never assigned ----

  /** The own properties of a `LambdaEngine` object: `config` is read by
   *  `step` but is not among the ones the constructor assigns. */
  datatype EngineObject = EngineObject(script: Script, helpers: Helpers, config: Option<Script>)

  /** `new LambdaEngine(script, ee, helpers)` (index.js:12-18). */
  function NewLambdaEngine(script: Script, helpers: Helpers): (self: EngineObject)
    ensures self.script == script && self.helpers == helpers
    ensures self.config.None?
  {
    EngineObject(script, helpers, None)
  }

  /** What reading `self.config.processor[name]` gives as written. */
  datatype Lookup = LookupThrows | Found(f: ProcFn) | NotFound

  function FunctionLookupAsWritten(self: EngineObject, name: string): (r: Lookup)
    ensures self.config.None? ==> r == LookupThrows
    ensures self.config.Some? ==> (r.Found? <==> name in self.config.value.processor)
    ensures r.Found? ==> self.config.Some? && r.f == self.config.value.processor[name]
  {
    match self.config
    case None => LookupThrows   // TypeError: cannot read `processor` of undefined
    case Some(cfg) => if name in cfg.processor then Found(cfg.processor[name]) else NotFound
  }

  /** `_.get(self.config, 'defaults.think', {})` as written. */
  function ThinkDefaultsAsWritten(self: EngineObject): (d: JsValue)
    ensures self.config.None? ==> d == Obj(map[])
    ensures self.config.Some? ==> d == ThinkDefaults(self.config.value)
  {
    match self.config
    case None => Obj(map[])
    case Some(cfg) => ThinkDefaults(cfg)
  }
}
