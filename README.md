# Lambda engine for Artillery: step compiler, scenario runner and hook runners

This project models the core of an Artillery engine plugin that drives load
against an AWS Lambda function. The model covers two things:

- **Step compiler and scenario runner** (`index.js`).
  - `step` turns each node of a scenario's flow into a step. It dispatches on
    the first field set among `loop`, `log`, `think`, `function` and `invoke`.
    Anything else becomes a pass-through step.
  - `createScenario` compiles the whole flow.
  - `compile` puts an `init` step in front of the compiled steps. `init`
    builds the Lambda client options and emits `started`. The steps then run
    as a waterfall that stops at the first error.
- **Hook runners and response classifier** (`utils.js`).
  - `processBeforeRequestFunctions` and `processAfterResponseFunctions` run
    named hooks strictly in order.
  - A name missing from the processor table becomes `doNothing`.
  - The first hook error ends the run.
  - `tryToParse` classifies a payload as JSON or as an opaque string.

Layout:

- `js.dfy` (module `Js`): JavaScript values, truthiness, `||` and `String()`.
- `runtime.dfy` (module `Runtime`): the objects a run shares with its host.
  - The `Context` class has `vars`, `lambda` and `uid`.
  - The `Emitter` class holds the emitted events.
  - Also the script configuration and the processor functions.
  - The foreign collaborators are records of functions (oracles): Artillery's
    `engine_util`, JSON and the Lambda client.
- `utils.dfy` (module `Utils`): the hook runners, as a specification function
  (`RunHooks`) and as an imperative loop over a `Context`
  (`EachHook` and the two entry points); `doNothing`; `tryToParse`.
- `engine.dfy` (module `Engine`): flow nodes, compiled steps, the dispatch,
  the invoke parameter record, `init`, and the run semantics.
  - `RunStep`, `RunSteps` and `RunScenario` are the specification functions.
  - `ExecStep`, `Waterfall`, `ExecRounds` and `RunScenarioOn` are the
    imperative runner. Each is proved equal to its specification function.
- `engine_props.dfy` (module `EngineProps`): the properties of the step
  compiler and the runner.

A processor function (custom step or hook) is modelled by its behaviour. For
each calling convention it gives two things: the context variables it leaves
behind, and the value it hands its completion callback.

## Model

| member | source | states |
|---|---|---|
| Utils.DoNothing | utils.js:6-9 | for every call shape and context, `doNothing` leaves the variables as they were and reports no (a falsy) error |
| Utils.Resolve | utils.js:16-20 | the processor stored under the rendered name when there is one; otherwise a function that, like `doNothing`, keeps the variables and reports no error |
| Utils.RunHooks | utils.js:11-30 | an empty list calls nothing and ends without error; the first hook called is the one named by rendering the first name against the context; at most one call per name; no error implies every name was called; a reported error is truthy |
| Utils.EachHook | utils.js:12-29 | the series loop (render, look up or fall back to `doNothing`, call, stop on the first truthy error) leaves the context variables, the error and the calls exactly as `RunHooks` describes |
| Utils.ProcessBeforeRequestFunctions | utils.js:11-30 | runs the hooks with the before-request call shape `(params, context, ee, cb)` and ends as `RunHooks` describes |
| Utils.ProcessAfterResponseFunctions | utils.js:32-51 | runs the hooks with the after-response call shape `(params, response, context, ee, cb)` and ends as `RunHooks` describes |
| Utils.RunHooksAppend | utils.js:12-29 | hook lists compose in sequence: the hooks of the second part start only from the state the first part left, and only if that part ended without error |
| Utils.FailedHooksIgnoreRest | utils.js:21-26 | once a hook reports an error, no hook after it runs and `done` receives that error |
| Utils.MissingHooksAreNoOps | utils.js:15-20 | when no rendered name is in the processor table, every name is still rendered and called once, in order; the run ends without error and the variables are unchanged |
| Utils.FirstHookIsRenderedLookup | utils.js:15-26 | the processor is looked up under the rendered name; if that processor fails, the run ends at once with its error after exactly one call; otherwise the rest of the list runs from the variables it left |
| Utils.TryToParse | utils.js:59-69 | content type `application/json` exactly when the input parses, with the parsed value as body; otherwise the input string itself as body with an empty content type; defined for every input |
| Utils.TryToParseRoundTrip | utils.js:61-63 | assuming (in its requires) that the JSON codec reads back what it writes, a body the codec wrote is classified as JSON and read back as the value that was serialised |
| Engine.StepOf | index.js:26-91 | the kind of step a node compiles to is the first field set in the order loop, log, think, function, invoke, and pass-through when none is; a think step carries the node's `think` and the script's think defaults, a function step the node's `function` name, an invoke step the node's `invoke` object |
| Engine.ThinkDefaults | index.js:42 | `_.get(config, 'defaults.think', {})`: the script's think defaults when it sets them, `{}` otherwise, so never undefined |
| Engine.StepsOf | index.js:21 | the compiled list has one step per flow node, in declared order, each the node's own compilation |
| Engine.CreateScenario | index.js:20-24 | the scenario holds one compiled step per flow node, in declared order |
| Engine.PayloadString | index.js:60-62 | an object payload (including `null`) is sent as its JSON serialisation; any other payload is sent as `String(payload)`: a string as it is, an absent payload as `"undefined"`, a boolean as `"true"`/`"false"`, and an integer as its canonical decimal form (no leading zero, a `-` in front when negative), which reads back as the integer; this is JavaScript's output for integers of magnitude up to 2^53 (see Left out) |
| Engine.InvokeParamsOf | index.js:64-71 | `FunctionName` is the script-level target; `Payload` is the payload string; `ClientContext ""`, `InvocationType "Event"`, `LogType "Tail"` and `Qualifier "1"` replace falsy fields, and truthy fields pass through; the last three are always truthy |
| Engine.InitOptions | index.js:97-103 | the region is the configured one when set, otherwise `us-east-1`, so it is never falsy; an endpoint is set exactly when `lambda.function` is truthy, and then equals it |
| Engine.RunInvoke | index.js:73-84 | an invoke step leaves the variables alone and emits exactly two events: `request` first, then `error(err)` when the transport reports a truthy error, and the step fails with that error; otherwise `response(0, 0, uid)`, and the step succeeds |
| Engine.RunStep | index.js:29-90 | running any compiled step only appends to the event log; an error it reports is truthy; only loop and invoke steps can fail, since log, think, function and pass-through steps always call back with `null` |
| Engine.RunSteps | index.js:110-120 | the waterfall only appends to the event log, and an error handed to `done` is truthy |
| Engine.RunRounds | index.js:32 | the rounds of a loop only append to the event log, and an error that ends them is truthy |
| Engine.RunScenario | index.js:95-121 | the scenario function's client is built from the script's `lambda` config by `InitOptions`; `started` is appended to the log first and the log only grows after it; a final error is truthy |
| Engine.ExecStep | index.js:26-91 | running a compiled step against the context and the emitter changes the variables and the event log, and reports the error, exactly as `RunStep` says |
| Engine.Waterfall | index.js:112-120 | running the steps in order, stopping at the first error, ends in the state and with the error `RunSteps` gives |
| Engine.ExecRounds | index.js:32 | the rounds of a loop step run one after another, each a waterfall over the body, stopping at the first error, as `RunRounds` gives |
| Engine.RunScenarioOn | index.js:95-121 | the scenario function sets the context's Lambda client from `InitOptions`, emits `started`, then ends in the state and with the error `RunScenario` gives |
| EngineProps.UntaggedNodePassesThrough | index.js:88-90 | a node with none of the five fields compiles to a step that hands on the same context with no error and emits nothing |
| EngineProps.LoopCompilesBody | index.js:29-33 | a loop node compiles each body node recursively, in order, and passes `count` on when truthy, otherwise -1 |
| EngineProps.LogStepIsIdentity | index.js:35-39 | a log step always succeeds with the same context, whatever other fields the node holds |
| EngineProps.ThinkStepUsesScriptDefaults | index.js:41-43 | a think step is given the script's think defaults (`{}` when there are none) and hands on the same context without error |
| EngineProps.FunctionStepRunsProcessor | index.js:45-56 | with the lookup corrected to read the script's `config.processor` (see Findings: as written, index.js:47 throws), a function step always succeeds and emits nothing; a missing processor leaves the context unchanged; a present processor is applied once, and whatever it reports is ignored |
| EngineProps.StepTargetIgnored | index.js:66 | the function name sent is the script's `config.target`; the node's own `target` makes no difference to the parameters |
| EngineProps.RunStepsAppend | index.js:112-120 | the waterfall composes in sequence: the steps after a failure never run, and the failure is the result |
| EngineProps.FirstFailureEndsRun | index.js:114-119 | when step k is the first to fail, the run's final state and error are exactly that step's |
| EngineProps.InvokesEmitPairs | index.js:73-84 | N successful invoke steps emit N (`request`, `response`) pairs in order and end without error |
| EngineProps.InvokeScenarioEvents | index.js:96-120 | a flow of N invoke nodes with a transport that never errs ends without error, leaves the variables unchanged, and adds `started` followed by N (`request`, `response`) pairs to the log |
| EngineProps.RoundsRepeatBody | index.js:32 | loop rounds run in sequence: a body that, from every state, succeeds, keeps the variables unchanged and appends the same events, emits those events once per round and leaves the variables as they were |
| EngineProps.StartedOnce | index.js:106 | `started` is emitted exactly once per run, ahead of every event a step emits |
| Engine.NewLambdaEngine | index.js:12-18 | the constructed engine holds the given script and helpers, and no `config` |
| Engine.FunctionLookupAsWritten | index.js:47 | reading `self.config.processor[name]` throws when the engine has no `config`; with one, it finds a processor exactly when the name is in that table, and it is the stored one |
| Engine.ThinkDefaultsAsWritten | index.js:42 | `_.get(self.config, 'defaults.think', {})` is `{}` when the engine has no `config`, and the corrected `ThinkDefaults` of it otherwise |
| EngineProps.FunctionStepThrowsAsWritten | index.js:47 | as written, for every script and helpers, the processor lookup of a function step on a freshly constructed engine throws, because `self.config` is undefined |
| EngineProps.ThinkDefaultsIgnoredAsWritten | index.js:42 | as written, a think step on a freshly constructed engine gets `{}` as its defaults even when the script sets `config.defaults.think`, which the corrected `ThinkDefaults` returns |

## Findings

| source | as written | input that shows it | evidently intended | confidence | as-written member | corrected member |
|---|---|---|---|---|---|---|
| index.js:47 | a function step reads `self.config.processor`, but the constructor (index.js:12-18) never assigns `config`, so the lookup throws a TypeError | any script and any flow node `{ function: "f" }` when its step runs | look the name up in the script's `config.processor` | medium, not executed (a host that sets `config` on the engine object would hide it) | EngineProps.FunctionStepThrowsAsWritten | EngineProps.FunctionStepRunsProcessor |
| index.js:42 | a think step reads `defaults.think` from the unassigned `self.config`, so it always gets `{}` | a script with `config.defaults.think` set and a flow node `{ think: 1 }` | use the script's `config.defaults.think` | medium, not executed | EngineProps.ThinkDefaultsIgnoredAsWritten | EngineProps.ThinkStepUsesScriptDefaults |

## Left out

- The Lambda client and the network call (index.js:7, index.js:74, index.js:105) are an oracle, `Foreign.invoke`. It maps the client options and the parameters to the callback's `(err, data)`. A transport that answers the same call differently each time is not modelled, and neither is a callback that never comes.
- The `async` library (`A.waterfall`, `A.eachSeries`) is written out as loops and recursion with early exit. No concurrency is involved.
- Artillery's `engine_util` is not part of this model; its code is not available.
  - `template` is an oracle from a name and the variables to a string. The hook runners take it as their `template` parameter.
  - `createLoopWithCount` is an oracle giving the number of rounds for a count. The body then runs that many times in sequence. The loop variables the helper sets, iteration over values and an unbounded loop are not modelled. In particular `count || -1` (index.js:32) turns `count: 0` into -1, presumably an endless loop; the oracle is unconstrained, so the model neither shows nor rules this out.
  - `createThink` is taken to wait and then hand the context on unchanged. The pause itself is not modelled.
- Utils.RunHooks: assumes `script.config.processor` exists, and looks up own keys only. With no processor table, `script.config.processor[fn]` (utils.js:16, utils.js:37) throws. A name inherited from `Object.prototype` makes the run hang or throw: `constructor` and `toString` find a function that never calls back, so the run hangs. `hasOwnProperty`, `valueOf`, `isPrototypeOf` and `toLocaleString` throw a TypeError when called with `this` undefined (utils.js:21). `__proto__` finds an object that is not a function, so the call throws. None of these cases is modelled.
- Utils.EachHook: the same assumptions as `RunHooks`, which it is proved equal to.
- Engine.InitOptions: assumes `script.config.lambda` exists. Without it, index.js:98 throws reading `region` of undefined. `LambdaConfig` is always present in the model.
- Engine.RunStep and Engine.ExecStep: a function step looks up own keys of the processor table only, as `RunHooks` does. Both read the script's `config.processor`, the corrected reading of index.js:47; the code as written reads the unassigned `self.config` and throws (see Findings).
- Runtime.Emitter.Emit: always appends the event. Node's `EventEmitter.emit('error', err)` (index.js:77) throws `err` when nobody listens for `error`, and then the invoke step never calls back. The model assumes the host registers an `error` listener, as Artillery's runner does; the bare emitters of test/index.js:74 and test/index.js:118 do not.
- Hooks that change the shared `params` or `response` objects in place (the next hook sees the change, utils.js:21, utils.js:42) are not modelled. The call shapes `BeforeRequestCall` and `AfterResponseCall` carry fixed values.
- `JSON.parse` and `JSON.stringify` are oracles. `parse` is partial (it answers None where the parser throws).
- `process.nextTick`, `debug` and the `console.log` warning about a missing hook only schedule or log, and are left out.
- Processor functions only change the context's variables and choose their callback argument. Emitting events, replacing other context fields, never calling back or calling back twice are not modelled. The emitter argument `ee` of the hook runners is not passed for the same reason.
- Numbers are integers. Fractional numbers and `NaN` are not modelled.
- Engine.PayloadString: writes every integer's exact decimal digits. JavaScript numbers are doubles, so above 2^53 `String(n)` writes the shortest digits that read back as the same double (`String(2**60)` is `"1152921504606847000"`), and from 1e21 on it uses exponent form (`"1e+21"`). The model agrees with JavaScript only for integers of magnitude up to 2^53.
- A flow node's `function` field is a string. A non-string value used as a processor key is not modelled. A `loop` field that is truthy but not an array is not modelled either; the source would throw on `.map`.
- The invoke step of this code never calls the hook runners. It has no `$increment`/`$decrement`, captures nothing, and sends literal zeros as elapsed time and status (index.js:81). The model follows the code, not the expectations of test/index.js:88-89 and test/index.js:131-132.
- Host-side virtual-user scheduling and metrics aggregation are outside the core.
