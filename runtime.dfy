/**
 * The objects a scenario run shares with its host: the per-virtual-user
 * context, the event emitter that feeds the metrics collector, the script
 * configuration with its processor table, and the foreign collaborators
 * (Artillery's engine helpers, JSON, the AWS Lambda client), which appear
 * here only through the answers they give.
 */
module Runtime {
  import opened Js

  /** How a processor function is being called: as a custom flow step
   *  `(context, ee, done)`, as a before-request hook `(params, context, ee, done)`
   *  or as an after-response hook `(params, response, context, ee, done)`. */
  datatype Call =
    | StepCall
    | BeforeRequestCall(params: JsValue)
    | AfterResponseCall(params: JsValue, response: JsValue)

  /** What a processor function does to the context's variables before it calls
   *  its completion callback, and the value it hands that callback as `err`. */
  datatype Outcome = Outcome(vars: Vars, err: JsValue)

  /** A user-supplied processor function, known by its behaviour. */
  datatype ProcFn = ProcFn(behave: (Call, Vars) -> Outcome)

  /** `script.config.lambda`. */
  datatype LambdaConfig = LambdaConfig(region: JsValue, functionEndpoint: JsValue)  // `region`, `function`

  /** The parts of `script.config` the engine reads. */
  datatype Script = Script(
    target: JsValue,                  // config.target
    lambda: LambdaConfig,             // config.lambda
    processor: map<string, ProcFn>,   // config.processor
    thinkDefaults: JsValue)           // config.defaults.think (Undefined when absent)

  /** The options `init` hands to the Lambda client constructor. */
  datatype ClientOptions = ClientOptions(region: JsValue, endpoint: Option<JsValue>)

  /** The record passed to `Lambda.invoke`. */
  datatype InvokeParams = InvokeParams(
    clientContext: JsValue,
    functionName: JsValue,
    invocationType: JsValue,
    logType: JsValue,
    payload: string,
    qualifier: JsValue)

  /** The two arguments `Lambda.invoke` passes its callback. */
  datatype Reply = Reply(err: JsValue, data: JsValue)

  /** Artillery's engine helpers (`engine_util`), by the answers the engine uses. */
  datatype Helpers = Helpers(
    loopRounds: JsValue -> nat)   // how often createLoopWithCount(count, ...) runs its body

  /** JSON and the AWS SDK. */
  datatype Foreign = Foreign(
    stringify: JsValue -> string,                      // JSON.stringify on an object
    parse: string -> Option<JsValue>,                  // JSON.parse; None when it throws
    invoke: (ClientOptions, InvokeParams) -> Reply)    // new Lambda(opts).invoke(params, cb)

  /** The lifecycle events the engine emits. */
  datatype Event =
    | Started
    | Request
    | Response(elapsed: int, status: int, uid: JsValue)
    | Error(err: JsValue)

  /** The event emitter `ee`; its listeners are the host's business. */
  class Emitter {
    var events: seq<Event>

    constructor ()
      ensures events == []
    {
      events := [];
    }

    method Emit(e: Event)
      modifies this
      ensures events == old(events) + [e]
    {
      events := events + [e];
    }
  }

  /** A virtual user's context: its variables, its Lambda client once `init`
   *  has made one, and the identifier the host gave the run. */
  class Context {
    var vars: Vars
    var lambda: Option<ClientOptions>
    const uid: JsValue

    constructor (uid: JsValue, vars: Vars)
      ensures this.uid == uid && this.vars == vars && lambda == None
    {
      this.uid := uid;
      this.vars := vars;
      lambda := None;
    }
  }
}
