/**
 * The hook runners and the response classifier of utils.js.
 *
 * A hook list runs strictly in order: each name is first rendered as a
 * template against the context, then looked up in the processor table; a
 * name that is not there is replaced by `doNothing`. Each hook finishes
 * (calls its callback) before the next starts, and the first hook that
 * reports a truthy error ends the run with that error.
 */
module Utils {
  import opened Js
  import opened Runtime

  /** `doNothing`: calls its last argument, the completion callback, with `null`. */
  function DoNothing(): (f: ProcFn)
    ensures forall c, v :: f.behave(c, v).vars == v && !Truthy(f.behave(c, v).err)
  {
    ProcFn((c: Call, v: Vars) => Outcome(v, Null))
  }

  /** The function a rendered hook name stands for: its processor, or `doNothing`. */
  function Resolve(processor: map<string, ProcFn>, fn: string): (f: ProcFn)
    ensures fn in processor ==> f == processor[fn]
    ensures fn !in processor ==> forall c, v :: f.behave(c, v).vars == v && !Truthy(f.behave(c, v).err)
  {
    if fn in processor then processor[fn] else DoNothing()
  }

  /** The result of running a hook list: the context's variables afterwards,
   *  the error handed to `done` (None for `null`), and the rendered names of
   *  the hooks that were called, in call order. */
  datatype HookRun = HookRun(vars: Vars, err: Option<JsValue>, called: seq<string>)

  /** The calls `called` made ahead of the run `r`. */
  function Prepend(called: seq<string>, r: HookRun): HookRun
  {
    HookRun(r.vars, r.err, called + r.called)
  }

  /** What running `names` as hooks of kind `call` does, starting from `vars`. */
  function RunHooks(script: Script, template: (string, Vars) -> string,
                    names: seq<string>, call: Call, vars: Vars): (r: HookRun)
    ensures names == [] ==> r == HookRun(vars, None, [])
    ensures names != [] ==> |r.called| > 0 && r.called[0] == template(names[0], vars)
    ensures |r.called| <= |names|
    ensures r.err.None? ==> |r.called| == |names|
    ensures r.err.Some? ==> Truthy(r.err.value)
    decreases |names|
  {
    if names == [] then HookRun(vars, None, [])
    else
      var fn := template(names[0], vars);
      var o := Resolve(script.processor, fn).behave(call, vars);
      if Truthy(o.err) then HookRun(o.vars, Some(o.err), [fn])
      else Prepend([fn], RunHooks(script, template, names[1..], call, o.vars))
  }

  /** `A.eachSeries` over the hook names with the iteratee of utils.js:14-28
   *  (and utils.js:35-49): render, look up, call, stop on the first error. */
  method EachHook(script: Script, template: (string, Vars) -> string,
                  names: seq<string>, call: Call, ctx: Context)
    returns (err: Option<JsValue>, ghost called: seq<string>)
    modifies ctx`vars
    ensures HookRun(ctx.vars, err, called) == RunHooks(script, template, names, call, old(ctx.vars))
  {
    err, called := None, [];
    var i := 0;
    while i < |names|
      invariant 0 <= i <= |names|
      invariant RunHooks(script, template, names, call, old(ctx.vars))
                == Prepend(called, RunHooks(script, template, names[i..], call, ctx.vars))
    {
      assert names[i..][0] == names[i] && names[i..][1..] == names[i + 1..];
      var fn := template(names[i], ctx.vars);
      var processFunc: ProcFn;
      if fn in script.processor {
        processFunc := script.processor[fn];
      } else {
        processFunc := DoNothing();
      }
      var o := processFunc.behave(call, ctx.vars);
      ctx.vars := o.vars;
      called := called + [fn];
      if Truthy(o.err) {
        err := Some(o.err);
        return;
      }
      i := i + 1;
    }
  }

  /** `processBeforeRequestFunctions`: each hook is called as `(params, context, ee, cb)`. */
  method ProcessBeforeRequestFunctions(script: Script, template: (string, Vars) -> string,
                                       names: seq<string>, params: JsValue, ctx: Context)
    returns (err: Option<JsValue>, ghost called: seq<string>)
    modifies ctx`vars
    ensures HookRun(ctx.vars, err, called)
            == RunHooks(script, template, names, BeforeRequestCall(params), old(ctx.vars))
  {
    err, called := EachHook(script, template, names, BeforeRequestCall(params), ctx);
  }

  /** `processAfterResponseFunctions`: each hook is called as `(params, response, context, ee, cb)`. */
  method ProcessAfterResponseFunctions(script: Script, template: (string, Vars) -> string,
                                       names: seq<string>, params: JsValue, response: JsValue,
                                       ctx: Context)
    returns (err: Option<JsValue>, ghost called: seq<string>)
    modifies ctx`vars
    ensures HookRun(ctx.vars, err, called)
            == RunHooks(script, template, names, AfterResponseCall(params, response), old(ctx.vars))
  {
    err, called := EachHook(script, template, names, AfterResponseCall(params, response), ctx);
  }

  /** Running `a` and then, unless it failed, `b` from where `a` left off. */
  function Then(script: Script, template: (string, Vars) -> string,
                r: HookRun, b: seq<string>, call: Call): HookRun
  {
    if r.err.Some? then r else Prepend(r.called, RunHooks(script, template, b, call, r.vars))
  }

  /** Hook lists compose sequentially: the hooks of `b` run only after all of
   *  `a` succeeded, and not at all once a hook of `a` failed. */
  lemma {:induction false} RunHooksAppend(script: Script, template: (string, Vars) -> string,
                                          a: seq<string>, b: seq<string>, call: Call, vars: Vars)
    ensures RunHooks(script, template, a + b, call, vars)
            == Then(script, template, RunHooks(script, template, a, call, vars), b, call)
  {
    if a == [] {
      assert a + b == b;
      var r := RunHooks(script, template, b, call, vars);
      assert [] + r.called == r.called;
    } else {
      assert (a + b)[0] == a[0] && (a + b)[1..] == a[1..] + b;
      var fn := template(a[0], vars);
      var o := Resolve(script.processor, fn).behave(call, vars);
      if !Truthy(o.err) {
        RunHooksAppend(script, template, a[1..], b, call, o.vars);
        var ra := RunHooks(script, template, a[1..], call, o.vars);
        if ra.err.None? {
          var rb := RunHooks(script, template, b, call, ra.vars);
          assert [fn] + (ra.called + rb.called) == ([fn] + ra.called) + rb.called;
        }
      }
    }
  }

  /** A hook that fails ends the run: whatever follows it in the list is never called. */
  lemma FailedHooksIgnoreRest(script: Script, template: (string, Vars) -> string,
                              a: seq<string>, b: seq<string>, call: Call, vars: Vars)
    requires RunHooks(script, template, a, call, vars).err.Some?
    ensures RunHooks(script, template, a + b, call, vars) == RunHooks(script, template, a, call, vars)
  {
    RunHooksAppend(script, template, a, b, call, vars);
  }

  /** When no rendered name is in the processor table, every hook becomes
   *  `doNothing`: each name is still rendered and called once, in order, the
   *  run ends without error and the variables are left as they were. */
  lemma {:induction false} MissingHooksAreNoOps(script: Script, template: (string, Vars) -> string,
                                                names: seq<string>, call: Call, vars: Vars)
    requires forall i :: 0 <= i < |names| ==> template(names[i], vars) !in script.processor
    ensures RunHooks(script, template, names, call, vars).vars == vars
    ensures RunHooks(script, template, names, call, vars).err == None
    ensures RunHooks(script, template, names, call, vars).called
            == seq(|names|, i requires 0 <= i < |names| => template(names[i], vars))
  {
    if names != [] {
      forall i | 0 <= i < |names[1..]|
        ensures template(names[1..][i], vars) !in script.processor
      {
        assert names[1..][i] == names[i + 1];
      }
      MissingHooksAreNoOps(script, template, names[1..], call, vars);
    }
  }

  /** The processor is looked up under the rendered name, never the raw one:
   *  when the first name renders to a key of the table, that processor is the
   *  hook called. If it fails, its error ends the run after that one call;
   *  otherwise the rest of the list runs from the variables it left. */
  lemma FirstHookIsRenderedLookup(script: Script, template: (string, Vars) -> string,
                                  names: seq<string>, call: Call, vars: Vars)
    requires names != [] && template(names[0], vars) in script.processor
    ensures var fn := template(names[0], vars);
            var o := script.processor[fn].behave(call, vars);
            && (Truthy(o.err) ==> RunHooks(script, template, names, call, vars)
                                  == HookRun(o.vars, Some(o.err), [fn]))
            && (!Truthy(o.err) ==> RunHooks(script, template, names, call, vars)
                                   == Prepend([fn], RunHooks(script, template, names[1..], call, o.vars)))
  {
  }

  /** The object `tryToParse` returns. */
  datatype Parsed = Parsed(body: JsValue, contentType: string)

  /** `tryToParse`: the parsed body tagged `application/json` when `data` is
   *  JSON, otherwise `data` itself with an empty content type; it never fails. */
  function TryToParse(parse: string -> Option<JsValue>, data: string): (r: Parsed)
    ensures r.contentType == "application/json" <==> parse(data).Some?
    ensures r.contentType == "" <==> parse(data).None?
    ensures parse(data).Some? ==> r.body == parse(data).value
    ensures parse(data).None? ==> r.body == Str(data)
  {
    match parse(data)
    case Some(v) => Parsed(v, "application/json")
    case None => Parsed(Str(data), "")
  }

  /** A body the JSON codec wrote is classified as JSON and read back unchanged. */
  lemma TryToParseRoundTrip(json: Foreign, v: JsValue)
    requires json.parse(json.stringify(v)) == Some(v)
    ensures TryToParse(json.parse, json.stringify(v)) == Parsed(v, "application/json")
  {
  }
}
