/**
 * What the step compiler and the scenario runner of index.js promise, stated
 * over the functional model in module Engine.
 */
module EngineProps {
  import opened Js
  import opened Runtime
  import opened Engine

  // ---- Dispatch ----

  /** A node with none of the five fields yields a step that hands the context
   *  on unchanged and reports no error. */
  lemma UntaggedNodePassesThrough(eng: Engine, x: Foreign, client: ClientOptions, uid: JsValue,
                                  rs: FlowNode, st: State)
    requires TagsOf(rs) == []
    ensures RunStep(eng, x, client, uid, StepOf(eng, rs), st) == StepResult(st, None)
  {
    assert !rs.hasLoop;
  }

  /** A loop node compiles its body, node by node in order, and passes its
   *  count on when it is truthy, otherwise -1. */
  lemma LoopCompilesBody(eng: Engine, rs: FlowNode)
    requires rs.hasLoop
    ensures StepOf(eng, rs).LoopStep?
    ensures StepOf(eng, rs).count == if Truthy(rs.count) then rs.count else Num(-1)
    ensures |StepOf(eng, rs).body| == |rs.loop|
    ensures forall i :: 0 <= i < |rs.loop| ==> StepOf(eng, rs).body[i] == StepOf(eng, rs.loop[i])
  {
  }

  /** A log step succeeds and hands on the same context, whatever else the node holds. */
  lemma LogStepIsIdentity(eng: Engine, x: Foreign, client: ClientOptions, uid: JsValue,
                          rs: FlowNode, st: State)
    requires !rs.hasLoop && Truthy(rs.log)
    ensures RunStep(eng, x, client, uid, StepOf(eng, rs), st) == StepResult(st, None)
  {
  }

  /** A function step succeeds and emits nothing. A name missing from the
   *  processor table leaves the context as it was; a present processor is
   *  called once, as a flow step, and what it reports to its callback is ignored. */
  lemma FunctionStepRunsProcessor(eng: Engine, x: Foreign, client: ClientOptions, uid: JsValue,
                                  rs: FlowNode, st: State)
    requires !rs.hasLoop && !Truthy(rs.log) && !Truthy(rs.think) && FnSet(rs)
    ensures var r := RunStep(eng, x, client, uid, StepOf(eng, rs), st);
            && r.err == None
            && r.st.events == st.events
            && (rs.fn.value !in eng.script.processor ==> r.st.vars == st.vars)
            && (rs.fn.value in eng.script.processor ==>
                  r.st.vars == eng.script.processor[rs.fn.value].behave(StepCall, st.vars).vars)
  {
  }

  /** A think step gets the script's `config.defaults.think`, or `{}` when
   *  there is none, and otherwise only waits: it hands the context on unchanged. */
  lemma ThinkStepUsesScriptDefaults(eng: Engine, x: Foreign, client: ClientOptions, uid: JsValue,
                                    rs: FlowNode, st: State)
    requires !rs.hasLoop && !Truthy(rs.log) && Truthy(rs.think)
    ensures StepOf(eng, rs).ThinkStep?
    ensures StepOf(eng, rs).defaults
            == if eng.script.thinkDefaults.Undefined? then Obj(map[]) else eng.script.thinkDefaults
    ensures RunStep(eng, x, client, uid, StepOf(eng, rs), st) == StepResult(st, None)
  {
  }

  /** The function name sent is always the script's `config.target`: a
   *  step's own `target` makes no difference to the parameters. */
  lemma StepTargetIgnored(eng: Engine, x: Foreign, spec: InvokeSpec, t: JsValue)
    ensures ParamsFor(eng, x, spec.(target := t)) == ParamsFor(eng, x, spec)
    ensures ParamsFor(eng, x, spec).functionName == eng.script.target
  {
  }

  // ---- The waterfall ----

  /** Running `a` and then, unless it failed, `b`. */
  function ThenSteps(eng: Engine, x: Foreign, client: ClientOptions, uid: JsValue,
                     r: StepResult, b: seq<Step>): StepResult
  {
    if r.err.Some? then r else RunSteps(eng, x, client, uid, b, r.st)
  }

  /** Step lists compose sequentially; a failure in `a` keeps every step of `b` from running. */
  lemma {:induction false} RunStepsAppend(eng: Engine, x: Foreign, client: ClientOptions, uid: JsValue,
                                          a: seq<Step>, b: seq<Step>, st: State)
    ensures RunSteps(eng, x, client, uid, a + b, st)
            == ThenSteps(eng, x, client, uid, RunSteps(eng, x, client, uid, a, st), b)
  {
    if a == [] {
      assert a + b == b;
    } else {
      assert (a + b)[0] == a[0] && (a + b)[1..] == a[1..] + b;
      var r := RunStep(eng, x, client, uid, a[0], st);
      if r.err.None? {
        RunStepsAppend(eng, x, client, uid, a[1..], b, r.st);
      }
    }
  }

  /** The first failing step ends the run: its result, error included, is
   *  what the final callback receives, and no later step runs. */
  lemma FirstFailureEndsRun(eng: Engine, x: Foreign, client: ClientOptions, uid: JsValue,
                            steps: seq<Step>, k: nat, st: State)
    requires k < |steps|
    requires RunSteps(eng, x, client, uid, steps[..k], st).err.None?
    requires RunStep(eng, x, client, uid, steps[k],
                     RunSteps(eng, x, client, uid, steps[..k], st).st).err.Some?
    ensures RunSteps(eng, x, client, uid, steps, st)
            == RunStep(eng, x, client, uid, steps[k], RunSteps(eng, x, client, uid, steps[..k], st).st)
  {
    assert steps == steps[..k] + steps[k..];
    RunStepsAppend(eng, x, client, uid, steps[..k], steps[k..], st);
    assert steps[k..][0] == steps[k];
  }

  // ---- Events ----

  /** `n` request/response pairs for the run `uid`. */
  function Pairs(n: nat, uid: JsValue): seq<Event>
  {
    if n == 0 then [] else [Request, Response(0, 0, uid)] + Pairs(n - 1, uid)
  }

  /** A transport that never reports an error. */
  ghost predicate TransportSucceeds(x: Foreign)
  {
    forall c, p :: !Truthy(x.invoke(c, p).err)
  }

  /** A node that compiles to an invoke step. */
  predicate PlainInvoke(rs: FlowNode)
  {
    !rs.hasLoop && !Truthy(rs.log) && !Truthy(rs.think) && !FnSet(rs) && rs.invoke.Some?
  }

  /** Successful invokes emit one request and then one response each, in order. */
  lemma {:induction false} InvokesEmitPairs(eng: Engine, x: Foreign, client: ClientOptions, uid: JsValue,
                                            steps: seq<Step>, st: State)
    requires TransportSucceeds(x)
    requires forall i :: 0 <= i < |steps| ==> steps[i].InvokeStep?
    ensures RunSteps(eng, x, client, uid, steps, st)
            == StepResult(st.(events := st.events + Pairs(|steps|, uid)), None)
  {
    if steps != [] {
      var r := RunStep(eng, x, client, uid, steps[0], st);
      assert r == StepResult(st.(events := st.events + [Request, Response(0, 0, uid)]), None);
      InvokesEmitPairs(eng, x, client, uid, steps[1..], r.st);
      assert st.events + [Request, Response(0, 0, uid)] + Pairs(|steps| - 1, uid)
             == st.events + Pairs(|steps|, uid);
    }
  }

  /** A scenario of N invoke nodes, all answered without error, ends without
   *  error after `started` followed by N request/response pairs, with the
   *  variables untouched and the client made from the script's configuration. */
  lemma InvokeScenarioEvents(eng: Engine, x: Foreign, spec: ScenarioSpec, uid: JsValue, st: State)
    requires TransportSucceeds(x)
    requires forall i :: 0 <= i < |spec.flow| ==> PlainInvoke(spec.flow[i])
    ensures RunScenario(eng, x, CreateScenario(eng, spec), uid, st)
            == Run(InitOptions(eng.script.lambda),
                   State(st.vars, st.events + [Started] + Pairs(|spec.flow|, uid)), None)
  {
    var sc := CreateScenario(eng, spec);
    InvokesEmitPairs(eng, x, InitOptions(eng.script.lambda), uid, sc.tasks,
                     st.(events := st.events + [Started]));
  }

  /** `n` copies of `e`, one after the other. */
  function Repeat(e: seq<Event>, n: nat): seq<Event>
  {
    if n == 0 then [] else e + Repeat(e, n - 1)
  }

  /** Loop rounds run one after the other: a body that always succeeds and
   *  emits `added` emits it once per round. */
  lemma {:induction false} RoundsRepeatBody(eng: Engine, x: Foreign, client: ClientOptions, uid: JsValue,
                                            body: seq<Step>, n: nat, st: State, added: seq<Event>)
    requires forall s: State {:trigger RunSteps(eng, x, client, uid, body, s)}
               :: RunSteps(eng, x, client, uid, body, s) == StepResult(s.(events := s.events + added), None)
    ensures RunRounds(eng, x, client, uid, body, n, st)
            == StepResult(st.(events := st.events + Repeat(added, n)), None)
  {
    if n > 0 {
      var next := st.(events := st.events + added);
      assert RunSteps(eng, x, client, uid, body, st) == StepResult(next, None);
      RoundsRepeatBody(eng, x, client, uid, body, n - 1, next, added);
      assert RunRounds(eng, x, client, uid, body, n, st) == RunRounds(eng, x, client, uid, body, n - 1, next);
      assert st.events + added + Repeat(added, n - 1) == st.events + Repeat(added, n);
    }
  }

  /** `after` continues `before` and adds no `started` event. */
  ghost predicate Grows(before: seq<Event>, after: seq<Event>)
  {
    |before| <= |after| && after[..|before|] == before && Started !in after[|before|..]
  }

  lemma GrowsTransitive(a: seq<Event>, b: seq<Event>, c: seq<Event>)
    requires Grows(a, b) && Grows(b, c)
    ensures Grows(a, c)
  {
    assert c[..|a|] == c[..|b|][..|a|];
    assert c[|a|..] == c[|a|..|b|] + c[|b|..];
    assert c[|a|..|b|] == b[|a|..];
  }

  lemma {:induction false} StepNeverStarts(eng: Engine, x: Foreign, client: ClientOptions, uid: JsValue,
                                           step: Step, st: State)
    ensures Grows(st.events, RunStep(eng, x, client, uid, step, st).st.events)
    decreases step, 0, 0
  {
    match step {
      case LoopStep(count, body) =>
        RoundsNeverStart(eng, x, client, uid, body, eng.helpers.loopRounds(count), st);
      case InvokeStep(spec) =>
        var r := RunInvoke(eng, x, client, uid, spec, st);
        var tail := r.st.events[|st.events|..];
        assert tail == [r.st.events[|st.events|], r.st.events[|st.events| + 1]];
      case _ =>
        assert st.events[|st.events|..] == [];
    }
  }

  lemma {:induction false} StepsNeverStart(eng: Engine, x: Foreign, client: ClientOptions, uid: JsValue,
                                           steps: seq<Step>, st: State)
    ensures Grows(st.events, RunSteps(eng, x, client, uid, steps, st).st.events)
    decreases steps, 0
  {
    if steps == [] {
      assert st.events[|st.events|..] == [];
    } else {
      StepNeverStarts(eng, x, client, uid, steps[0], st);
      var r := RunStep(eng, x, client, uid, steps[0], st);
      if r.err.None? {
        StepsNeverStart(eng, x, client, uid, steps[1..], r.st);
        GrowsTransitive(st.events, r.st.events, RunSteps(eng, x, client, uid, steps[1..], r.st).st.events);
      }
    }
  }

  lemma {:induction false} RoundsNeverStart(eng: Engine, x: Foreign, client: ClientOptions, uid: JsValue,
                                            body: seq<Step>, n: nat, st: State)
    ensures Grows(st.events, RunRounds(eng, x, client, uid, body, n, st).st.events)
    decreases body, 1, n
  {
    if n == 0 {
      assert st.events[|st.events|..] == [];
    } else {
      StepsNeverStart(eng, x, client, uid, body, st);
      var r := RunSteps(eng, x, client, uid, body, st);
      if r.err.None? {
        RoundsNeverStart(eng, x, client, uid, body, n - 1, r.st);
        GrowsTransitive(st.events, r.st.events, RunRounds(eng, x, client, uid, body, n - 1, r.st).st.events);
      }
    }
  }

  /** `started` is emitted exactly once per run, before anything any step emits. */
  lemma StartedOnce(eng: Engine, x: Foreign, sc: Scenario, uid: JsValue, st: State)
    ensures var r := RunScenario(eng, x, sc, uid, st);
            && |r.st.events| > |st.events|
            && r.st.events[..|st.events|] == st.events
            && r.st.events[|st.events|] == Started
            && Started !in r.st.events[|st.events| + 1..]
  {
    var start := st.(events := st.events + [Started]);
    StepsNeverStart(eng, x, InitOptions(eng.script.lambda), uid, sc.tasks, start);
    var after := RunScenario(eng, x, sc, uid, st).st.events;
    assert after[..|st.events|] == after[..|start.events|][..|st.events|];
  }

  // ---- The code as written ----

  /** As written, a function step throws a TypeError on its first run, even
   *  when the script's processor table holds the name: the table is read from
   *  `self.config`, which the constructor never assigns. */
  lemma FunctionStepThrowsAsWritten(script: Script, helpers: Helpers, name: string)
    ensures FunctionLookupAsWritten(NewLambdaEngine(script, helpers), name) == LookupThrows
  {
  }

  /** As written, a think step always gets `{}` as its defaults: a script
   *  whose `config.defaults.think` is set is ignored. */
  lemma ThinkDefaultsIgnoredAsWritten(script: Script, helpers: Helpers)
    requires !script.thinkDefaults.Undefined?
    ensures ThinkDefaultsAsWritten(NewLambdaEngine(script, helpers)) == Obj(map[])
    ensures ThinkDefaults(script) == script.thinkDefaults
  {
  }
}
