/** The application's call pipeline, seen only as far as the call-logging feature touches it:
    an ordered list of phase names, phase-relative insertion, and a list of interceptor
    registrations, each tied to one phase. */
module Pipeline {
  import opened Wrappers
  import opened Sequences
  import Logging
  import Lifecycle

  /** The name of the pipeline's built-in infrastructure phase. */
  const Infrastructure: string := "Infrastructure"

  /** The phase list after inserting `phase` just before the first occurrence of `reference`;
      `None` when `reference` is not a phase of the list. */
  function InsertBefore(phases: seq<string>, reference: string, phase: string): (r: Option<seq<string>>)
    ensures r.None? <==> reference !in phases
    ensures r.Some? ==>
      var i := IndexOf(phases, reference);
      && |r.value| == |phases| + 1
      && r.value[i] == phase
      && r.value[i + 1] == reference
      && reference !in r.value[..i]
      && r.value[..i] + r.value[i + 1..] == phases
  {
    var i := IndexOf(phases, reference);
    if i == |phases| then None
    else
      var r := phases[..i] + [phase] + phases[i..];
      assert r[..i] == phases[..i] && r[i + 1..] == phases[i..];
      Some(r)
  }

  /** An interceptor block, identified by the object that installed it. */
  datatype Interceptor = Interceptor(owner: object)

  /** One `intercept(phase) { … }` call. */
  datatype Registration = Registration(phase: string, interceptor: Interceptor)

  /** The interceptors of one phase, in the order they were added. */
  function InterceptorsOf(registrations: seq<Registration>, phase: string): seq<Interceptor>
  {
    if registrations == [] then []
    else
      (if registrations[0].phase == phase then [registrations[0].interceptor] else [])
      + InterceptorsOf(registrations[1..], phase)
  }

  /** Registering an interceptor adds it at the end of its own phase's list, and to no other. */
  lemma {:induction false} InterceptorsOfAppend(registrations: seq<Registration>, added: Registration, phase: string)
    ensures InterceptorsOf(registrations + [added], phase)
         == InterceptorsOf(registrations, phase) + (if added.phase == phase then [added.interceptor] else [])
  {
    if registrations == [] {
      assert registrations + [added] == [added];
    } else {
      assert (registrations + [added])[1..] == registrations[1..] + [added];
      InterceptorsOfAppend(registrations[1..], added, phase);
    }
  }

  /** The hosting application: its logger, its environment's monitor, and its call pipeline. */
  class Application {
    const log: Logging.Logger
    const monitor: Lifecycle.ApplicationMonitor
    var phases: seq<string>
    var registrations: seq<Registration>

    constructor (log: Logging.Logger, monitor: Lifecycle.ApplicationMonitor, phases: seq<string>)
      ensures this.log == log && this.monitor == monitor
      ensures this.phases == phases && registrations == []
    {
      this.log, this.monitor := log, monitor;
      this.phases, registrations := phases, [];
    }

    /** `insertPhaseBefore(reference, phase)`; `ok` is false, and nothing changes, when
        `reference` is not a phase of this pipeline. */
    method InsertPhaseBefore(reference: string, phase: string) returns (ok: bool)
      modifies this`phases
      ensures ok <==> reference in old(phases)
      ensures ok ==> Some(phases) == InsertBefore(old(phases), reference, phase)
      ensures !ok ==> phases == old(phases)
    {
      var r := InsertBefore(phases, reference, phase);
      ok := r.Some?;
      if ok {
        phases := r.value;
      }
    }

    /** `intercept(phase) { … }` on a phase of this pipeline. */
    method Intercept(phase: string, interceptor: Interceptor)
      requires phase in phases
      modifies this`registrations
      ensures registrations == old(registrations) + [Registration(phase, interceptor)]
    {
      registrations := registrations + [Registration(phase, interceptor)];
    }
  }
}
