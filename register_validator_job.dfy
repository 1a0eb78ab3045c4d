/**
 * The job that registers the API validator. It is ready exactly when the
 * injected "proxies first run done" predicate holds, and running it calls
 * the injected registration callback.
 */
module RegisterValidatorJob {
  import opened Wrappers

  /** The job's errors; the job itself never produces one. */
  datatype JobError = JobError(message: string)

  /**
   * The injected readiness predicate: its current value is `done`, which
   * the proxy discovery job sets once it has completed a run.
   */
  class FirstRunDone {
    var done: bool

    constructor (done: bool)
      ensures this.done == done
    {
      this.done := done;
    }
  }

  /** The injected registration callback, observed through how often it was called. */
  class Callback {
    var calls: nat

    constructor ()
      ensures calls == 0
    {
      calls := 0;
    }

    method Invoke()
      modifies this
      ensures calls == old(calls) + 1
    {
      calls := calls + 1;
    }
  }

  class RegisterAPIValidatorJob {
    const proxiesReady: FirstRunDone
    const registerValidator: Callback

    /** Stores exactly the given predicate and callback, and nothing else. */
    constructor (proxiesReady: FirstRunDone, registerValidator: Callback)
      ensures this.proxiesReady == proxiesReady
      ensures this.registerValidator == registerValidator
    {
      this.proxiesReady := proxiesReady;
      this.registerValidator := registerValidator;
    }

    /** The job is ready exactly when the predicate currently holds. */
    method Ready() returns (r: bool)
      ensures r == proxiesReady.done
    {
      r := proxiesReady.done;
    }

    method Status() returns (err: Option<JobError>)
      ensures err == None
    {
      err := None;
    }

    /** Calls the callback once, touches nothing else and never fails. */
    method Execute() returns (err: Option<JobError>)
      modifies registerValidator
      ensures err == None
      ensures registerValidator.calls == old(registerValidator.calls) + 1
      ensures proxiesReady.done == old(proxiesReady.done)
    {
      registerValidator.Invoke();
      err := None;
    }
  }

  // -----------------------------------------------------------------------
  // Ready-only admission: a caller that calls Execute only when Ready holds.

  /** One admission decision: run the job exactly when it reports ready. */
  method AdmitIfReady(job: RegisterAPIValidatorJob) returns (ran: bool)
    modifies job.registerValidator
    ensures ran == old(job.proxiesReady.done)
    ensures job.registerValidator.calls == old(job.registerValidator.calls) + (if ran then 1 else 0)
    ensures job.proxiesReady.done == old(job.proxiesReady.done)
  {
    ran := job.Ready();
    if ran {
      var _ := job.Execute();
    }
  }

  /**
   * The registrations a ready-only caller makes over a run of admission
   * decisions, `gates[i]` being the predicate's value at the i-th one.
   */
  function AdmittedRuns(gates: seq<bool>): (n: nat)
    ensures n <= |gates|
  {
    if gates == [] then 0
    else AdmittedRuns(gates[..|gates| - 1]) + (if gates[|gates| - 1] then 1 else 0)
  }

  /** The runs admitted are the decisions taken while the gate was open. */
  lemma {:induction false} AdmittedRunsCountsOpenGates(gates: seq<bool>)
    ensures AdmittedRuns(gates) == multiset(gates)[true]
  {
    if gates != [] {
      var init := gates[..|gates| - 1];
      AdmittedRunsCountsOpenGates(init);
      assert gates == init + [gates[|gates| - 1]];
    }
  }

  /** While the gate stays closed, nothing is ever registered. */
  lemma {:induction false} NoRegistrationWhileClosed(gates: seq<bool>)
    requires forall i :: 0 <= i < |gates| ==> !gates[i]
    ensures AdmittedRuns(gates) == 0
  {
    if gates != [] {
      NoRegistrationWhileClosed(gates[..|gates| - 1]);
    }
  }

  /** Every decision up to the gate's first opening registers nothing. */
  lemma NoRegistrationBeforeFirstOpen(gates: seq<bool>, k: nat)
    requires k <= |gates|
    requires forall i :: 0 <= i < k ==> !gates[i]
    ensures AdmittedRuns(gates[..k]) == 0
  {
    NoRegistrationWhileClosed(gates[..k]);
  }

  /**
   * Drives the job through a run of admission decisions, the environment
   * setting the predicate to `gates[i]` before the i-th one.
   */
  method RunAdmissions(job: RegisterAPIValidatorJob, gates: seq<bool>)
    modifies job.proxiesReady, job.registerValidator
    ensures job.registerValidator.calls == old(job.registerValidator.calls) + AdmittedRuns(gates)
    ensures job.proxiesReady.done == if gates == [] then old(job.proxiesReady.done) else gates[|gates| - 1]
  {
    for i := 0 to |gates|
      invariant job.registerValidator.calls == old(job.registerValidator.calls) + AdmittedRuns(gates[..i])
      invariant job.proxiesReady.done == if i == 0 then old(job.proxiesReady.done) else gates[i - 1]
    {
      job.proxiesReady.done := gates[i];
      var _ := AdmitIfReady(job);
      assert gates[..i + 1][..i] == gates[..i];
    }
    assert gates[..|gates|] == gates;
  }

  /** A job whose gate never opens is never registered by a ready-only caller. */
  method GatedClient(gates: seq<bool>) returns (job: RegisterAPIValidatorJob)
    requires forall i :: 0 <= i < |gates| ==> !gates[i]
    ensures job.registerValidator.calls == 0
  {
    var gate := new FirstRunDone(false);
    var callback := new Callback();
    job := new RegisterAPIValidatorJob(gate, callback);
    RunAdmissions(job, gates);
    NoRegistrationWhileClosed(gates);
  }
}
