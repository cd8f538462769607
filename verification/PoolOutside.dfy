/** What the pool's goroutines ask of containerd, Firecracker and GitHub. */
module PoolOutside {
  import opened Options
  import opened PoolMachine

  datatype Service =
    | EnsureImage
    | WithLease
    | CreateSnapshot
    | CreateLogFile
    | NewVm
    | FindInstallation
    | RegisterRunner
    | StartVm
    | CancelLease
    | StopVm
    | RemoveRunner

  /** name is that of the runner, which the image has none of. */
  datatype ExternalCall = ExternalCall(service: Service, name: Option<Name>, ok: bool)

  function NameFor(service: Service, name: Name): Option<Name> {
    if service.EnsureImage? then None else Some(name)
  }

  /** calls are those of the plan one after the other, all of it, or up to the first that failed. */
  predicate Attempted(calls: seq<ExternalCall>, plan: seq<Service>, name: Name, err: bool) {
    && |calls| <= |plan| && (if err then calls != [] else |calls| == |plan|)
    && forall i | 0 <= i < |calls| ::
         calls[i] == ExternalCall(plan[i], NameFor(plan[i], name), !(err && i == |calls| - 1))
  }

  /** What createMachine asks for; the installation is looked up only if it is not known yet. */
  function CreatePlan(known: bool): seq<Service> {
    [EnsureImage, WithLease] + ([CreateSnapshot, CreateLogFile] + StartPlan(known))
  }

  function StartPlan(known: bool): seq<Service> {
    [NewVm] + (if known then [] else [FindInstallation]) + [RegisterRunner, StartVm]
  }

  /** The calls are answered as the environment has decided, the first of them as its answer number at. */
  predicate Answered(calls: seq<ExternalCall>, answers: nat -> bool, at: nat) {
    forall i | 0 <= i < |calls| :: calls[i].ok == answers(at + i)
  }

  /** The call that cancels a lease, if there is one to cancel. */
  function Canceling(lease: Option<Name>, ok: bool): seq<ExternalCall> {
    if lease.None? then [] else [ExternalCall(CancelLease, lease, ok)]
  }

  /** Between the two moments those were tried and that lease was cancelled afterwards, each call
      answered as the environment has decided. */
  predicate Calls(before: seq<ExternalCall>, after: seq<ExternalCall>, answers: nat -> bool,
                  tried: seq<ExternalCall>, lease: Option<Name>)
  {
    && after == before + tried + Canceling(lease, answers(|before| + |tried|))
    && Answered(tried, answers, |before|)
  }

  /** The call that removes a runner from GitHub, if it was registered. */
  function Removing(runner: Option<Name>, ok: bool): seq<ExternalCall> {
    if runner.None? then [] else [ExternalCall(RemoveRunner, runner, ok)]
  }

  /** Between the two moments the runner was removed, if it was registered, and then the lease was
      cancelled, each call answered as the environment has decided. */
  predicate CleanedUp(before: seq<ExternalCall>, after: seq<ExternalCall>, answers: nat -> bool,
                      name: Name, registered: bool)
  {
    var removal := Removing(if registered then Some(name) else None, answers(|before|));
    after == before + removal + Canceling(Some(name), answers(|before| + |removal|))
  }

  lemma CleanedUpBy(before: seq<ExternalCall>, middle: seq<ExternalCall>, after: seq<ExternalCall>,
                    answers: nat -> bool, name: Name, registered: bool)
    requires middle == before + Removing(if registered then Some(name) else None, answers(|before|))
    requires after == middle + Canceling(Some(name), answers(|middle|))
    ensures CleanedUp(before, after, answers, name, registered)
  {
  }

  lemma CallsMore(before: seq<ExternalCall>, middle: seq<ExternalCall>, after: seq<ExternalCall>,
                  answers: nat -> bool, first: seq<ExternalCall>, second: seq<ExternalCall>, lease: Option<Name>)
    requires Calls(before, middle, answers, first, None) && Calls(middle, after, answers, second, lease)
    ensures Calls(before, after, answers, first + second, lease)
  {
    AnsweredMore(first, second, answers, |before|);
    assert |before| + |first + second| == |middle| + |second|;
  }

  lemma AttemptedMore(first: seq<ExternalCall>, second: seq<ExternalCall>, plan: seq<Service>, rest: seq<Service>,
                      name: Name, err: bool)
    requires Attempted(first, plan, name, false) && Attempted(second, rest, name, err)
    ensures Attempted(first + second, plan + rest, name, err)
  {
  }

  lemma AnsweredMore(first: seq<ExternalCall>, second: seq<ExternalCall>, answers: nat -> bool, at: nat)
    requires Answered(first, answers, at) && Answered(second, answers, at + |first|)
    ensures Answered(first + second, answers, at)
  {
    forall i | 0 <= i < |first + second| ensures (first + second)[i].ok == answers(at + i) {
      if i >= |first| {
        assert second[i - |first|].ok == answers(at + |first| + (i - |first|));
      }
    }
  }

  lemma AttemptFailed(first: seq<ExternalCall>, plan: seq<Service>, rest: seq<Service>, name: Name)
    requires Attempted(first, plan, name, true)
    ensures Attempted(first, plan + rest, name, true)
  {
  }

  /** One goroutine's calls, in order. The answers are the environment's; they are fixed beforehand, so
      nothing but a call that fails can be the cause of a failure. */
  class Outside {
    const answers: nat -> bool
    var calls: seq<ExternalCall>

    constructor (answers: nat -> bool)
      ensures calls == [] && this.answers == answers
    {
      this.answers := answers;
      calls := [];
    }

    method Call(service: Service, name: Option<Name>) returns (ok: bool)
      modifies this
      ensures ok == answers(|old(calls)|) && calls == old(calls) + [ExternalCall(service, name, ok)]
    {
      ok := answers(|calls|);
      calls := calls + [ExternalCall(service, name, ok)];
    }

    /** The calls of the plan, given up at the first that fails. */
    method Attempt(plan: seq<Service>, name: Name) returns (err: bool, ghost tried: seq<ExternalCall>)
      modifies this
      ensures Calls(old(calls), calls, answers, tried, None) && Attempted(tried, plan, name, err)
    {
      tried := [];
      for i := 0 to |plan|
        invariant calls == old(calls) + tried && |tried| == i && Attempted(tried, plan[..i], name, false)
        invariant Answered(tried, answers, |old(calls)|)
      {
        var ok := Call(plan[i], NameFor(plan[i], name));
        tried := tried + [ExternalCall(plan[i], NameFor(plan[i], name), ok)];
        if !ok {
          return true, tried;
        }
      }
      err := false;
    }
  }
}
