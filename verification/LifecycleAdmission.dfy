/** Who gets an actor at all: only identities that are complete and whose namespace the manifest serves. */
module LifecycleAdmission {
  import opened Wrappers
  import opened Identity
  import opened Lifecycle
  import opened LifecycleHistory
  import Manifests

  /** Why a dispatch of an identity is refused before an actor is looked for, if it is. */
  function Refusal(m: Manifests.Manifest, id: ObjectID): Option<Error> {
    if id.IsZero() then Some(MissingId)
    else if m.ClassForNamespace(id.namespace).None? then Some(Error.UnknownNamespace)
    else None
  }

  ghost predicate RefusedOk(s: State, t: ThreadId) {
    At(s, t) && Refusal(s.manifest, s.dispatches[t].id).Some? ==>
      && s.dispatches[t].pc == Done(Failure(Refusal(s.manifest, s.dispatches[t].id).value))
      && s.dispatches[t].invocations == 0
  }

  ghost predicate AdmittedOk(s: State, r: ActorRef) {
    r in s.heap ==> Refusal(s.manifest, s.heap[r].id).None?
  }

  ghost predicate AdmissionOk(s: State) {
    (forall t :: RefusedOk(s, t)) && (forall r :: AdmittedOk(s, r))
  }

  /** A dispatch that has ended takes no further step of its own that invokes or moves anything. */
  lemma EndedStaysEnded(s: State, a: Action, t: ThreadId)
    requires Enabled(s, a) && Inv(s) && At(s, t) && s.dispatches[t].pc.Done?
    ensures At(Apply(s, a), t) && Apply(s, a).manifest == s.manifest
    ensures var d, d' := s.dispatches[t], Apply(s, a).dispatches[t];
            d'.id == d.id && d'.pc == d.pc && d'.invocations == d.invocations
  {
    StepKeepsInv(s, a);
    assert DispatchForward(s, Apply(s, a), t);
    if a.Evict? || a.t != t {
      StepTouchesOne(s, a, t);
    }
  }

  lemma NewcomerIsChecked(s: State, a: Action, t: ThreadId)
    requires Enabled(s, a) && !At(s, t) && At(Apply(s, a), t)
    ensures Apply(s, a).manifest == s.manifest
    ensures exists id :: Apply(s, a).dispatches[t] == NewDispatch(s.manifest, id)
  {
    if a.Evict? || a.t != t {
      StepTouchesOne(s, a, t);
    } else {
      assert Apply(s, a).dispatches[t] == NewDispatch(s.manifest, a.obtain.id);
    }
  }

  lemma StepKeepsRefused(s: State, a: Action, t: ThreadId)
    requires Enabled(s, a) && Inv(s) && RefusedOk(s, t)
    ensures RefusedOk(Apply(s, a), t)
  {
    var s' := Apply(s, a);
    ManifestStays(s, a);
    if At(s, t) {
      if s.dispatches[t].pc.Done? {
        EndedStaysEnded(s, a, t);
      } else {
        StepKeepsInv(s, a);
        assert DispatchForward(s, s', t);
      }
    } else if At(s', t) {
      NewcomerIsChecked(s, a, t);
    }
  }

  lemma ManifestStays(s: State, a: Action)
    requires Enabled(s, a)
    ensures Apply(s, a).manifest == s.manifest
  {
    StepTouchesOne(s, a, if a.Evict? then 0 else a.t + 1);
  }

  /** The only step that makes an actor is the end of a start, for the identity being started. */
  lemma ActorsComeFromStarts(s: State, a: Action, r: ActorRef)
    requires Enabled(s, a) && r !in s.heap && r in Apply(s, a).heap
    ensures a.Obtain? && At(s, a.t) && s.dispatches[a.t].pc.Starting?
    ensures Apply(s, a).heap[r].id == s.dispatches[a.t].id
  {
  }

  lemma StepKeepsAdmitted(s: State, a: Action, r: ActorRef)
    requires Enabled(s, a) && Inv(s) && AdmittedOk(s, r) && RefusedOk(s, a.t)
    ensures AdmittedOk(Apply(s, a), r)
  {
    var s' := Apply(s, a);
    ManifestStays(s, a);
    if r in s.heap {
      StepKeepsInv(s, a);
      assert ActorForward(s, s', r);
    } else if r in s'.heap {
      ActorsComeFromStarts(s, a, r);
    }
  }

  lemma StepKeepsAdmission(s: State, a: Action)
    requires Enabled(s, a) && Inv(s) && AdmissionOk(s)
    ensures AdmissionOk(Apply(s, a)) && Apply(s, a).manifest == s.manifest
  {
    ManifestStays(s, a);
    assert RefusedOk(s, a.t);
    forall t ensures RefusedOk(Apply(s, a), t) { StepKeepsRefused(s, a, t); }
    forall r ensures AdmittedOk(Apply(s, a), r) { StepKeepsAdmitted(s, a, r); }
  }

  lemma {:induction false} RunKeepsAdmission(s: State, run: seq<Action>)
    requires Inv(s) && Feasible(s, run) && AdmissionOk(s)
    ensures AdmissionOk(Run(s, run)) && Run(s, run).manifest == s.manifest
    decreases |run|
  {
    if run != [] {
      StepKeepsInv(s, run[0]);
      StepKeepsAdmission(s, run[0]);
      RunKeepsAdmission(Apply(s, run[0]), run[1..]);
    }
  }

  /**
   * In every reachable state a dispatch without a complete identity, or for a namespace without a class, has ended with
   * the error that says so and has invoked nothing; and every actor that was ever started is of an identity that is
   * complete and served.
   */
  lemma OnlyServedIdentitiesGetActors(manifest: Manifests.Manifest, run: seq<Action>, t: ThreadId, r: ActorRef)
    requires Feasible(Init(manifest), run)
    ensures var s := Run(Init(manifest), run);
            && (At(s, t) && Refusal(manifest, s.dispatches[t].id).Some? ==>
                  && s.dispatches[t].pc == Done(Failure(Refusal(manifest, s.dispatches[t].id).value))
                  && s.dispatches[t].invocations == 0)
            && (r in s.heap ==> Refusal(manifest, s.heap[r].id).None?)
  {
    RunKeepsAdmission(Init(manifest), run);
    assert RefusedOk(Run(Init(manifest), run), t) && AdmittedOk(Run(Init(manifest), run), r);
  }
}
