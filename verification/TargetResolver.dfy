/** The resolver of apps/server/src/desktop-target.ts with its in-flight map, updated step by step. */
module TargetResolving {
  import opened Common
  import opened DesktopTarget

  class TargetResolver {
    const maxPending: nat
    var inFlight: map<Binding, nat>
    var lookups: map<nat, Lookup>
    var started: nat
    var requests: map<nat, Request>

    ghost function State(): Resolver
      reads this
    {
      Resolver(inFlight, lookups, started, requests)
    }

    ghost predicate Valid()
      reads this
    {
      Inv(State(), maxPending)
    }

    constructor (configured: Option<real>)
      ensures Valid() && State() == EMPTY && maxPending == MaxPending(configured)
    {
      maxPending := MaxPending(configured);
      inFlight, lookups, started, requests := map[], map[], 0, map[];
    }

    method Begin(r: nat, caller: Caller)
      requires Valid()
      modifies this
      ensures Valid() && State() == Step(old(State()), maxPending, Call(r, caller))
    {
      StepKeepsInv(State(), maxPending, Call(r, caller));
      if r in requests {
        return;
      }
      if caller.capabilityRequired && !caller.shared {
        requests := requests[r := Rejected(BrokeredShareRequired)];
      } else {
        requests := requests[r := Authorizing(caller)];
      }
    }

    /** The continuation of either authorization. */
    method Decide(r: nat, decision: Result<Decision, DesktopTarget.Failure>)
      requires Valid()
      modifies this
      ensures Valid() && State() == Step(old(State()), maxPending, Authorize(r, decision))
    {
      StepKeepsInv(State(), maxPending, Authorize(r, decision));
      if r !in requests {
        return;
      }
      var request := requests[r];
      if !request.Authorizing? && !request.Rechecking? {
        return;
      }
      if decision.Failure? {
        requests := requests[r := Rejected(decision.error)];
      } else if request.Authorizing? {
        Join(r, request.caller, decision.value);
      } else {
        var Rechecking(caller, binding, lookup, port) := request;
        if Binding(caller.route, decision.value) != binding {
          requests := requests[r := Rejected(BindingChanged)];
        } else if caller.shared {
          requests := requests[r := Validating(caller, binding, lookup, port)];
        } else {
          requests := requests[r := Resolved(caller, binding, lookup, port)];
        }
      }
    }

    method Join(r: nat, caller: Caller, decision: Decision)
      modifies this
      ensures State() == JoinStep(old(State()), maxPending, r, caller, decision)
    {
      if caller.grantRevision.Some? && decision.grantRevision != caller.grantRevision.value {
        requests := requests[r := Rejected(GrantChanged)];
        return;
      }
      var binding := Binding(caller.route, decision);
      if binding !in inFlight {
        if |inFlight| >= maxPending {
          requests := requests[r := Rejected(LookupBusy)];
          return;
        }
        lookups := lookups[started := Lookup(binding, Racing)];
        inFlight := inFlight[binding := started];
        started := started + 1;
      }
      requests := requests[r := Waiting(caller, binding, inFlight[binding])];
    }

    /** The target or the deadline answers the race. */
    method Answer(l: nat, outcome: Outcome)
      requires Valid() && InRange(outcome)
      modifies this
      ensures Valid() && State() == RaceStep(old(State()), l, outcome)
    {
      RaceKeepsInv(State(), maxPending, l, outcome);
      if l in lookups && lookups[l].phase.Racing? {
        lookups := lookups[l := lookups[l].(phase := Raced(outcome))];
      }
    }

    method TargetAnswers(l: nat, session: Result<Session, DesktopTarget.Failure>)
      requires Valid()
      modifies this
      ensures Valid() && State() == Step(old(State()), maxPending, Read(l, session))
    {
      Answer(l, ReadOutcome(session));
    }

    method DeadlineFires(l: nat)
      requires Valid()
      modifies this
      ensures Valid() && State() == Step(old(State()), maxPending, Expire(l))
    {
      Answer(l, Failure(LookupTimeout));
    }

    method Cleanup(l: nat)
      requires Valid()
      modifies this
      ensures Valid() && State() == CleanStep(old(State()), l)
    {
      ghost var s := State();
      CleanKeepsInv(s, maxPending, l);
      if l !in lookups || !lookups[l].phase.Raced? {
        return;
      }
      inFlight := inFlight - {lookups[l].binding};
      lookups := lookups[l := lookups[l].(phase := Cleaned(lookups[l].phase.outcome))];
      assert State() == CleanStep(s, l);
    }

    method PromiseSettles(l: nat)
      requires Valid()
      modifies this
      ensures Valid() && State() == Step(old(State()), maxPending, Settle(l))
    {
      SettleKeepsInv(State(), maxPending, l);
      if l in lookups && lookups[l].phase.Cleaned? {
        lookups := lookups[l := lookups[l].(phase := Settled(lookups[l].phase.outcome))];
      }
    }

    method Continue(r: nat)
      requires Valid()
      modifies this
      ensures Valid() && State() == Step(old(State()), maxPending, Resume(r))
    {
      StepKeepsInv(State(), maxPending, Resume(r));
      if r in requests && requests[r].Waiting? && requests[r].lookup in lookups
          && lookups[requests[r].lookup].phase.Settled? {
        var Waiting(caller, binding, lookup) := requests[r];
        var outcome := lookups[lookup].phase.outcome;
        requests := requests[r := if outcome.Failure? then Rejected(outcome.error)
                                  else Rechecking(caller, binding, lookup, outcome.value)];
      }
    }

    method ShareChecked(r: nat, valid: bool)
      requires Valid()
      modifies this
      ensures Valid() && State() == Step(old(State()), maxPending, ValidateShare(r, valid))
    {
      StepKeepsInv(State(), maxPending, ValidateShare(r, valid));
      if r in requests && requests[r].Validating? {
        var Validating(caller, binding, lookup, port) := requests[r];
        requests := requests[r := if valid then Resolved(caller, binding, lookup, port) else Rejected(ShareRefused)];
      }
    }
  }
}
