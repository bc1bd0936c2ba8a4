/** The boundary between a candidate and a paper adapter: checks, the council,
    tightening, checks again, and only then the adapter. */
module Admission {
  import opened Wrappers
  import opened Council
  import opened Coordinator

  datatype Mode = Shadow | PaperAdvisory | PaperCouncil

  datatype Check = Check(name: string, passed: bool, reason: Option<string>)

  type Screen = Candidate -> Check

  datatype Wall = Wall(allowed: bool, reasons: seq<string>)

  /** The failures of every check, in order; none is skipped after a failure. */
  function Failures(candidate: Candidate, checks: seq<Screen>, k: nat): seq<string>
    requires k <= |checks|
  {
    if k == 0 then []
    else
      var check := checks[k - 1](candidate);
      Failures(candidate, checks, k - 1)
      + (if check.passed then []
         else if check.reason.Some? && check.reason.value != "" then [check.reason.value] else [check.name])
  }

  function Prescreen(candidate: Candidate, checks: seq<Screen>): Wall {
    var failures := Failures(candidate, checks, |checks|);
    Wall(failures == [], failures)
  }

  /** The wall stands open exactly when every check passed. */
  lemma {:induction false} OpenIffAllPass(candidate: Candidate, checks: seq<Screen>, k: nat)
    requires k <= |checks|
    ensures Failures(candidate, checks, k) == [] <==> forall i :: 0 <= i < k ==> checks[i](candidate).passed
  {
    if k > 0 { OpenIffAllPass(candidate, checks, k - 1); }
  }

  /** The reasons are those of the failing checks and of no other, in the order of
      the checks. */
  lemma {:induction false} FailuresKeepOrder(candidate: Candidate, a: seq<Screen>, b: seq<Screen>, k: nat)
    requires k <= |b|
    ensures Failures(candidate, a + b, |a| + k) == Failures(candidate, a, |a|) + Failures(candidate, b, k)
  {
    if k > 0 {
      FailuresKeepOrder(candidate, a, b, k - 1);
      assert (a + b)[|a| + k - 1] == b[k - 1];
      var earlier, here := Failures(candidate, b, k - 1), Failures(candidate, b, k);
      assert Failures(candidate, a, |a|) + here == (Failures(candidate, a, |a|) + earlier) + here[|earlier|..];
    } else {
      FailuresOfMore(candidate, a, b, |a|);
    }
  }

  /** A failing check gives its own reason if it has one, and its name if not. */
  lemma FailureOfOne(candidate: Candidate, screen: Screen)
    ensures var check := screen(candidate);
            Failures(candidate, [screen], 1) ==
              if check.passed then []
              else if check.reason in {None, Some("")} then [check.name]
              else [check.reason.value]
  {
    assert Failures(candidate, [screen], 0) == [];
  }

  lemma {:induction false} FailuresOfMore(candidate: Candidate, a: seq<Screen>, b: seq<Screen>, k: nat)
    requires k <= |a|
    ensures Failures(candidate, a + b, k) == Failures(candidate, a, k)
  {
    if k > 0 { FailuresOfMore(candidate, a, b, k - 1); }
  }

  predicate AllPass(candidate: Candidate, checks: seq<Screen>) {
    forall i :: 0 <= i < |checks| ==> checks[i](candidate).passed
  }

  lemma AllowedIffAllPass(candidate: Candidate, checks: seq<Screen>)
    ensures Prescreen(candidate, checks).allowed <==> AllPass(candidate, checks)
  {
    OpenIffAllPass(candidate, checks, |checks|);
  }

  function Tightest(proposed: Option<real>, ceiling: Option<real>): Option<real> {
    if ceiling.None? then proposed
    else if proposed.None? then ceiling
    else if ceiling.value < proposed.value then ceiling else proposed
  }

  function Tighten(candidate: Candidate, maxPrice: Option<real>, maxSize: Option<real>): Candidate {
    candidate.(price := Tightest(candidate.price, maxPrice), size := Tightest(candidate.size, maxSize))
  }

  /** `after` is bounded wherever `before` was, and no more loosely. */
  predicate AsTight(before: Option<real>, after: Option<real>) {
    before.Some? ==> after.Some? && after.value <= before.value
  }

  /** Tightening respects both bounds, and only what both leave open stays open.
      Since a decision with a looser ceiling than proposed is not error free, a
      ceiling the master did set is exactly what is used. */
  lemma TightestRespectsBoth(proposed: Option<real>, ceiling: Option<real>)
    ensures AsTight(proposed, Tightest(proposed, ceiling)) && AsTight(ceiling, Tightest(proposed, ceiling))
    ensures Tightest(proposed, ceiling).None? <==> proposed.None? && ceiling.None?
    ensures NoLooser(ceiling, proposed) && ceiling.Some? ==>
      Tightest(proposed, ceiling).Some? && Tightest(proposed, ceiling).value == ceiling.value
    ensures Tightest(proposed, ceiling) == proposed || Tightest(proposed, ceiling) == ceiling
  {}

  datatype Stage = InitialScreen | CouncilRecommendation | FinalRecheck | AdapterDecision

  datatype Status = ShadowRecorded | Held | AdapterCalled

  datatype BoundaryResult = BoundaryResult(
    status: Status, candidate: Candidate, council: Option<CouncilRun>, reasons: seq<string>)

  /** Stands for the execution adapter: it remembers what it was called with. */
  class Adapter {
    var received: seq<Candidate>

    constructor ()
      ensures received == []
    {
      received := [];
    }

    method Call(candidate: Candidate)
      modifies this
      ensures received == old(received) + [candidate]
    {
      received := received + [candidate];
    }
  }

  lemma EarnedKeepsAction(run: CouncilRun, c: Case, t: Transcript)
    requires run.resumed <= run.reviewed <= |run.attempts|
    requires Earned(run, c, t) && run.decision.outcome.Take?
    ensures run.decision.action == Some(c.candidate.action)
  {}

  /** The result names the candidate that was last judged and every reason it was
      not executed for. */
  predicate Explained(
      r: BoundaryResult, c: Case, mode: Mode, preChecks: seq<Screen>, finalChecks: seq<Screen>)
  {
    if r.council.None? then
      r.candidate == c.candidate && r.reasons == Failures(c.candidate, preChecks, |preChecks|)
    else
      var decision := r.council.value.decision;
      if mode.Shadow? then r.candidate == c.candidate && r.reasons == ["shadow_no_paper_influence"]
      else if decision.outcome.Take? then
        && r.candidate == Tighten(c.candidate, decision.maxPrice, decision.maxSize)
        && r.reasons == Failures(r.candidate, finalChecks, |finalChecks|)
      else
        && r.candidate == c.candidate
        && r.reasons == [if decision.outcome.Reject? then "council_reject" else "council_hold"]
  }

  class CouncilPaperBoundary {
    const mode: Mode
    const preChecks: seq<Screen>
    const finalChecks: seq<Screen>
    var stages: seq<Stage>

    constructor (mode: Mode, preChecks: seq<Screen>, finalChecks: seq<Screen>)
      ensures this.mode == mode && this.preChecks == preChecks && this.finalChecks == finalChecks && stages == []
    {
      this.mode, this.preChecks, this.finalChecks, stages := mode, preChecks, finalChecks, [];
    }

    /** Reviews one candidate. The adapter is reached at most once, and then only
        outside shadow mode, with every check passed before and after, on a take
        the council earned, and with a candidate no looser than the one proposed. */
    method Review(c: Case, profile: Option<Profile>, reconsider: bool, completed: seq<Attempt>,
                  coordinator: CouncilCoordinator, adapter: Adapter)
        returns (r: Result<BoundaryResult, RunError>)
      requires profile.Some? ==> ValidProfile(profile.value) && profile.value == c.profile
      modifies this`stages, coordinator`heard, adapter
      ensures r.Err? <==> AllPass(c.candidate, preChecks) && Refusal(c, profile, coordinator.clients, completed).Some?
      ensures r.Err? ==> adapter.received == old(adapter.received) && stages == [InitialScreen]
      ensures !AllPass(c.candidate, preChecks) ==>
        coordinator.heard == old(coordinator.heard) && r.value.status.Held? && r.value.council.None?
            && stages == [InitialScreen]
      ensures r.Ok? && AllPass(c.candidate, preChecks) ==> r.value.council.Some?
      ensures r.Ok? && r.value.council.Some? ==>
        var decision := r.value.council.value.decision;
        && (r.value.status.ShadowRecorded? <==> mode.Shadow?)
        && (r.value.status.AdapterCalled? <==>
              !mode.Shadow? && decision.outcome.Take?
              && AllPass(Tighten(c.candidate, decision.maxPrice, decision.maxSize), finalChecks))
        && stages == [InitialScreen, CouncilRecommendation]
             + (if mode.Shadow? || !decision.outcome.Take? then []
                else if r.value.status.AdapterCalled? then [FinalRecheck, AdapterDecision] else [FinalRecheck])
      ensures r.Ok? && r.value.council.Some? ==>
        && profile.Some?
        && r.value.council.value == RunOf(coordinator.Here(), c, PriorAttempts(completed, |completed|), reconsider,
                                          |old(coordinator.heard)|)
      ensures r.Ok? ==> Explained(r.value, c, mode, preChecks, finalChecks)
      ensures r.Ok? ==>
        adapter.received == if r.value.status.AdapterCalled? then old(adapter.received) + [r.value.candidate]
            else old(adapter.received)
      ensures r.Ok? && r.value.status.AdapterCalled? ==>
        var run := r.value.council.value;
        && r.value.council.Some?
        && run.resumed <= run.reviewed <= |run.attempts|
        && Earned(run, c, coordinator.Since(|old(coordinator.heard)|))
        && AllMade(run.attempts[run.resumed..], c, coordinator.Since(|old(coordinator.heard)|))
        && r.value.candidate == Tighten(c.candidate, run.decision.maxPrice, run.decision.maxSize)
        && AsTight(c.candidate.price, r.value.candidate.price) && AsTight(c.candidate.size, r.value.candidate.size)
        && r.value.candidate.action == c.candidate.action && run.decision.action == Some(c.candidate.action)
    {
      hide AllPass, Failures, Tightest, AsTight, Earned, AllMade, Refusal, Covers;
      hide CalculatePolicy, Disagree, DecisionFromMaster, PriorAttempts, VerdictIds, CanSynthesize, Accounted,
          Stands, RunOf;
      stages := [];
      var pre := Prescreen(c.candidate, preChecks);
      AllowedIffAllPass(c.candidate, preChecks);
      stages := stages + [InitialScreen];
      if !pre.allowed { return Ok(BoundaryResult(Held, c.candidate, None, pre.reasons)); }

      var ran := coordinator.Run(c, profile, reconsider, completed);
      if ran.Err? { return Err(ran.error); }
      var council := ran.value;
      stages := stages + [CouncilRecommendation];
      if mode.Shadow? {
        return Ok(BoundaryResult(ShadowRecorded, c.candidate, Some(council), ["shadow_no_paper_influence"]));
      }
      if !council.decision.outcome.Take? {
        var reason := if council.decision.outcome.Reject? then "council_reject" else "council_hold";
        return Ok(BoundaryResult(Held, c.candidate, Some(council), [reason]));
      }

      var adjusted := Tighten(c.candidate, council.decision.maxPrice, council.decision.maxSize);
      TightestRespectsBoth(c.candidate.price, council.decision.maxPrice);
      TightestRespectsBoth(c.candidate.size, council.decision.maxSize);
      var final := Prescreen(adjusted, finalChecks);
      AllowedIffAllPass(adjusted, finalChecks);
      EarnedKeepsAction(council, c, coordinator.Since(|old(coordinator.heard)|));
      stages := stages + [FinalRecheck];
      if !final.allowed { return Ok(BoundaryResult(Held, adjusted, Some(council), final.reasons)); }

      adapter.Call(adjusted);
      stages := stages + [AdapterDecision];
      r := Ok(BoundaryResult(AdapterCalled, adjusted, Some(council), []));
    }
  }
}
