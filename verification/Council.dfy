/** The council's vocabulary and its pure rules: which replies are acceptable,
    what stands in for the others, what the deterministic policy allows, and
    what becomes of the master's answer. */
module Council {
  import opened Wrappers

  datatype Role =
    | Researcher | BullThesis | BearThesis | Skeptic
    | ExecutionLiquidity | RulesSettlement | PortfolioRisk | MasterSynthesizer

  datatype Criticality = Critical | Advisory | NonVoting
  datatype Opinion = Support | Oppose | Abstain | Block
  datatype Severity = Info | Warn | Blocking
  datatype ParseStatus = Parsed | Repaired | Invalid

  datatype Claim = Claim(evidence: set<string>)

  datatype Verdict = Verdict(
    id: string, runId: string, role: Role, bundleHash: string, attempt: nat,
    decision: Opinion, severity: Severity, claims: seq<Claim>, counterevidence: seq<Claim>,
    proposesAction: bool, priceCeiling: Option<real>, sizeCeiling: Option<real>,
    outputTokens: nat, cost: real, parse: ParseStatus)

  datatype Outcome = Take | HoldBack | Reject

  /** The master's recommendation; `policyAllows` is its own copy of the policy's verdict. */
  datatype Decision = Decision(
    runId: string, outcome: Outcome, action: Option<string>,
    maxPrice: Option<real>, maxSize: Option<real>,
    supporting: set<string>, dissenting: set<string>, policyAllows: bool)

  /** What a client's text turns out to hold. */
  datatype Content = Garbage | VerdictText(verdict: Verdict) | DecisionText(decision: Decision)

  datatype RawOutput = RawOutput(length: nat, content: Content)

  datatype CallStatus = Completed | Failed | TimedOut | NotStarted

  datatype CallResult = CallResult(status: CallStatus, raw: Option<RawOutput>)

  datatype RoleConfig = RoleConfig(
    role: Role, criticality: Criticality, enabled: bool,
    maxOutputTokens: nat, maxCost: real, allowPrice: bool, allowSize: bool)

  datatype Budget = Budget(
    totalOutputTokens: nat, totalCost: real, reconsiderationRounds: nat, formatRetries: nat)

  datatype Profile = Profile(domain: string, disabled: bool, roles: seq<RoleConfig>, budget: Budget)

  /** Every profile names each of the eight roles exactly once. */
  ghost predicate ValidProfile(p: Profile) {
    && (forall i, j :: 0 <= i < j < |p.roles| ==> p.roles[i].role != p.roles[j].role)
    && (forall r: Role :: HasRole(p.roles, r))
  }

  predicate HasRole(roles: seq<RoleConfig>, r: Role) {
    exists i :: 0 <= i < |roles| && roles[i].role == r
  }

  datatype Candidate = Candidate(id: string, domain: string, action: string, price: Option<real>, size: Option<real>)

  datatype Evidence = Evidence(candidateId: string, domain: string, bundleHash: string, ids: set<string>)

  datatype Attempt = Attempt(
    role: Role, attempt: nat, status: CallStatus, verdict: Option<Verdict>, raw: Option<RawOutput>)

  // ---- acceptable verdicts, and what replaces the others ----

  /** The part of a run id before its first colon. */
  function RunPrefix(runId: string): string {
    if runId == [] || runId[0] == ':' then [] else [runId[0]] + RunPrefix(runId[1..])
  }

  predicate Cites(claims: seq<Claim>, known: set<string>) {
    forall i :: 0 <= i < |claims| ==> claims[i].evidence <= known
  }

  /** A verdict with no validation error for its role. */
  predicate Acceptable(v: Verdict, role: RoleConfig, evidence: Evidence, runId: string) {
    && v.role == role.role
    && v.bundleHash == evidence.bundleHash
    && Cites(v.claims, evidence.ids) && Cites(v.counterevidence, evidence.ids)
    && !(v.role in {Researcher, RulesSettlement, PortfolioRisk} && v.proposesAction)
    && (v.priceCeiling.Some? ==> role.allowPrice)
    && (v.sizeCeiling.Some? ==> role.allowSize)
    && !v.parse.Invalid?
    && v.runId == RunPrefix(runId)
  }

  function ParseVerdict(
      call: CallResult, attempt: nat, role: RoleConfig, evidence: Evidence, runId: string): (v: Option<Verdict>)
    ensures v.Some? <==>
      call.status.Completed? && call.raw.Some? && call.raw.value.content.VerdictText?
      && Acceptable(call.raw.value.content.verdict, role, evidence, runId)
    ensures v.Some? ==> v.value == call.raw.value.content.verdict.(attempt := attempt)
  {
    if !call.status.Completed? || call.raw.None? then None
    else
      match call.raw.value.content
      case VerdictText(verdict) =>
        var stamped := verdict.(attempt := attempt);
        if Acceptable(stamped, role, evidence, runId) then Some(stamped) else None
      case _ => None
  }

  function RoleName(r: Role): string {
    match r
    case Researcher => "researcher"
    case BullThesis => "bull_thesis"
    case BearThesis => "bear_thesis"
    case Skeptic => "skeptic"
    case ExecutionLiquidity => "execution_liquidity"
    case RulesSettlement => "rules_settlement"
    case PortfolioRisk => "portfolio_risk"
    case MasterSynthesizer => "master_synthesizer"
  }

  /** A reply that cannot be used blocks when the role is critical and abstains otherwise. */
  function FallbackVerdict(role: RoleConfig, runId: string, evidence: Evidence, attempt: nat): Verdict {
    var critical := role.criticality.Critical?;
    var id := runId + "-" + RoleName(role.role) + (if attempt == 1 then "-1" else "-2") + "-fallback";
    Verdict(id, runId, role.role, evidence.bundleHash, attempt,
            if critical then Block else Abstain, if critical then Blocking else Warn,
            [], [], false, None, None, 0, 0.0, Invalid)
  }

  function FallbackAttempt(role: RoleConfig, runId: string, evidence: Evidence): Attempt {
    Attempt(role.role, 1, NotStarted, Some(FallbackVerdict(role, runId, evidence, 1)), None)
  }

  // ---- the deterministic policy ----

  datatype Reason = CriticalRoleIncomplete | CriticalVeto | QuorumNotMet | UnresolvedDisagreement

  datatype Policy = Policy(
    quorum: bool, complete: bool, vetoes: set<Role>, abstentions: set<Role>, missing: set<Role>, reasons: seq<Reason>)

  predicate CanSynthesize(p: Policy) { p.quorum && p.complete && p.vetoes == {} && p.reasons == [] }

  /** The last verdict in the name of a role. */
  function LatestVerdict(attempts: seq<Attempt>, role: Role): (v: Option<Verdict>)
    ensures v.Some? ==> v.value.role == role
  {
    if attempts == [] then None
    else
      var last := attempts[|attempts| - 1].verdict;
      if last.Some? && last.value.role == role then last else LatestVerdict(attempts[..|attempts| - 1], role)
  }

  predicate IsCritical(profile: Profile, r: Role) {
    && !r.MasterSynthesizer?
    && exists i :: 0 <= i < |profile.roles| && profile.roles[i].role == r && profile.roles[i].criticality.Critical?
  }

  predicate Vetoes(v: Verdict) { v.decision.Block? || v.severity.Blocking? }

  predicate Votes(v: Option<Verdict>) { v.Some? && !v.value.parse.Invalid? && !v.value.decision.Abstain? }

  const SPECIALISTS: set<Role> :=
    {Researcher, BullThesis, BearThesis, Skeptic, ExecutionLiquidity, RulesSettlement, PortfolioRisk}

  function CalculatePolicy(profile: Profile, attempts: seq<Attempt>): Policy {
    var missing := set r <- SPECIALISTS |
      IsCritical(profile, r) && (LatestVerdict(attempts, r).None? || LatestVerdict(attempts, r).value.parse.Invalid?);
    var vetoes := set r <- SPECIALISTS |
      IsCritical(profile, r) && LatestVerdict(attempts, r).Some? && Vetoes(LatestVerdict(attempts, r).value);
    var quorum := Votes(LatestVerdict(attempts, BullThesis)) && Votes(LatestVerdict(attempts, BearThesis));
    var abstentions := set r <- SPECIALISTS |
      LatestVerdict(attempts, r).Some? && LatestVerdict(attempts, r).value.decision.Abstain?;
    Policy(quorum, missing == {}, vetoes, abstentions, missing,
           (if missing != {} then [CriticalRoleIncomplete] else [])
           + (if vetoes != {} then [CriticalVeto] else [])
           + (if !quorum then [QuorumNotMet] else []))
  }

  // ---- the master's answer ----

  function HoldDecision(runId: string): Decision {
    Decision(runId, HoldBack, None, None, None, {}, {}, false)
  }

  /** What the schema asks of a decision: only a take may carry ceilings, and a
      take names its action. */
  predicate WellFormed(d: Decision) {
    && (!d.outcome.Take? ==> d.maxPrice.None? && d.maxSize.None?)
    && (d.outcome.Take? ==> d.action.Some? && d.action.value != "")
    && (d.maxPrice.Some? ==> d.maxPrice.value >= 0.0)
    && (d.maxSize.Some? ==> d.maxSize.value > 0.0)
  }

  predicate NoLooser(ceiling: Option<real>, proposed: Option<real>) {
    ceiling.Some? && proposed.Some? ==> ceiling.value <= proposed.value
  }

  predicate MasterErrorFree(d: Decision, candidate: Candidate, runId: string, verdictIds: set<string>) {
    && d.supporting <= verdictIds && d.dissenting <= verdictIds && d.supporting * d.dissenting == {}
    && (d.outcome.Take? ==> d.policyAllows)
    && d.runId == runId
    && (d.outcome.Take? ==> d.action == Some(candidate.action))
    && NoLooser(d.maxPrice, candidate.price)
    && NoLooser(d.maxSize, candidate.size)
  }

  function DecisionFromMaster(
      attempt: Attempt, candidate: Candidate, runId: string, verdictIds: set<string>): Decision {
    if !attempt.status.Completed? || attempt.raw.None? then HoldDecision(runId)
    else
      match attempt.raw.value.content
      case DecisionText(d) =>
        if WellFormed(d) && MasterErrorFree(d, candidate, runId, verdictIds) then d else HoldDecision(runId)
      case _ => HoldDecision(runId)
  }

  function VerdictIds(attempts: seq<Attempt>): set<string> {
    set a | a in attempts && a.verdict.Some? :: a.verdict.value.id
  }
}
