/** The bounded council run, driven by clients that may answer anything. */
module Coordinator {
  import opened Wrappers
  import opened Council

  datatype RunError = MismatchedIds | MismatchedDomains | NoCompatibleProfile | NoSpecialistClient | ForeignAttempts

  /** What a completed run reports, before its attempts are sorted for display. The
      first `resumed` attempts were carried in from an earlier run; those from
      `reviewed` on are revisions; the master's is apart. */
  datatype CouncilRun = CouncilRun(
    attempts: seq<Attempt>, resumed: nat, reviewed: nat, master: Option<Attempt>, policy: Policy, decision: Decision,
    outputTokens: int, cost: real)

  /** What a run is asked about. */
  datatype Case = Case(profile: Profile, candidate: Candidate, evidence: Evidence, runId: string)

  // ---- what an attempt is worth ----

  /** The verdict is what the client's text says, for the role it was asked for. */
  predicate Backed(a: Attempt, role: RoleConfig, evidence: Evidence, runId: string) {
    && a.role == role.role && a.verdict.Some?
    && a.status.Completed? && a.raw.Some? && a.raw.value.content.VerdictText?
    && Acceptable(a.raw.value.content.verdict, role, evidence, runId)
    && var said := a.raw.value.content.verdict;
       a.verdict.value in {said.(attempt := a.attempt), said.(attempt := a.attempt, parse := Repaired)}
  }

  /** Otherwise it is the fallback, and the client's last text was not acceptable. */
  predicate Refused(a: Attempt, role: RoleConfig, evidence: Evidence, runId: string) {
    && a.role == role.role
    && a.verdict == Some(FallbackVerdict(role, runId, evidence, a.attempt))
    && ParseVerdict(CallResult(a.status, a.raw), a.attempt, role, evidence, runId).None?
  }

  predicate Honest(a: Attempt, role: RoleConfig, evidence: Evidence, runId: string) {
    Backed(a, role, evidence, runId) || Refused(a, role, evidence, runId)
  }

  type Spoken = (Role, CallResult)

  /** Who can be asked, and everything that was answered, this run's from `start` on. */
  datatype Transcript = Transcript(clients: set<Role>, heard: seq<Spoken>, start: nat)

  predicate Extends(t: Transcript, u: Transcript) {
    t.clients == u.clients && u.start <= t.start && t.heard <= u.heard
  }

  /** The call result is what the role's client answered during the run, or stands
      for a client that does not exist. */
  predicate Answered(role: Role, call: CallResult, t: Transcript) {
    if role in t.clients then exists n :: t.start <= n < |t.heard| && t.heard[n] == (role, call)
    else call == CallResult(Failed, None)
  }

  /** Made by this run, for a specialist of the profile: from an answer, or for
      lack of budget to ask. */
  ghost predicate Made(a: Attempt, c: Case, t: Transcript) {
    && (exists i :: 0 <= i < |c.profile.roles| && !c.profile.roles[i].role.MasterSynthesizer?
          && Honest(a, c.profile.roles[i], c.evidence, c.runId))
    && (a.status.NotStarted? || Answered(a.role, CallResult(a.status, a.raw), t))
  }

  ghost predicate AllMade(attempts: seq<Attempt>, c: Case, t: Transcript) {
    forall i :: 0 <= i < |attempts| ==> Made(attempts[i], c, t)
  }

  predicate HasAttempt(attempts: seq<Attempt>, r: Role) {
    exists i :: 0 <= i < |attempts| && attempts[i].role == r
  }

  // ---- what a specialist's answers become ----

  /** Why a specialist's first answer is asked for once more in the right format. */
  predicate AsksRepair(role: RoleConfig, call: CallResult, c: Case) {
    && ParseVerdict(call, 1, role, c.evidence, c.runId).None?
    && call.status.Completed? && call.raw.Some? && c.profile.budget.formatRetries > 0
  }

  /** The attempt that an answer, and its repair if one was asked for, end in. */
  function FirstAttempt(role: RoleConfig, call: CallResult, repair: Option<CallResult>, c: Case): Attempt {
    var last, attempt := if repair.Some? then repair.value else call, if repair.Some? then 2 else 1;
    var parsed := ParseVerdict(last, attempt, role, c.evidence, c.runId);
    var verdict :=
      if parsed.None? then FallbackVerdict(role, c.runId, c.evidence, attempt)
      else if repair.Some? then parsed.value.(parse := Repaired)
      else parsed.value;
    Attempt(role.role, attempt, last.status, Some(verdict), last.raw)
  }

  /** The attempt that a revision ends in; it is never repaired. */
  function RevisionAttempt(role: RoleConfig, call: CallResult, c: Case): Attempt {
    var parsed := ParseVerdict(call, 2, role, c.evidence, c.runId);
    Attempt(role.role, 2, call.status,
            Some(if parsed.Some? then parsed.value else FallbackVerdict(role, c.runId, c.evidence, 2)), call.raw)
  }

  // ---- spending ----

  /** The tokens a text is taken to have cost. */
  function Estimate(raw: Option<RawOutput>): nat {
    var length := if raw.Some? then raw.value.length else 0;
    if length / 4 < 1 then 1 else length / 4
  }

  /** What the ledger adds for an attempt: what its verdict reports, or the
      estimate when it has none. */
  function Charge(verdict: Option<Verdict>, raw: Option<RawOutput>): (int, real) {
    if verdict.Some? then (verdict.value.outputTokens, verdict.value.cost)
    else if raw.Some? && raw.value.length > 0 then (Estimate(raw), 0.0)
    else (0, 0.0)
  }

  /** The answer holds a verdict that the run can use. */
  predicate Accepts(call: CallResult, role: RoleConfig, c: Case) {
    ParseVerdict(call, 1, role, c.evidence, c.runId).Some?
  }

  /** What an accepted answer says it used. */
  function Reported(call: CallResult, role: RoleConfig, c: Case): (int, real)
    requires Accepts(call, role, c)
  {
    (call.raw.value.content.verdict.outputTokens, call.raw.value.content.verdict.cost)
  }

  /** A specialist is charged for exactly what its accepted answer reports, and so
      for nothing if and only if no answer was accepted or the accepted one reports
      nothing. An answer that had to be repaired is charged nothing either: the
      estimate from the length of the text never applies to a specialist. */
  lemma OnlyAcceptedAnswersAreCharged(role: RoleConfig, call: CallResult, repair: Option<CallResult>, c: Case)
    requires repair.Some? <==> AsksRepair(role, call, c)
    ensures var a := FirstAttempt(role, call, repair, c);
            var answers := [call] + if repair.Some? then [repair.value] else [];
      && (forall i :: 0 <= i < |answers| && Accepts(answers[i], role, c) ==>
            Charge(a.verdict, a.raw) == Reported(answers[i], role, c))
      && (Charge(a.verdict, a.raw) == (0, 0.0) <==>
            forall i :: 0 <= i < |answers| && Accepts(answers[i], role, c) ==>
                Reported(answers[i], role, c) == (0, 0.0))
  {
    hide Acceptable;
    var answers := [call] + if repair.Some? then [repair.value] else [];
    assert answers[|answers| - 1] == if repair.Some? then repair.value else call;
  }

  /** The same of a revision, which rests on one answer. */
  lemma OnlyAcceptedRevisionsAreCharged(role: RoleConfig, call: CallResult, c: Case)
    ensures var a := RevisionAttempt(role, call, c);
      && (Accepts(call, role, c) ==> Charge(a.verdict, a.raw) == Reported(call, role, c))
      && (Charge(a.verdict, a.raw) == (0, 0.0) <==> Accepts(call, role, c) ==> Reported(call, role, c) == (0, 0.0))
  {
    hide Acceptable;
  }

  /** Charged for what its last answer reports if that was accepted, and for
      nothing if not. */
  predicate ChargedAs(a: Attempt, role: RoleConfig, c: Case) {
    var call := CallResult(a.status, a.raw);
    && a.role == role.role
    && Charge(a.verdict, a.raw) == if Accepts(call, role, c) then Reported(call, role, c) else (0, 0.0)
  }

  /** And of every attempt a run makes: see `Run` for the totals. */
  lemma MadeAttemptsAreCharged(a: Attempt, c: Case, t: Transcript)
    requires Made(a, c, t)
    ensures exists i :: 0 <= i < |c.profile.roles| && ChargedAs(a, c.profile.roles[i], c)
  {
    hide Acceptable;
    var i :| 0 <= i < |c.profile.roles| && !c.profile.roles[i].role.MasterSynthesizer?
             && Honest(a, c.profile.roles[i], c.evidence, c.runId);
    var role, call := c.profile.roles[i], CallResult(a.status, a.raw);
    assert ChargedAs(a, role, c);
  }

  /** Four thousand characters of garbage, and as many again for the repair, are
      charged nothing, where the estimate would be a thousand tokens each. */
  lemma GarbageIsFree(role: RoleConfig, c: Case)
    ensures var garbage := CallResult(Completed, Some(RawOutput(4000, Garbage)));
            var repair := if AsksRepair(role, garbage, c) then Some(garbage) else None;
            var a := FirstAttempt(role, garbage, repair, c);
            Charge(a.verdict, a.raw) == (0, 0.0) && Charge(None, garbage.raw) == (1000, 0.0)
  {}

  function TokensOf(attempts: seq<Attempt>): int {
    if attempts == [] then 0
    else
      var last := attempts[|attempts| - 1];
      TokensOf(attempts[..|attempts| - 1]) + if last.verdict.Some? then last.verdict.value.outputTokens else 0
  }

  function CostOf(attempts: seq<Attempt>): real {
    if attempts == [] then 0.0
    else
      var last := attempts[|attempts| - 1];
      CostOf(attempts[..|attempts| - 1]) + if last.verdict.Some? then last.verdict.value.cost else 0.0
  }

  lemma {:induction false} SpendingAdds(a: seq<Attempt>, b: seq<Attempt>)
    ensures TokensOf(a + b) == TokensOf(a) + TokensOf(b)
    ensures CostOf(a + b) == CostOf(a) + CostOf(b)
  {
    if b == [] {
      assert a + b == a;
    } else {
      SpendingAdds(a, b[..|b| - 1]);
      assert (a + b)[..|a + b| - 1] == a + b[..|b| - 1];
    }
  }

  function MaxTokens(roles: seq<RoleConfig>): int {
    if roles == [] then 0 else MaxTokens(roles[..|roles| - 1]) + roles[|roles| - 1].maxOutputTokens
  }

  function MaxCost(roles: seq<RoleConfig>): real {
    if roles == [] then 0.0 else MaxCost(roles[..|roles| - 1]) + roles[|roles| - 1].maxCost
  }

  predicate Fits(tokens: int, cost: real, role: RoleConfig, budget: Budget) {
    tokens + role.maxOutputTokens <= budget.totalOutputTokens && cost + role.maxCost <= budget.totalCost
  }

  /** The role can be asked, and what it may use still fits. */
  predicate Asks(role: RoleConfig, clients: set<Role>, tokens: int, cost: real, c: Case) {
    role.enabled && role.role in clients && Fits(tokens, cost, role, c.profile.budget)
  }

  /** The first `k` roles, split into those that fit one after the other on top
      of the ones reserved before them, and those that did not. */
  function Reservation(roles: seq<RoleConfig>, budget: Budget, k: nat): (seq<RoleConfig>, seq<RoleConfig>)
    requires k <= |roles|
  {
    if k == 0 then ([], [])
    else
      var (reserved, skipped) := Reservation(roles, budget, k - 1);
      if Fits(MaxTokens(reserved), MaxCost(reserved), roles[k - 1], budget)
      then (reserved + [roles[k - 1]], skipped)
      else (reserved, skipped + [roles[k - 1]])
  }

  /** What is reserved stays inside the budget, and no role is lost. */
  lemma {:induction false} ReservationFits(roles: seq<RoleConfig>, budget: Budget, k: nat)
    requires k <= |roles|
    ensures var (reserved, skipped) := Reservation(roles, budget, k);
      && MaxTokens(reserved) <= budget.totalOutputTokens
      && (budget.totalCost >= 0.0 ==> MaxCost(reserved) <= budget.totalCost)
      && |reserved| + |skipped| == k
      && (forall c :: c in reserved || c in skipped <==> c in roles[..k])
  {
    if k > 0 {
      ReservationFits(roles, budget, k - 1);
      assert roles[..k] == roles[..k - 1] + [roles[k - 1]];
    }
  }

  // ---- when the budget holds ----

  predicate WithinBudget(tokens: int, cost: real, budget: Budget) {
    tokens <= budget.totalOutputTokens && cost <= budget.totalCost
  }

  predicate WithinCaps(charge: (int, real), role: RoleConfig) {
    charge.0 <= role.maxOutputTokens && charge.1 <= role.maxCost
  }

  /** What the schema asks of a profile's numbers. */
  predicate SaneCaps(profile: Profile) {
    && profile.budget.totalCost >= 0.0
    && forall i :: 0 <= i < |profile.roles| ==> profile.roles[i].maxOutputTokens > 0 && profile.roles[i].maxCost >= 0.0
  }

  /** No accepted answer of the run reports more than its role may use. */
  ghost predicate Frugal(c: Case, t: Transcript) {
    && ValidProfile(c.profile) && SaneCaps(c.profile)
    && forall n :: t.start <= n < |t.heard| ==> FrugalAnswer(c, t.heard[n])
  }

  predicate FrugalAnswer(c: Case, spoken: Spoken) {
    forall i :: 0 <= i < |c.profile.roles| && c.profile.roles[i].role == spoken.0
                && Accepts(spoken.1, c.profile.roles[i], c) ==>
      WithinCaps(Reported(spoken.1, c.profile.roles[i], c), c.profile.roles[i])
  }

  lemma FrugalEarlier(c: Case, t: Transcript, u: Transcript)
    requires Extends(t, u) && Frugal(c, u)
    ensures Frugal(c, t)
  {}

  /** Then every attempt made is charged no more than its role may use. */
  lemma MadeWithinCaps(a: Attempt, c: Case, t: Transcript, role: RoleConfig)
    requires Frugal(c, t) && Made(a, c, t) && role in c.profile.roles && role.role == a.role
    ensures WithinCaps(Charge(a.verdict, a.raw), role)
  {
    hide ParseVerdict, Honest;
    MadeAttemptsAreCharged(a, c, t);
    var i :| 0 <= i < |c.profile.roles| && ChargedAs(a, c.profile.roles[i], c);
    var j :| 0 <= j < |c.profile.roles| && c.profile.roles[j] == role;
    assert i == j;
    var call := CallResult(a.status, a.raw);
    if Accepts(call, role, c) {
      AcceptedIsCompleted(call, role, c);
      assert Answered(a.role, call, t);
      var n :| t.start <= n < |t.heard| && t.heard[n] == (a.role, call);
      assert FrugalAnswer(c, t.heard[n]);
    }
  }

  lemma AcceptedIsCompleted(call: CallResult, role: RoleConfig, c: Case)
    requires Accepts(call, role, c)
    ensures call.status.Completed?
  {}

  lemma {:induction false} SumWithinCaps(results: seq<Attempt>, roles: seq<RoleConfig>, c: Case, t: Transcript)
    requires Frugal(c, t) && AllMade(results, c, t) && |results| == |roles|
    requires forall i :: 0 <= i < |roles| ==> roles[i] in c.profile.roles && roles[i].role == results[i].role
    ensures TokensOf(results) <= MaxTokens(roles) && CostOf(results) <= MaxCost(roles)
  {
    hide Frugal, Made, Charge;
    if results != [] {
      var k := |results| - 1;
      SumWithinCaps(results[..k], roles[..k], c, t);
      assert Made(results[k], c, t);
      MadeWithinCaps(results[k], c, t, roles[k]);
      ChargeOf(results[k], c, t);
    }
  }

  lemma ChargeOf(a: Attempt, c: Case, t: Transcript)
    requires Made(a, c, t)
    ensures a.verdict.Some? && Charge(a.verdict, a.raw) == (a.verdict.value.outputTokens, a.verdict.value.cost)
  {
    hide ParseVerdict, Acceptable;
  }

  lemma {:induction false} CapsAdd(a: seq<RoleConfig>, b: seq<RoleConfig>)
    ensures MaxTokens(a + b) == MaxTokens(a) + MaxTokens(b) && MaxCost(a + b) == MaxCost(a) + MaxCost(b)
  {
    if b == [] {
      assert a + b == a;
    } else {
      CapsAdd(a, b[..|b| - 1]);
      assert (a + b)[..|a + b| - 1] == a + b[..|b| - 1];
    }
  }

  /** A reserved role whose one answer reports more than its cap breaks the budget. */
  lemma OverReportBreaksBudget()
    ensures var role := RoleConfig(Skeptic, Critical, true, 10, 1.0, false, false);
            var budget := Budget(10, 1.0, 0, 0);
            var c := Case(Profile("d", false, [role], budget), Candidate("c", "d", "buy", None, None),
                          Evidence("c", "d", "h", {}), "r");
            var said := Verdict("v", "r", Skeptic, "h", 1, Support, Info, [], [], false, None, None, 11, 0.0, Parsed);
            var call := CallResult(Completed, Some(RawOutput(100, VerdictText(said))));
            var a := FirstAttempt(role, call, None, c);
      && Reservation([role], budget, 1) == ([role], []) && !AsksRepair(role, call, c)
      && TokensOf([a]) == 11 && !WithinBudget(TokensOf([a]), CostOf([a]), budget)
  {
    var role := RoleConfig(Skeptic, Critical, true, 10, 1.0, false, false);
    var budget := Budget(10, 1.0, 0, 0);
    var c := Case(Profile("d", false, [role], budget), Candidate("c", "d", "buy", None, None),
                  Evidence("c", "d", "h", {}), "r");
    var said := Verdict("v", "r", Skeptic, "h", 1, Support, Info, [], [], false, None, None, 11, 0.0, Parsed);
    assert RunPrefix("r") == "r" by { assert RunPrefix("") == "" && "r"[1..] == ""; }
    assert Acceptable(said, role, c.evidence, "r");
    var a := FirstAttempt(role, CallResult(Completed, Some(RawOutput(100, VerdictText(said)))), None, c);
    assert a.verdict == Some(said);
    assert [a][..0] == [] && TokensOf([]) == 0 && CostOf([]) == 0.0;
    assert [role][..0] == [] && Reservation([role], budget, 0) == ([], []);
    assert MaxTokens([]) == 0 && MaxCost([]) == 0.0 && [] + [role] == [role];
  }

  class BudgetLedger {
    var outputTokens: int
    var cost: real

    constructor ()
      ensures outputTokens == 0 && cost == 0.0
    {
      outputTokens, cost := 0, 0.0;
    }

    predicate CanReserve(role: RoleConfig, budget: Budget)
      reads this
    {
      Fits(outputTokens, cost, role, budget)
    }

    method Record(verdict: Option<Verdict>, raw: Option<RawOutput>)
      modifies this
      ensures (outputTokens, cost) == (old(outputTokens) + Charge(verdict, raw).0, old(cost) + Charge(verdict, raw).1)
    {
      if verdict.Some? {
        outputTokens := outputTokens + verdict.value.outputTokens;
        cost := cost + verdict.value.cost;
      } else if raw.Some? && raw.value.length > 0 {
        outputTokens := outputTokens + if raw.value.length / 4 < 1 then 1 else raw.value.length / 4;
      }
    }
  }

  /** What the master adds to the tokens of a run: the estimate from its text, if
      it was asked at all. */
  function MasterTokens(master: Option<Attempt>, clients: set<Role>, tokens: int, cost: real, c: Case): nat {
    if master.Some? && HasRole(c.profile.roles, MasterSynthesizer)
       && Asks(RoleNamed(c.profile.roles, MasterSynthesizer), clients, tokens, cost, c)
    then Estimate(master.value.raw) else 0
  }

  /** The master's text has at most four characters for each token reserved for it. */
  predicate BriefMaster(master: Option<Attempt>, c: Case) {
    master.Some? && master.value.raw.Some? && HasRole(c.profile.roles, MasterSynthesizer) ==>
      master.value.raw.value.length <= 4 * RoleNamed(c.profile.roles, MasterSynthesizer).maxOutputTokens
  }

  lemma FrugalIsSane(c: Case, t: Transcript)
    requires Frugal(c, t)
    ensures ValidProfile(c.profile) && SaneCaps(c.profile)
  {}

  // ---- resuming ----

  /** Later attempts replace earlier ones of the same role, in place. */
  function PutAttempt(kept: seq<Attempt>, a: Attempt): (r: seq<Attempt>)
    ensures HasAttempt(r, a.role)
    ensures forall x :: x in r ==> x == a || x in kept
  {
    if kept == [] then assert [a][0].role == a.role; [a]
    else if kept[0].role == a.role then
      var r := [a] + kept[1..];
      assert r[0].role == a.role;
      assert forall x :: x in kept[1..] ==> x in kept;
      r
    else
      var rest := PutAttempt(kept[1..], a);
      var r := [kept[0]] + rest;
      assert forall i :: 0 <= i < |rest| ==> r[i + 1] == rest[i];
      r
  }

  function PriorAttempts(completed: seq<Attempt>, k: nat): seq<Attempt>
    requires k <= |completed|
  {
    if k == 0 then [] else PutAttempt(PriorAttempts(completed, k - 1), completed[k - 1])
  }

  predicate BelongsTo(a: Attempt, runId: string, evidence: Evidence) {
    a.verdict.Some? && a.verdict.value.runId == runId && a.verdict.value.bundleHash == evidence.bundleHash
  }

  lemma {:induction false} PriorBelong(completed: seq<Attempt>, runId: string, evidence: Evidence, k: nat)
    requires k <= |completed| && forall i :: 0 <= i < |completed| ==> BelongsTo(completed[i], runId, evidence)
    ensures forall x :: x in PriorAttempts(completed, k) ==> BelongsTo(x, runId, evidence)
  {
    if k > 0 { PriorBelong(completed, runId, evidence, k - 1); }
  }

  /** The specialists this run has to ask. */
  function FirstRoles(roles: seq<RoleConfig>, prior: seq<Attempt>): (r: seq<RoleConfig>)
    ensures forall c :: c in r <==> c in roles && !c.role.MasterSynthesizer? && c.enabled && !HasAttempt(prior, c.role)
    ensures |r| <= |roles|
  {
    if roles == [] then []
    else
      var last := roles[|roles| - 1];
      var rest := FirstRoles(roles[..|roles| - 1], prior);
      assert forall c :: c in roles <==> c in roles[..|roles| - 1] || c == last by {
        assert roles == roles[..|roles| - 1] + [last];
      }
      if !last.role.MasterSynthesizer? && last.enabled && !HasAttempt(prior, last.role) then rest + [last] else rest
  }

  function RoleNamed(roles: seq<RoleConfig>, r: Role): (c: RoleConfig)
    requires HasRole(roles, r)
    ensures c in roles && c.role == r
  {
    if roles[0].role == r then roles[0]
    else
      assert HasRole(roles[1..], r) by {
        var i :| 0 <= i < |roles| && roles[i].role == r;
        assert roles[1..][i - 1].role == r;
      }
      RoleNamed(roles[1..], r)
  }

  /** The last attempt of a role that carries a verdict. */
  function LatestAttempt(attempts: seq<Attempt>, r: Role): (a: Option<Attempt>)
    ensures a.Some? ==> a.value.role == r && a.value.verdict.Some?
  {
    if attempts == [] then None
    else
      var last := attempts[|attempts| - 1];
      if last.role == r && last.verdict.Some? then Some(last) else LatestAttempt(attempts[..|attempts| - 1], r)
  }

  function MasterIds(a: Attempt): set<string> { if a.verdict.Some? then {a.verdict.value.id} else {} }

  // ---- the theorem a run satisfies ----

  /** The role's last word neither fails nor objects. */
  predicate Cleared(run: CouncilRun, r: Role) {
    var v := LatestVerdict(run.attempts, r);
    v.Some? && !v.value.parse.Invalid? && !Vetoes(v.value)
  }

  /** Both theses were revised, to opposite non-abstaining decisions. */
  predicate Disagree(revisions: seq<Attempt>) {
    var bull, bear := LatestVerdict(revisions, BullThesis), LatestVerdict(revisions, BearThesis);
    bull.Some? && bear.Some? && !bull.value.decision.Abstain? && !bear.value.decision.Abstain?
    && bull.value.decision != bear.value.decision
  }

  /** Everything a "take" implies. */
  ghost predicate Earned(run: CouncilRun, c: Case, t: Transcript)
    requires run.resumed <= run.reviewed <= |run.attempts|
  {
    && CanSynthesize(run.policy)
    && !Disagree(run.attempts[run.reviewed..])
    && (forall r: Role :: IsCritical(c.profile, r) ==> Cleared(run, r))
    && Votes(LatestVerdict(run.attempts, BullThesis)) && Votes(LatestVerdict(run.attempts, BearThesis))
    && MasterSynthesizer in t.clients
    && (exists m :: m in c.profile.roles && m.role.MasterSynthesizer? && m.enabled
          && Fits(TokensOf(run.attempts[run.resumed..]), CostOf(run.attempts[run.resumed..]), m, c.profile.budget))
    && run.master.Some? && run.master.value.status.Completed? && run.master.value.raw.Some?
    && run.master.value.raw.value.content == DecisionText(run.decision)
    && Answered(MasterSynthesizer, CallResult(run.master.value.status, run.master.value.raw), t)
    && WellFormed(run.decision) && MasterErrorFree(run.decision, c.candidate, c.runId, VerdictIds(run.attempts))
  }

  /** The attempt was carried in, or its verdict is what that role's client said
      during the run. */
  ghost predicate Sourced(run: CouncilRun, c: Case, t: Transcript, i: nat)
    requires i < |run.attempts|
  {
    i < run.resumed
    || (run.attempts[i].role in t.clients
        && Answered(run.attempts[i].role, CallResult(run.attempts[i].status, run.attempts[i].raw), t)
        && exists j :: 0 <= j < |c.profile.roles| && Backed(run.attempts[i], c.profile.roles[j], c.evidence, c.runId))
  }

  /** Fails closed: a usable last word was carried in or truly said. Silence, a
      timeout, garbage, an exhausted budget or a reply for another run never
      becomes one. */
  lemma LastWordIsSourced(run: CouncilRun, c: Case, t: Transcript, r: Role)
    requires run.resumed <= |run.attempts| && AllMade(run.attempts[run.resumed..], c, t)
    requires LatestVerdict(run.attempts, r).Some? && !LatestVerdict(run.attempts, r).value.parse.Invalid?
    ensures exists i: nat ::
        i < |run.attempts| && run.attempts[i].verdict == LatestVerdict(run.attempts, r) && Sourced(run, c, t, i)
  {
    hide Acceptable, ParseVerdict;
    var i := LatestIndex(run.attempts, r);
    if i >= run.resumed {
      assert Made(run.attempts[run.resumed..][i - run.resumed], c, t);
    }
    assert Sourced(run, c, t, i);
  }

  lemma {:induction false} LatestIndex(attempts: seq<Attempt>, r: Role) returns (i: nat)
    requires LatestVerdict(attempts, r).Some?
    ensures i < |attempts| && attempts[i].verdict == LatestVerdict(attempts, r)
  {
    var last := attempts[|attempts| - 1].verdict;
    if last.Some? && last.value.role == r { return |attempts| - 1; }
    i := LatestIndex(attempts[..|attempts| - 1], r);
  }

  /** The policy lets the master speak only when every critical specialist has
      cleared the candidate and both theses vote. */
  lemma SynthesisNeedsClearance(profile: Profile, attempts: seq<Attempt>)
    ensures CanSynthesize(CalculatePolicy(profile, attempts)) <==>
      && (forall r: Role :: IsCritical(profile, r) ==>
            var v := LatestVerdict(attempts, r); v.Some? && !v.value.parse.Invalid? && !Vetoes(v.value))
      && Votes(LatestVerdict(attempts, BullThesis)) && Votes(LatestVerdict(attempts, BearThesis))
  {
    var p := CalculatePolicy(profile, attempts);
    forall r: Role | IsCritical(profile, r) ensures r in SPECIALISTS {}
    if CanSynthesize(p) {
      forall r: Role | IsCritical(profile, r)
        ensures var v := LatestVerdict(attempts, r); v.Some? && !v.value.parse.Invalid? && !Vetoes(v.value)
      {
        assert r !in p.missing && r !in p.vetoes;
      }
    }
  }

  /** A fallback can never clear or vote. */
  lemma FallbackNeverCounts(role: RoleConfig, runId: string, evidence: Evidence, attempt: nat)
    ensures var v := FallbackVerdict(role, runId, evidence, attempt);
      v.parse.Invalid? && !Votes(Some(v)) && (role.criticality.Critical? ==> Vetoes(v))
  {}

  // ---- the coordinator ----

  function NameRank(r: Role): nat {
    match r
    case BearThesis => 0
    case BullThesis => 1
    case ExecutionLiquidity => 2
    case MasterSynthesizer => 3
    case PortfolioRisk => 4
    case Researcher => 5
    case RulesSettlement => 6
    case Skeptic => 7
  }

  type Reply = (RoleConfig, CallResult)

  function InsertByName(sorted: seq<Reply>, x: Reply): (r: seq<Reply>)
    ensures |r| == |sorted| + 1
    ensures forall y :: y in r <==> y == x || y in sorted
  {
    if sorted == [] then [x]
    else if NameRank(x.0.role) < NameRank(sorted[0].0.role) then [x] + sorted
    else
      var rest := InsertByName(sorted[1..], x);
      assert forall y :: y in sorted <==> y == sorted[0] || y in sorted[1..] by {
        assert sorted == [sorted[0]] + sorted[1..];
      }
      [sorted[0]] + rest
  }

  /** Replies in the order of the names of their roles. */
  function ByName(replies: seq<Reply>): (r: seq<Reply>)
    ensures |r| == |replies|
    ensures forall y :: y in r <==> y in replies
  {
    if replies == [] then []
    else
      var last := replies[|replies| - 1];
      assert forall y :: y in replies <==> y in replies[..|replies| - 1] || y == last by {
        assert replies == replies[..|replies| - 1] + [last];
      }
      InsertByName(ByName(replies[..|replies| - 1]), last)
  }

  function RolesOf(replies: seq<Reply>): (r: seq<RoleConfig>)
    ensures |r| == |replies| && forall i :: 0 <= i < |r| ==> r[i] == replies[i].0
  {
    seq(|replies|, i requires 0 <= i < |replies| => replies[i].0)
  }

  lemma {:induction false} InsertedCaps(sorted: seq<Reply>, x: Reply)
    ensures MaxTokens(RolesOf(InsertByName(sorted, x))) == MaxTokens(RolesOf(sorted)) + x.0.maxOutputTokens
    ensures MaxCost(RolesOf(InsertByName(sorted, x))) == MaxCost(RolesOf(sorted)) + x.0.maxCost
  {
    CapsOfOne(x.0);
    if sorted == [] {
      assert RolesOf([x]) == [x.0] && RolesOf([]) == [];
    } else if NameRank(x.0.role) < NameRank(sorted[0].0.role) {
      assert RolesOf([x] + sorted) == [x.0] + RolesOf(sorted);
      CapsAdd([x.0], RolesOf(sorted));
    } else {
      InsertedCaps(sorted[1..], x);
      assert RolesOf(InsertByName(sorted, x)) == [sorted[0].0] + RolesOf(InsertByName(sorted[1..], x));
      assert RolesOf(sorted) == [sorted[0].0] + RolesOf(sorted[1..]);
      CapsAdd([sorted[0].0], RolesOf(InsertByName(sorted[1..], x)));
      CapsAdd([sorted[0].0], RolesOf(sorted[1..]));
    }
  }

  lemma CapsOfOne(role: RoleConfig)
    ensures MaxTokens([role]) == role.maxOutputTokens && MaxCost([role]) == role.maxCost
  {}

  /** Putting replies in order does not change what their roles may use together. */
  lemma {:induction false} OrderedCaps(replies: seq<Reply>)
    ensures MaxTokens(RolesOf(ByName(replies))) == MaxTokens(RolesOf(replies))
    ensures MaxCost(RolesOf(ByName(replies))) == MaxCost(RolesOf(replies))
  {
    if replies != [] {
      var front, last := replies[..|replies| - 1], replies[|replies| - 1];
      OrderedCaps(front);
      InsertedCaps(ByName(front), last);
      assert RolesOf(replies)[..|replies| - 1] == RolesOf(front);
    }
  }

  // ---- a run in closed form ----

  /** The roles with a client, and everything those clients will ever answer, in
      the order they are asked. */
  datatype Panel = Panel(clients: set<Role>, replies: nat -> CallResult)

  /** What a call to the role returns when `n` answers have been given before it. */
  function Ask(p: Panel, role: Role, n: nat): CallResult {
    if role in p.clients then p.replies(n) else CallResult(Failed, None)
  }

  /** The replies of the first `k` roles, asked in order, and the number of answers
      given by then. */
  function AskAll(p: Panel, roles: seq<RoleConfig>, n: nat, k: nat): (seq<Reply>, nat)
    requires k <= |roles|
  {
    if k == 0 then ([], n)
    else
      var (replied, m) := AskAll(p, roles, n, k - 1);
      (replied + [(roles[k - 1], Ask(p, roles[k - 1].role, m))], if roles[k - 1].role in p.clients then m + 1 else m)
  }

  function RepairOf(p: Panel, role: RoleConfig, call: CallResult, c: Case, n: nat): Option<CallResult> {
    if AsksRepair(role, call, c) then Some(p.replies(n)) else None
  }

  /** The attempts that the first `k` replies end in, each repaired where it has to be. */
  function JudgeAll(p: Panel, replied: seq<Reply>, c: Case, n: nat, k: nat): (seq<Attempt>, nat)
    requires k <= |replied|
  {
    if k == 0 then ([], n)
    else
      var (results, m) := JudgeAll(p, replied, c, n, k - 1);
      var repair := RepairOf(p, replied[k - 1].0, replied[k - 1].1, c, m);
      (results + [FirstAttempt(replied[k - 1].0, replied[k - 1].1, repair, c)], if repair.Some? then m + 1 else m)
  }

  function RoundOf(p: Panel, reserved: seq<RoleConfig>, c: Case, n: nat): (seq<Attempt>, nat) {
    var (replied, m) := AskAll(p, reserved, n, |reserved|);
    JudgeAll(p, ByName(replied), c, m, |ByName(replied)|)
  }

  function Unasked(skipped: seq<RoleConfig>, c: Case): seq<Attempt> {
    seq(|skipped|, i requires 0 <= i < |skipped| => FallbackAttempt(skipped[i], c.runId, c.evidence))
  }

  /** What the specialists not yet heard are found to say, and the number of
      answers given by then. */
  function SpecialistsOf(p: Panel, c: Case, prior: seq<Attempt>, n: nat): (seq<Attempt>, nat) {
    var roles := FirstRoles(c.profile.roles, prior);
    var (reserved, skipped) := Reservation(roles, c.profile.budget, |roles|);
    var (answered, m) := RoundOf(p, reserved, c, n);
    (Unasked(skipped, c) + answered, m)
  }

  /** Both theses made claims that the other can answer. */
  predicate BothClaim(attempts: seq<Attempt>) {
    var bull, bear := LatestAttempt(attempts, BullThesis), LatestAttempt(attempts, BearThesis);
    && bull.Some? && bear.Some?
    && bull.value.verdict.value.claims != [] && bear.value.verdict.value.claims != []
  }

  /** A role's revision, if it is given one, and the number of answers given by then. */
  function Revise(p: Panel, role: RoleConfig, c: Case, n: nat, tokens: int, cost: real): (seq<Attempt>, nat) {
    if !role.enabled || role.role !in p.clients then ([], n)
    else if Fits(tokens, cost, role, c.profile.budget) then ([RevisionAttempt(role, p.replies(n), c)], n + 1)
    else ([FallbackAttempt(role, c.runId, c.evidence)], n)
  }

  /** The revisions of the first `k` roles when so much has been spent before them. */
  function Revisions(p: Panel, roles: seq<RoleConfig>, c: Case, n: nat, tokens: int, cost: real, k: nat)
      : (seq<Attempt>, nat)
    requires k <= |roles|
  {
    if k == 0 then ([], n)
    else
      var (revisions, m) := Revisions(p, roles, c, n, tokens, cost, k - 1);
      var (added, a) := Revise(p, roles[k - 1], c, m, tokens + TokensOf(revisions), cost + CostOf(revisions));
      (revisions + added, a)
  }

  /** The two theses, the bull's first. */
  ghost function Theses(c: Case): seq<RoleConfig>
    requires ValidProfile(c.profile)
  {
    [RoleNamed(c.profile.roles, BullThesis), RoleNamed(c.profile.roles, BearThesis)]
  }

  ghost function Reconsidered(
      p: Panel, attempts: seq<Attempt>, policy: Policy, c: Case, n: nat, tokens: int, cost: real): (seq<Attempt>, nat)
    requires ValidProfile(c.profile)
  {
    if CanSynthesize(policy) && BothClaim(attempts) then Revisions(p, Theses(c), c, n, tokens, cost, 2) else ([], n)
  }

  /** The policy that attempts lead to, those from `reviewed` on being revisions. */
  function PolicyOf(profile: Profile, attempts: seq<Attempt>, reviewed: nat): Policy
    requires reviewed <= |attempts|
  {
    var policy := CalculatePolicy(profile, attempts);
    if Disagree(attempts[reviewed..]) then policy.(reasons := policy.reasons + [UnresolvedDisagreement]) else policy
  }

  datatype Deliberation = Deliberation(made: seq<Attempt>, reviewed: nat, answers: nat)

  ghost function DeliberationOf(p: Panel, c: Case, prior: seq<Attempt>, reconsider: bool, n: nat): (d: Deliberation)
    requires ValidProfile(c.profile)
    ensures |prior| <= d.reviewed <= |prior + d.made|
  {
    var (made, m) := SpecialistsOf(p, c, prior, n);
    var policy := CalculatePolicy(c.profile, prior + made);
    var (revisions, k) :=
      if reconsider && c.profile.budget.reconsiderationRounds > 0
      then Reconsidered(p, prior + made, policy, c, m, TokensOf(made), CostOf(made))
      else ([], m);
    Deliberation(made + revisions, |prior + made|, k)
  }

  /** The master's attempt when so much has been spent before it. */
  function MasterOf(p: Panel, role: RoleConfig, c: Case, n: nat, tokens: int, cost: real): Attempt {
    if !role.enabled || role.role !in p.clients then Attempt(role.role, 1, Failed, None, None)
    else if !Fits(tokens, cost, role, c.profile.budget) then FallbackAttempt(role, c.runId, c.evidence)
    else Attempt(role.role, 1, p.replies(n).status, None, p.replies(n).raw)
  }

  /** The run over the attempts carried in. */
  ghost function RunOf(p: Panel, c: Case, prior: seq<Attempt>, reconsider: bool, n: nat): CouncilRun
    requires ValidProfile(c.profile)
  {
    var d := DeliberationOf(p, c, prior, reconsider, n);
    var attempts, tokens, cost := prior + d.made, TokensOf(d.made), CostOf(d.made);
    var policy := PolicyOf(c.profile, attempts, d.reviewed);
    var master :=
      if CanSynthesize(policy)
      then Some(MasterOf(p, RoleNamed(c.profile.roles, MasterSynthesizer), c, d.answers, tokens, cost))
      else None;
    CouncilRun(attempts, |prior|, d.reviewed, master, policy, DecisionOf(master, attempts, c),
               tokens + MasterTokens(master, p.clients, tokens, cost, c), cost)
  }

  function DecisionOf(master: Option<Attempt>, attempts: seq<Attempt>, c: Case): Decision {
    if master.None? then HoldDecision(c.runId)
    else
      DecisionFromMaster(master.value, c.candidate, c.runId, VerdictIds(attempts) + MasterIds(master.value))
  }

  /** The figures of a run: the policy is what its attempts lead to, the master
      speaks exactly when the policy lets it, and the ledger holds what this run's
      attempts and the master used. */
  ghost predicate Accounted(run: CouncilRun, c: Case, clients: set<Role>) {
    && run.resumed <= run.reviewed <= |run.attempts|
    && run.policy == CalculatePolicy(c.profile, run.attempts).(reasons := run.policy.reasons)
    && run.policy.reasons == CalculatePolicy(c.profile, run.attempts).reasons
         + (if Disagree(run.attempts[run.reviewed..]) then [UnresolvedDisagreement] else [])
    && (run.master.Some? <==> CanSynthesize(run.policy))
    && run.decision == DecisionOf(run.master, run.attempts, c)
    && var made := run.attempts[run.resumed..];
       && run.cost == CostOf(made)
       && run.outputTokens == TokensOf(made) + MasterTokens(run.master, clients, TokensOf(made), CostOf(made), c)
  }

  /** The master was reached, and its completed reply holds this decision, which
      meets the schema and has no error. */
  predicate Stands(run: CouncilRun, c: Case, d: Decision) {
    && run.master.Some? && run.master.value.status.Completed? && run.master.value.raw.Some?
    && run.master.value.raw.value.content == DecisionText(d)
    && WellFormed(d) && MasterErrorFree(d, c.candidate, c.runId, VerdictIds(run.attempts))
  }

  class CouncilCoordinator {
    /** The roles with a client, and everything those clients will ever answer, in
        the order they are asked. */
    const clients: set<Role>
    const replies: nat -> CallResult
    var heard: seq<Spoken>

    constructor (clients: set<Role>, replies: nat -> CallResult)
      ensures this.clients == clients && this.replies == replies && heard == []
    {
      this.clients, this.replies, heard := clients, replies, [];
    }

    function Here(): Panel { Panel(clients, replies) }

    function Since(start: nat): Transcript
      reads this
    {
      Transcript(clients, heard, start)
    }

    method Invoke(role: Role) returns (call: CallResult)
      modifies this`heard
      ensures role in clients ==> call == replies(|old(heard)|) && heard == old(heard) + [(role, call)]
      ensures role !in clients ==> call == CallResult(Failed, None) && heard == old(heard)
      ensures Answered(role, call, Since(|old(heard)|))
    {
      if role !in clients { return CallResult(Failed, None); }
      call := replies(|heard|);
      heard := heard + [(role, call)];
      assert heard[|old(heard)|] == (role, call);
    }

    method ReserveRoles(roles: seq<RoleConfig>, budget: Budget, ledger: BudgetLedger)
        returns (reserved: seq<RoleConfig>, skipped: seq<RoleConfig>)
      requires ledger.outputTokens == 0 && ledger.cost == 0.0
      modifies ledger
      ensures (reserved, skipped) == Reservation(roles, budget, |roles|)
      ensures ledger.outputTokens == 0 && ledger.cost == 0.0
    {
      reserved, skipped := [], [];
      for i := 0 to |roles|
        invariant (reserved, skipped) == Reservation(roles, budget, i)
        invariant ledger.outputTokens == MaxTokens(reserved) && ledger.cost == MaxCost(reserved)
      {
        if ledger.CanReserve(roles[i], budget) {
          assert (reserved + [roles[i]])[..|reserved|] == reserved;
          reserved := reserved + [roles[i]];
          ledger.outputTokens := ledger.outputTokens + roles[i].maxOutputTokens;
          ledger.cost := ledger.cost + roles[i].maxCost;
        } else {
          skipped := skipped + [roles[i]];
        }
      }
      ledger.outputTokens, ledger.cost := 0, 0.0;
    }

    /** Takes a reply as it stands, or asks once for the same answer in the right
        format, or falls back. */
    method ParseOrRepair(role: RoleConfig, call: CallResult, c: Case, ghost start: nat) returns (a: Attempt)
      requires start <= |heard| && Answered(role.role, call, Since(start))
      requires call.status.Completed? ==> role.role in clients
      modifies this`heard
      ensures Honest(a, role, c.evidence, c.runId)
      ensures Answered(role.role, CallResult(a.status, a.raw), Since(start))
      ensures a == FirstAttempt(role, call, if AsksRepair(role, call, c) then Some(replies(|old(heard)|)) else None, c)
      ensures heard == old(heard) + if AsksRepair(role, call, c) then [(role.role, replies(|old(heard)|))] else []
    {
      var parsed := ParseVerdict(call, 1, role, c.evidence, c.runId);
      if parsed.Some? { return Attempt(role.role, 1, call.status, parsed, call.raw); }
      var last, attempt := call, 1;
      if call.status.Completed? && c.profile.budget.formatRetries > 0 && call.raw.Some? {
        last := Invoke(role.role);
        AnsweredExtends(role.role, last, Since(|old(heard)|), Since(start));
        attempt := 2;
        var repaired := ParseVerdict(last, 2, role, c.evidence, c.runId);
        if repaired.Some? {
          return Attempt(role.role, 2, last.status, Some(repaired.value.(parse := Repaired)), last.raw);
        }
      }
      a := Attempt(role.role, attempt, last.status,
          Some(FallbackVerdict(role, c.runId, c.evidence, attempt)), last.raw);
    }

    /** One call per role, in order. */
    method InvokeAll(roles: seq<RoleConfig>) returns (replied: seq<Reply>)
      modifies this`heard
      ensures |replied| == |roles| && forall i :: 0 <= i < |roles| ==> replied[i].0 == roles[i]
      ensures old(heard) <= heard && |heard| <= |old(heard)| + |roles|
      ensures forall i :: 0 <= i < |roles| ==> Answered(roles[i].role, replied[i].1, Since(|old(heard)|))
      ensures (replied, |heard|) == AskAll(Here(), roles, |old(heard)|, |roles|)
    {
      hide Answered;
      replied := [];
      for i := 0 to |roles|
        invariant |replied| == i && old(heard) <= heard && |heard| <= |old(heard)| + i
        invariant forall j :: 0 <= j < i ==> replied[j].0 == roles[j]
        invariant forall j :: 0 <= j < i ==> Answered(roles[j].role, replied[j].1, Since(|old(heard)|))
        invariant (replied, |heard|) == AskAll(Here(), roles, |old(heard)|, i)
      {
        ghost var before := Since(|heard|);
        ghost var sofar := Since(|old(heard)|);
        var call := Invoke(roles[i].role);
        AnsweredExtends(roles[i].role, call, Since(|before.heard|), Since(|old(heard)|));
        forall j | 0 <= j < i ensures Answered(roles[j].role, replied[j].1, Since(|old(heard)|)) {
          AnsweredExtends(roles[j].role, replied[j].1, sofar, Since(|old(heard)|));
        }
        replied := replied + [(roles[i], call)];
      }
    }

    /** Turns each reply into an attempt, in order. */
    method Judge(replied: seq<Reply>, c: Case, ledger: BudgetLedger, ghost start: nat) returns (results: seq<Attempt>)
      requires forall i :: 0 <= i < |replied| ==>
          replied[i].0 in c.profile.roles && !replied[i].0.role.MasterSynthesizer?
      requires start <= |heard| && forall i :: 0 <= i < |replied| ==>
          Answered(replied[i].0.role, replied[i].1, Since(start))
      modifies this`heard, ledger
      ensures old(heard) <= heard && |heard| <= |old(heard)| + |replied|
      ensures AllMade(results, c, Since(start))
      ensures |results| == |replied|
      ensures forall i :: 0 <= i < |replied| ==> results[i].role == replied[i].0.role
      ensures ledger.outputTokens == old(ledger.outputTokens) + TokensOf(results)
      ensures ledger.cost == old(ledger.cost) + CostOf(results)
      ensures (results, |heard|) == JudgeAll(Here(), replied, c, |old(heard)|, |replied|)
    {
      hide AllMade, Answered, Honest, Made, FallbackVerdict, HasAttempt;
      hide FirstAttempt, AsksRepair, TokensOf, CostOf, Charge;
      results := [];
      NoneMade(c, Since(start));
      for i := 0 to |replied|
        invariant |results| == i && old(heard) <= heard && |heard| <= |old(heard)| + i
        invariant AllMade(results, c, Since(start))
        invariant forall j :: 0 <= j < i ==> results[j].role == replied[j].0.role
        invariant (results, |heard|) == JudgeAll(Here(), replied, c, |old(heard)|, i)
        invariant ledger.outputTokens == old(ledger.outputTokens) + TokensOf(results)
        invariant ledger.cost == old(ledger.cost) + CostOf(results)
      {
        var role := replied[i].0;
        ghost var before := Since(start);
        AnsweredExtends(role.role, replied[i].1, Transcript(clients, old(heard), start), Since(start));
        CompletedHasClient(role.role, replied[i].1, Since(start));
        var a := ParseOrRepair(role, replied[i].1, c, start);
        AllMadeExtends(results, c, before, Since(start));
        HonestIsMade(a, role, c, Since(start));
        MadeAppend(results, a, c, Since(start));
        ChargeOf(a, c, Since(start));
        ledger.Record(a.verdict, a.raw);
        results := results + [a];
      }
    }

    /** Asks every reserved specialist and turns each reply into an attempt. */
    method FirstRound(reserved: seq<RoleConfig>, c: Case, ledger: BudgetLedger) returns (results: seq<Attempt>)
      requires forall r :: r in reserved ==> r in c.profile.roles && !r.role.MasterSynthesizer?
      modifies this`heard, ledger
      ensures old(heard) <= heard && |heard| <= |old(heard)| + 2 * |reserved|
      ensures AllMade(results, c, Since(|old(heard)|))
      ensures forall r :: r in reserved ==> HasAttempt(results, r.role)
      ensures ledger.outputTokens == old(ledger.outputTokens) + TokensOf(results)
      ensures ledger.cost == old(ledger.cost) + CostOf(results)
      ensures Frugal(c, Since(|old(heard)|)) ==>
        TokensOf(results) <= MaxTokens(reserved) && CostOf(results) <= MaxCost(reserved)
      ensures (results, |heard|) == RoundOf(Here(), reserved, c, |old(heard)|)
    {
      hide AllMade, HasAttempt, Answered, Frugal, TokensOf, CostOf, MaxTokens, MaxCost, AskAll, JudgeAll;
      var replied := InvokeAll(reserved);
      var ordered := ByName(replied);
      forall i | 0 <= i < |ordered|
        ensures ordered[i].0 in c.profile.roles && !ordered[i].0.role.MasterSynthesizer?
        ensures Answered(ordered[i].0.role, ordered[i].1, Since(|old(heard)|))
      {
        assert ordered[i] in ordered;
        var j :| 0 <= j < |replied| && replied[j] == ordered[i];
      }
      results := Judge(ordered, c, ledger, |old(heard)|);
      forall r | r in reserved ensures HasAttempt(results, r.role) {
        var i :| 0 <= i < |reserved| && reserved[i] == r;
        assert replied[i] in ordered;
        var j :| 0 <= j < |ordered| && ordered[j] == replied[i];
        AttemptAt(results, j);
      }
      OrderedCaps(replied);
      assert RolesOf(replied) == reserved;
      if Frugal(c, Since(|old(heard)|)) { SumWithinCaps(results, RolesOf(ordered), c, Since(|old(heard)|)); }
    }

    /** One thesis answers the other, if it has a client and fits what is left. */
    method ReviseThesis(role: RoleConfig, c: Case, ledger: BudgetLedger, ghost start: nat)
        returns (added: seq<Attempt>)
      requires ValidProfile(c.profile) && role in c.profile.roles && !role.role.MasterSynthesizer?
      requires start <= |heard|
      modifies this`heard, ledger
      ensures old(heard) <= heard && |heard| <= |old(heard)| + 1
      ensures AllMade(added, c, Since(start))
      ensures |added| <= 1 && forall i :: 0 <= i < |added| ==> added[i].role == role.role
      ensures ledger.outputTokens == old(ledger.outputTokens) + TokensOf(added)
      ensures ledger.cost == old(ledger.cost) + CostOf(added)
      ensures Frugal(c, Since(start)) && WithinBudget(old(ledger.outputTokens), old(ledger.cost), c.profile.budget) ==>
        WithinBudget(ledger.outputTokens, ledger.cost, c.profile.budget)
      ensures (added, |heard|) ==
        Revise(Here(), role, c, |old(heard)|, old(ledger.outputTokens), old(ledger.cost))
    {
      hide Honest, Made, AllMade, FallbackVerdict, ParseVerdict, Acceptable, Answered, Frugal;
      hide TokensOf, CostOf, ValidProfile;
      NoneMade(c, Since(start));
      if !role.enabled || role.role !in clients { return []; }
      if !ledger.CanReserve(role, c.profile.budget) {
        added := [FallbackAttempt(role, c.runId, c.evidence)];
        SkippedIsMade(role, c, Since(start));
        FallbackReportsNothing(role, c.runId, c.evidence, 1);
        MadeAppend([], added[0], c, Since(start));
        assert [] + added == added;
        return;
      }
      var call := Invoke(role.role);
      var revised := ParseVerdict(call, 2, role, c.evidence, c.runId);
      var verdict := if revised.Some? then revised.value else FallbackVerdict(role, c.runId, c.evidence, 2);
      var a := Attempt(role.role, 2, call.status, Some(verdict), call.raw);
      assert a == RevisionAttempt(role, call, c);
      AnsweredExtends(role.role, call, Since(|old(heard)|), Since(start));
      RevisedIsMade(call, role, c, Since(start));
      NoneMade(c, Since(start));
      MadeAppend([], a, c, Since(start));
      if Frugal(c, Since(start)) { MadeWithinCaps(a, c, Since(start), role); }
      ledger.Record(a.verdict, a.raw);
      added := [a];
      assert [] + added == added;
    }

    /** Lets the two theses answer each other once, when both made claims. */
    method Reconsider(
        attempts: seq<Attempt>, policy: Policy, c: Case, ledger: BudgetLedger) returns (revisions: seq<Attempt>)
      requires ValidProfile(c.profile)
      modifies this`heard, ledger
      ensures old(heard) <= heard && |heard| <= |old(heard)| + 2
      ensures AllMade(revisions, c, Since(|old(heard)|))
      ensures |revisions| <= 2 && (!CanSynthesize(policy) ==> revisions == [])
      ensures forall i :: 0 <= i < |revisions| ==> revisions[i].role in {BullThesis, BearThesis}
      ensures ledger.outputTokens == old(ledger.outputTokens) + TokensOf(revisions)
      ensures ledger.cost == old(ledger.cost) + CostOf(revisions)
      ensures Frugal(c, Since(|old(heard)|))
              && WithinBudget(old(ledger.outputTokens), old(ledger.cost), c.profile.budget) ==>
        WithinBudget(ledger.outputTokens, ledger.cost, c.profile.budget)
      ensures (revisions, |heard|) == Reconsidered(Here(), attempts, policy, c, |old(heard)|,
                                                   old(ledger.outputTokens), old(ledger.cost))
    {
      hide Honest, Made, AllMade, Answered, Frugal, LatestAttempt, RoleNamed, Revise, TokensOf, CostOf, CanSynthesize;
      ghost var within := WithinBudget(old(ledger.outputTokens), old(ledger.cost), c.profile.budget);
      revisions := [];
      NoneMade(c, Since(|heard|));
      if !CanSynthesize(policy) { return; }
      var targets := [LatestAttempt(attempts, BullThesis), LatestAttempt(attempts, BearThesis)];
      if targets[0].None? || targets[1].None? || targets[0].value.verdict.value.claims == []
         || targets[1].value.verdict.value.claims == []
      {
        return;
      }
      for i := 0 to 2
        invariant old(heard) <= heard && |heard| <= |old(heard)| + i && |revisions| <= i
        invariant forall j :: 0 <= j < |revisions| ==> revisions[j].role in {BullThesis, BearThesis}
        invariant AllMade(revisions, c, Since(|old(heard)|))
        invariant ledger.outputTokens == old(ledger.outputTokens) + TokensOf(revisions)
        invariant ledger.cost == old(ledger.cost) + CostOf(revisions)
        invariant Frugal(c, Since(|old(heard)|)) && within ==>
          WithinBudget(ledger.outputTokens, ledger.cost, c.profile.budget)
        invariant (revisions, |heard|) ==
          Revisions(Here(), Theses(c), c, |old(heard)|, old(ledger.outputTokens), old(ledger.cost), i)
      {
        var role := RoleNamed(c.profile.roles, targets[i].value.role);
        ghost var before := Since(|old(heard)|);
        var added := ReviseThesis(role, c, ledger, |old(heard)|);
        MadeJoin(revisions, added, c, before, Since(|old(heard)|));
        if Frugal(c, Since(|old(heard)|)) { FrugalEarlier(c, before, Since(|old(heard)|)); }
        revisions := revisions + added;
      }
    }

    /** One call to the master, if it has a client and fits what is left. */
    method ExecuteMaster(role: RoleConfig, c: Case, ledger: BudgetLedger) returns (a: Attempt)
      requires role.role.MasterSynthesizer?
      modifies this`heard, ledger
      ensures old(heard) <= heard && |heard| <= |old(heard)| + 1
      ensures var asked := Asks(role, clients, old(ledger.outputTokens), old(ledger.cost), c);
        && (asked ==> a.verdict.None? && heard == old(heard) + [(MasterSynthesizer, CallResult(a.status, a.raw))])
        && (!asked ==> !a.status.Completed? && heard == old(heard))
        && ledger.outputTokens == old(ledger.outputTokens) + (if asked then Estimate(a.raw) else 0)
        && ledger.cost == old(ledger.cost)
      ensures a == MasterOf(Here(), role, c, |old(heard)|, old(ledger.outputTokens), old(ledger.cost))
    {
      if !role.enabled || role.role !in clients {
        return Attempt(role.role, 1, Failed, None, None);
      }
      if !ledger.CanReserve(role, c.profile.budget) {
        return FallbackAttempt(role, c.runId, c.evidence);
      }
      var call := Invoke(role.role);
      var length := if call.raw.Some? then call.raw.value.length else 0;
      ledger.outputTokens := ledger.outputTokens + if length / 4 < 1 then 1 else length / 4;
      a := Attempt(role.role, 1, call.status, None, call.raw);
    }

    /** Every enabled specialist not already heard: asked when the budget reserves
        it, and given the fallback when not. */
    method AskSpecialists(c: Case, prior: seq<Attempt>, ledger: BudgetLedger) returns (made: seq<Attempt>)
      requires ledger.outputTokens == 0 && ledger.cost == 0.0
      modifies this`heard, ledger
      ensures old(heard) <= heard && |heard| <= |old(heard)| + 2 * |c.profile.roles|
      ensures AllMade(made, c, Since(|old(heard)|))
      ensures Covers(c.profile, prior + made)
      ensures ledger.outputTokens == TokensOf(made) && ledger.cost == CostOf(made)
      ensures Frugal(c, Since(|old(heard)|)) ==> WithinBudget(TokensOf(made), CostOf(made), c.profile.budget)
      ensures (made, |heard|) == SpecialistsOf(Here(), c, prior, |old(heard)|)
    {
      var firstRoles := FirstRoles(c.profile.roles, prior);
      var reserved, skipped := ReserveRoles(firstRoles, c.profile.budget, ledger);
      ReservationFits(firstRoles, c.profile.budget, |firstRoles|);
      assert firstRoles[..|firstRoles|] == firstRoles;
      var unasked := Unasked(skipped, c);
      var answered := FirstRound(reserved, c, ledger);
      made := unasked + answered;
      FirstRoundCovers(c, prior, reserved, skipped, answered, Since(|old(heard)|));
      UnaskedAreFree(skipped, c, |skipped|);
      SpendingAdds(unasked, answered);
    }

    /** The specialists' part of a run: the first round, the policy it leads to,
        and the revisions with the policy they lead to. */
    method Deliberate(c: Case, prior: seq<Attempt>, reconsider: bool, ledger: BudgetLedger)
        returns (made: seq<Attempt>, reviewed: nat, policy: Policy)
      requires ValidProfile(c.profile) && ledger.outputTokens == 0 && ledger.cost == 0.0
      modifies this`heard, ledger
      ensures old(heard) <= heard && |heard| <= |old(heard)| + 2 * |c.profile.roles| + 2
      ensures AllMade(made, c, Since(|old(heard)|))
      ensures Covers(c.profile, prior + made)
      ensures ledger.outputTokens == TokensOf(made) && ledger.cost == CostOf(made)
      ensures Frugal(c, Since(|old(heard)|)) ==> WithinBudget(TokensOf(made), CostOf(made), c.profile.budget)
      ensures |prior| <= reviewed <= |prior| + |made|
      ensures Deliberation(made, reviewed, |heard|) == DeliberationOf(Here(), c, prior, reconsider, |old(heard)|)
      ensures policy == PolicyOf(c.profile, prior + made, reviewed)
      ensures policy == CalculatePolicy(c.profile, prior + made).(reasons := policy.reasons)
      ensures policy.reasons == CalculatePolicy(c.profile, prior + made).reasons
                + if Disagree((prior + made)[reviewed..]) then [UnresolvedDisagreement] else []
    {
      hide AllMade, CalculatePolicy, Covers, Disagree, Answered, Frugal, SpecialistsOf, Reconsidered;
      made := AskSpecialists(c, prior, ledger);
      policy := CalculatePolicy(c.profile, prior + made);
      reviewed := |prior + made|;
      NothingDisagrees();
      assert (prior + made)[reviewed..] == [];
      if reconsider && c.profile.budget.reconsiderationRounds > 0 {
        ghost var asked := heard;
        var revisions := Reconsider(prior + made, policy, c, ledger);
        AllMadeExtends(made, c, Transcript(clients, asked, |old(heard)|), Since(|old(heard)|));
        if Frugal(c, Since(|old(heard)|)) {
          FrugalEarlier(c, Transcript(clients, asked, |old(heard)|), Since(|old(heard)|));
          FrugalEarlier(c, Since(|asked|), Since(|old(heard)|));
        }
        if revisions != [] {
          AllMadeExtends(revisions, c, Since(|asked|), Since(|old(heard)|));
          RevisionsJoin(c, prior, made, revisions, Since(|old(heard)|));
          assert (prior + (made + revisions))[reviewed..] == revisions;
          made := made + revisions;
          policy := CalculatePolicy(c.profile, prior + made);
          if Disagree(revisions) { policy := policy.(reasons := policy.reasons + [UnresolvedDisagreement]); }
        } else {
          NothingSpent();
          assert made + revisions == made;
        }
      }
    }

    /** One bounded council run. Whatever the clients answer, a "take" has been
        earned: see `Earned`. */
    method Run(c: Case, profile: Option<Profile>, reconsider: bool, completed: seq<Attempt>)
        returns (r: Result<CouncilRun, RunError>)
      requires profile.Some? ==> ValidProfile(profile.value) && profile.value == c.profile
      modifies this`heard
      ensures r.Ok? ==>
        profile.Some? && r.value == RunOf(Here(), c, PriorAttempts(completed, |completed|), reconsider, |old(heard)|)
      ensures old(heard) <= heard && |heard| <= |old(heard)| + 2 * |c.profile.roles| + 3
      ensures r.Err? <==> Refusal(c, profile, clients, completed).Some?
      ensures r.Err? ==> Refusal(c, profile, clients, completed) == Some(r.error) && heard == old(heard)
      ensures r.Ok? ==>
        && r.value.resumed <= r.value.reviewed <= |r.value.attempts|
        && r.value.attempts[..r.value.resumed] == PriorAttempts(completed, |completed|)
        && AllMade(r.value.attempts[r.value.resumed..], c, Since(|old(heard)|))
        && Covers(c.profile, r.value.attempts)
      ensures r.Ok? ==> Accounted(r.value, c, clients)
      ensures r.Ok? ==> forall d :: Stands(r.value, c, d) ==> r.value.decision == d
      ensures r.Ok? ==> Stands(r.value, c, r.value.decision) || r.value.decision == HoldDecision(c.runId)
      ensures r.Ok? && Frugal(c, Since(|old(heard)|)) ==>
        var made := r.value.attempts[r.value.resumed..];
        && WithinBudget(TokensOf(made), CostOf(made), c.profile.budget)
        && (BriefMaster(r.value.master, c) ==> WithinBudget(r.value.outputTokens, r.value.cost, c.profile.budget))
      ensures r.Ok? && r.value.decision.outcome.Take? ==> Earned(r.value, c, Since(|old(heard)|))
      ensures r.Ok? && !r.value.decision.outcome.Take? ==>
          r.value.decision.maxPrice.None? && r.value.decision.maxSize.None?
    {
      hide Refusal, AllMade, CalculatePolicy, PriorAttempts, Earned, Covers, Disagree, VerdictIds, HasRole, RoleNamed;
      hide DecisionFromMaster, WellFormed, MasterErrorFree, Frugal, DeliberationOf, PolicyOf, TokensOf, CostOf;
      hide Stands, Accounted;
      var refusal := Refusal(c, profile, clients, completed);
      if refusal.Some? { return Err(refusal.value); }
      AcceptedHasProfile(c, profile, clients, completed);
      var prior := PriorAttempts(completed, |completed|);
      var ledger := new BudgetLedger();
      var made, reviewed, policy := Deliberate(c, prior, reconsider, ledger);

      var attempts := prior + made;
      assert attempts[|prior|..] == made && attempts[..|prior|] == prior;
      var decision, master := HoldDecision(c.runId), None;
      if CanSynthesize(policy) {
        var masterConfig := RoleNamed(c.profile.roles, MasterSynthesizer);
        ghost var asked := heard;
        var attempt := ExecuteMaster(masterConfig, c, ledger);
        AllMadeExtends(made, c, Transcript(clients, asked, |old(heard)|), Since(|old(heard)|));
        if Frugal(c, Since(|old(heard)|)) {
          FrugalEarlier(c, Transcript(clients, asked, |old(heard)|), Since(|old(heard)|));
          FrugalIsSane(c, Since(|old(heard)|));
        }
        master := Some(attempt);
        decision := DecisionFromMaster(attempt, c.candidate, c.runId, VerdictIds(attempts) + MasterIds(attempt));
      }
      var run := CouncilRun(attempts, |prior|, reviewed, master, policy, decision, ledger.outputTokens, ledger.cost);
      RunIsAccounted(run, Here(), c, prior, reconsider, |old(heard)|);
      MasterIsHeeded(run, c, clients);
      if decision.outcome.Take? {
        TakeIsEarned(run, c, RoleNamed(c.profile.roles, MasterSynthesizer), Since(|old(heard)|));
      }
      r := Ok(run);
    }
  }

  // ---- the pieces of the run's proof ----

  /** Why a case is refused before any client is called. */
  function Refusal(c: Case, profile: Option<Profile>, clients: set<Role>, completed: seq<Attempt>): Option<RunError> {
    if c.candidate.id != c.evidence.candidateId then Some(MismatchedIds)
    else if c.candidate.domain != c.evidence.domain then Some(MismatchedDomains)
    else if profile.None? || profile.value.domain != c.candidate.domain || profile.value.disabled then
      Some(NoCompatibleProfile)
    else if forall i :: 0 <= i < |profile.value.roles| ==>
      var role := profile.value.roles[i]; role.role.MasterSynthesizer? || !role.enabled || role.role !in clients
    then Some(NoSpecialistClient)
    else if exists i :: 0 <= i < |completed| && !BelongsTo(completed[i], c.runId, c.evidence) then Some(ForeignAttempts)
    else None
  }

  lemma AcceptedHasProfile(c: Case, profile: Option<Profile>, clients: set<Role>, completed: seq<Attempt>)
    requires Refusal(c, profile, clients, completed).None?
    ensures profile.Some?
  {}

  /** No enabled specialist is silently left out. */
  ghost predicate Covers(profile: Profile, attempts: seq<Attempt>) {
    forall role :: role in profile.roles && role.enabled && !role.role.MasterSynthesizer? ==>
        HasAttempt(attempts, role.role)
  }

  lemma NothingDisagrees()
    ensures !Disagree([])
  {}

  lemma NothingSpent()
    ensures TokensOf([]) == 0 && CostOf([]) == 0.0
  {}

  lemma RevisionsJoin(c: Case, prior: seq<Attempt>, made: seq<Attempt>, revisions: seq<Attempt>, t: Transcript)
    requires AllMade(made, c, t) && AllMade(revisions, c, t)
    requires Covers(c.profile, prior + made)
    ensures AllMade(made + revisions, c, t)
    ensures Covers(c.profile, prior + (made + revisions))
    ensures TokensOf(made + revisions) == TokensOf(made) + TokensOf(revisions)
    ensures CostOf(made + revisions) == CostOf(made) + CostOf(revisions)
  {
    hide Made;
    SpendingAdds(made, revisions);
    forall role | role in c.profile.roles && role.enabled && !role.role.MasterSynthesizer?
      ensures HasAttempt(prior + (made + revisions), role.role)
    {
      var i :| 0 <= i < |prior + made| && (prior + made)[i].role == role.role;
      assert (prior + (made + revisions))[i].role == role.role;
    }
  }

  lemma RunIsAccounted(run: CouncilRun, p: Panel, c: Case, prior: seq<Attempt>, reconsider: bool, n: nat)
    requires ValidProfile(c.profile) && run == RunOf(p, c, prior, reconsider, n)
    ensures Accounted(run, c, p.clients)
  {
    hide DeliberationOf, CalculatePolicy, Disagree, DecisionOf, MasterTokens, CanSynthesize, MasterOf;
    var d := DeliberationOf(p, c, prior, reconsider, n);
    assert run.attempts[|prior|..] == d.made;
    var reasons := CalculatePolicy(c.profile, run.attempts).reasons;
    assert reasons + [] == reasons;
  }

  /** A decision that stands is the run's, and where none does the run holds. An
      attempt of the master that is a fallback was never completed, so the master's
      own verdict is never one it may cite. */
  lemma MasterIsHeeded(run: CouncilRun, c: Case, clients: set<Role>)
    requires Accounted(run, c, clients)
    requires run.master.Some? && run.master.value.status.Completed? ==> run.master.value.verdict.None?
    ensures forall d :: Stands(run, c, d) ==> run.decision == d
    ensures Stands(run, c, run.decision) || run.decision == HoldDecision(c.runId)
    ensures !run.decision.outcome.Take? ==> run.decision.maxPrice.None? && run.decision.maxSize.None?
    ensures run.decision.outcome.Take? ==>
      run.master.Some? && run.master.value.status.Completed? && Stands(run, c, run.decision)
  {
    hide MasterErrorFree, VerdictIds, CalculatePolicy, Disagree, CanSynthesize, MasterTokens, TokensOf, CostOf;
    if run.master.Some? && run.master.value.status.Completed? {
      assert VerdictIds(run.attempts) + MasterIds(run.master.value) == VerdictIds(run.attempts);
    }
    var d := run.decision;
    assert Stands(run, c, d) || d == HoldDecision(c.runId);
    if Stands(run, c, d) { assert WellFormed(d); }
  }

  lemma TakeIsEarned(run: CouncilRun, c: Case, master: RoleConfig, t: Transcript)
    requires Accounted(run, c, t.clients) && Stands(run, c, run.decision)
    requires master in c.profile.roles && master.role.MasterSynthesizer? && master.enabled
        && MasterSynthesizer in t.clients
    requires Fits(TokensOf(run.attempts[run.resumed..]), CostOf(run.attempts[run.resumed..]), master, c.profile.budget)
    requires t.start < |t.heard|
    requires t.heard[|t.heard| - 1] == (MasterSynthesizer, CallResult(run.master.value.status, run.master.value.raw))
    ensures Earned(run, c, t)
  {
    hide WellFormed, MasterErrorFree, CalculatePolicy, Disagree, MasterTokens, DecisionOf, TokensOf, CostOf;
    SynthesisNeedsClearance(c.profile, run.attempts);
  }

  /** A run takes if and only if the master said "take" and that take is earned. */
  lemma TakeIff(run: CouncilRun, c: Case, t: Transcript)
    requires run.resumed <= run.reviewed <= |run.attempts|
    requires run.decision.outcome.Take? ==> Earned(run, c, t)
    requires forall d :: Stands(run, c, d) ==> run.decision == d
    ensures run.decision.outcome.Take? <==> exists d: Decision :: d.outcome.Take? && Earned(run.(decision := d), c, t)
  {
    hide WellFormed, MasterErrorFree, CalculatePolicy, CanSynthesize, Disagree, TokensOf, CostOf, VerdictIds, Votes;
    if run.decision.outcome.Take? {
      assert run == run.(decision := run.decision);
      assert Earned(run.(decision := run.decision), c, t);
    }
    forall d: Decision | d.outcome.Take? && Earned(run.(decision := d), c, t)
      ensures run.decision == d
    {
      assert Stands(run, c, d);
    }
  }

  lemma AnsweredExtends(role: Role, call: CallResult, t: Transcript, u: Transcript)
    requires Extends(t, u) && Answered(role, call, t)
    ensures Answered(role, call, u)
  {}

  lemma CompletedHasClient(role: Role, call: CallResult, t: Transcript)
    requires Answered(role, call, t)
    ensures call.status.Completed? ==> role in t.clients
  {}

  lemma AllMadeExtends(attempts: seq<Attempt>, c: Case, t: Transcript, u: Transcript)
    requires Extends(t, u) && AllMade(attempts, c, t)
    ensures AllMade(attempts, c, u)
  {}

  lemma NoneMade(c: Case, t: Transcript)
    ensures AllMade([], c, t) && TokensOf([]) == 0 && CostOf([]) == 0.0
  {}

  lemma MadeAppend(attempts: seq<Attempt>, a: Attempt, c: Case, t: Transcript)
    requires AllMade(attempts, c, t) && Made(a, c, t)
    ensures AllMade(attempts + [a], c, t)
    ensures TokensOf(attempts + [a]) == TokensOf(attempts) + if a.verdict.Some? then a.verdict.value.outputTokens else 0
    ensures CostOf(attempts + [a]) == CostOf(attempts) + if a.verdict.Some? then a.verdict.value.cost else 0.0
  {}

  lemma MadeJoin(a: seq<Attempt>, b: seq<Attempt>, c: Case, t: Transcript, u: Transcript)
    requires Extends(t, u) && AllMade(a, c, t) && AllMade(b, c, u)
    ensures AllMade(a + b, c, u)
    ensures TokensOf(a + b) == TokensOf(a) + TokensOf(b) && CostOf(a + b) == CostOf(a) + CostOf(b)
  {
    hide Made;
    AllMadeExtends(a, c, t, u);
    SpendingAdds(a, b);
  }

  lemma AttemptAt(attempts: seq<Attempt>, i: nat)
    requires i < |attempts|
    ensures HasAttempt(attempts, attempts[i].role)
  {}

  lemma FallbackReportsNothing(role: RoleConfig, runId: string, evidence: Evidence, attempt: nat)
    ensures FallbackVerdict(role, runId, evidence, attempt).outputTokens == 0
    ensures FallbackVerdict(role, runId, evidence, attempt).cost == 0.0
  {}

  lemma HonestIsMade(a: Attempt, role: RoleConfig, c: Case, t: Transcript)
    requires role in c.profile.roles && !role.role.MasterSynthesizer? && Honest(a, role, c.evidence, c.runId)
    requires a.status.NotStarted? || Answered(role.role, CallResult(a.status, a.raw), t)
    ensures Made(a, c, t) && a.role == role.role
  {}

  lemma SkippedIsMade(role: RoleConfig, c: Case, t: Transcript)
    requires role in c.profile.roles && !role.role.MasterSynthesizer?
    ensures Made(FallbackAttempt(role, c.runId, c.evidence), c, t)
  {}

  lemma RevisedIsMade(call: CallResult, role: RoleConfig, c: Case, t: Transcript)
    requires role in c.profile.roles && !role.role.MasterSynthesizer? && Answered(role.role, call, t)
    ensures Made(RevisionAttempt(role, call, c), c, t)
  {}

  /** The first round covers the profile, with the fallbacks of the roles it could
      not afford in front of the answers. */
  lemma FirstRoundCovers(c: Case, prior: seq<Attempt>, reserved: seq<RoleConfig>, skipped: seq<RoleConfig>,
                         answered: seq<Attempt>, t: Transcript)
    requires forall r :: r in reserved || r in skipped <==> r in FirstRoles(c.profile.roles, prior)
    requires AllMade(answered, c, t)
    requires forall r :: r in reserved ==> HasAttempt(answered, r.role)
    ensures var unasked :=
        seq(|skipped|, i requires 0 <= i < |skipped| => FallbackAttempt(skipped[i], c.runId, c.evidence));
      && AllMade(unasked + answered, c, t)
      && Covers(c.profile, prior + (unasked + answered))
  {
    hide Made, FallbackVerdict;
    var unasked := seq(|skipped|, i requires 0 <= i < |skipped| => FallbackAttempt(skipped[i], c.runId, c.evidence));
    forall i | 0 <= i < |skipped| ensures Made(unasked[i], c, t) {
      assert skipped[i] in skipped;
      SkippedIsMade(skipped[i], c, t);
    }
    forall role | role in c.profile.roles && role.enabled && !role.role.MasterSynthesizer?
      ensures HasAttempt(prior + (unasked + answered), role.role)
    {
      var all := prior + (unasked + answered);
      if HasAttempt(prior, role.role) {
        var i :| 0 <= i < |prior| && prior[i].role == role.role;
        assert all[i].role == role.role;
      } else if role in reserved {
        var i :| 0 <= i < |answered| && answered[i].role == role.role;
        assert all[|prior| + |unasked| + i].role == role.role;
      } else {
        var i :| 0 <= i < |skipped| && skipped[i] == role;
        assert all[|prior| + i].role == role.role;
      }
    }
  }

  lemma {:induction false} UnaskedAreFree(skipped: seq<RoleConfig>, c: Case, k: nat)
    requires k <= |skipped|
    ensures var unasked := seq(k, i requires 0 <= i < k => FallbackAttempt(skipped[i], c.runId, c.evidence));
            TokensOf(unasked) == 0 && CostOf(unasked) == 0.0
  {
    if k > 0 {
      UnaskedAreFree(skipped, c, k - 1);
      var unasked := seq(k, i requires 0 <= i < k => FallbackAttempt(skipped[i], c.runId, c.evidence));
      var earlier := seq(k - 1, i requires 0 <= i < k - 1 => FallbackAttempt(skipped[i], c.runId, c.evidence));
      assert unasked[..k - 1] == earlier;
    }
  }
}
