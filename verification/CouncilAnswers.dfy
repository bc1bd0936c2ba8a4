/** What the council answers, said of replies, attempts and numbers: when a reply is
    used, who is asked and in what order, what the policy says, and when the
    master's decision is the run's. */
module CouncilAnswers {
  import opened Wrappers
  import opened Council
  import opened Coordinator

  // ---- one reply ----

  /** The run's id up to its first colon, or all of it. */
  predicate StartOf(part: string, runId: string) {
    part <= runId && ':' !in part && (part == runId || runId[|part|] == ':')
  }

  lemma {:induction false} RunPrefixIs(runId: string, part: string)
    ensures part == RunPrefix(runId) <==> StartOf(part, runId)
  {
    if runId != [] && runId[0] != ':' {
      RunPrefixIs(runId[1..], RunPrefix(runId[1..]));
      if part != [] { RunPrefixIs(runId[1..], part[1..]); }
      assert part != [] ==> part == [part[0]] + part[1..];
    }
  }

  /** A claim of the verdict rests on something that is not in evidence. */
  predicate CitesUnknown(v: Verdict, evidence: Evidence) {
    exists i, id | 0 <= i < |v.claims + v.counterevidence| && id in (v.claims + v.counterevidence)[i].evidence ::
      id !in evidence.ids
  }

  /** A verdict is refused exactly for one of these reasons. */
  lemma UnacceptableIff(v: Verdict, role: RoleConfig, evidence: Evidence, runId: string)
    ensures !Acceptable(v, role, evidence, runId) <==>
      || v.role != role.role || !StartOf(v.runId, runId) || v.bundleHash != evidence.bundleHash
      || CitesUnknown(v, evidence) || v.parse == Invalid
      || (v.proposesAction && (v.role == Researcher || v.role == RulesSettlement || v.role == PortfolioRisk))
      || (v.priceCeiling != None && !role.allowPrice) || (v.sizeCeiling != None && !role.allowSize)
  {
    RunPrefixIs(runId, v.runId);
    CitesIff(v, evidence);
  }

  lemma CitesIff(v: Verdict, evidence: Evidence)
    ensures CitesUnknown(v, evidence) <==> !(Cites(v.claims, evidence.ids) && Cites(v.counterevidence, evidence.ids))
  {
    var all := v.claims + v.counterevidence;
    if i :| 0 <= i < |v.claims| && !(v.claims[i].evidence <= evidence.ids) {
      var id :| id in v.claims[i].evidence && id !in evidence.ids;
      assert all[i] == v.claims[i];
    } else if i :| 0 <= i < |v.counterevidence| && !(v.counterevidence[i].evidence <= evidence.ids) {
      var id :| id in v.counterevidence[i].evidence && id !in evidence.ids;
      assert all[|v.claims| + i] == v.counterevidence[i];
    }
  }

  /** The answer was given and holds an acceptable verdict. */
  predicate Holds(call: CallResult, v: Verdict, role: RoleConfig, c: Case) {
    && call.status == Completed && call.raw.Some? && call.raw.value.content == VerdictText(v)
    && Acceptable(v, role, c.evidence, c.runId)
  }

  /** A stand-in that neither votes nor says anything, and blocks in a critical role. */
  predicate StandsIn(a: Attempt, role: RoleConfig, c: Case) {
    && a.role == role.role && a.verdict.Some?
    && var v := a.verdict.value;
       && v.role == role.role && v.runId == c.runId && v.bundleHash == c.evidence.bundleHash && v.attempt == a.attempt
       && v.decision == (if role.criticality == Critical then Block else Abstain)
       && v.severity == (if role.criticality == Critical then Blocking else Warn)
       && v.parse == Invalid && v.claims == [] && v.counterevidence == [] && !v.proposesAction
       && v.priceCeiling == None && v.sizeCeiling == None && v.outputTokens == 0 && v.cost == 0.0
  }

  /** A stand-in is named after the run, the role and the attempt. */
  lemma StandInIsNamed(role: RoleConfig, c: Case)
    ensures FallbackVerdict(role, c.runId, c.evidence, 1).id == c.runId + "-" + RoleName(role.role) + "-1-fallback"
    ensures FallbackVerdict(role, c.runId, c.evidence, 2).id == c.runId + "-" + RoleName(role.role) + "-2-fallback"
  {
    var named := c.runId + "-" + RoleName(role.role);
    assert (named + "-1") + "-fallback" == named + "-1-fallback";
    assert (named + "-2") + "-fallback" == named + "-2-fallback";
  }

  /** A first answer is asked for again exactly when a text came, it holds no
      acceptable verdict, and the profile allows a retry. */
  lemma AsksRepairIff(role: RoleConfig, call: CallResult, c: Case)
    ensures AsksRepair(role, call, c) <==>
      && call.status == Completed && call.raw != None && c.profile.budget.formatRetries >= 1
      && !exists v :: Holds(call, v, role, c)
  {
    hide Acceptable;
    if Accepts(call, role, c) { assert Holds(call, call.raw.value.content.verdict, role, c); }
  }

  /** A role's attempt carries the verdict of its first answer if that is
      acceptable, else the repaired answer's if that is, and else a stand-in. */
  lemma FirstAttemptIs(role: RoleConfig, call: CallResult, repair: Option<CallResult>, c: Case, v: Verdict)
    requires repair.Some? <==> AsksRepair(role, call, c)
    ensures var a := FirstAttempt(role, call, repair, c);
      && (Holds(call, v, role, c) ==>
            a == Attempt(role.role, 1, Completed, Some(v.(attempt := 1)), call.raw))
      && (repair.Some? && Holds(repair.value, v, role, c) ==>
            a == Attempt(role.role, 2, Completed, Some(v.(attempt := 2, parse := Repaired)), repair.value.raw))
    ensures var a := FirstAttempt(role, call, repair, c);
      (forall w :: !Holds(call, w, role, c) && (repair.Some? ==> !Holds(repair.value, w, role, c))) ==>
        && StandsIn(a, role, c)
        && (if repair.Some? then a.attempt == 2 && CallResult(a.status, a.raw) == repair.value
            else a.attempt == 1 && CallResult(a.status, a.raw) == call)
  {
    hide Acceptable;
    if Accepts(call, role, c) { assert Holds(call, call.raw.value.content.verdict, role, c); }
    if repair.Some? && Accepts(repair.value, role, c) {
      assert Holds(repair.value, repair.value.raw.value.content.verdict, role, c);
    }
  }

  /** A revision carries its one answer's verdict if acceptable, and else a stand-in. */
  lemma RevisionAttemptIs(role: RoleConfig, call: CallResult, c: Case, v: Verdict)
    ensures var a := RevisionAttempt(role, call, c);
      && a.role == role.role && a.attempt == 2 && CallResult(a.status, a.raw) == call
      && (Holds(call, v, role, c) ==> a.verdict == Some(v.(attempt := 2)))
      && ((forall w :: !Holds(call, w, role, c)) ==> StandsIn(a, role, c))
  {
    hide Acceptable;
    if Accepts(call, role, c) { assert Holds(call, call.raw.value.content.verdict, role, c); }
  }

  /** An attempt with a verdict costs what that reports; one without costs a quarter
      of its text's length in tokens, at least one, and nothing if it has no text. */
  lemma ChargeIs(verdict: Option<Verdict>, raw: Option<RawOutput>)
    ensures var (tokens, cost) := Charge(verdict, raw);
      match verdict
      case Some(v) => tokens == v.outputTokens && cost == v.cost
      case None =>
        && cost == 0.0
        && (raw.None? || raw.value.length == 0 ==> tokens == 0)
        && (raw.Some? && 0 < raw.value.length < 8 ==> tokens == 1)
        && (raw.Some? && raw.value.length >= 8 ==> 4 * tokens <= raw.value.length < 4 * (tokens + 1))
    ensures raw.None? ==> Estimate(raw) == 1
    ensures raw.Some? && raw.value.length < 8 ==> Estimate(raw) == 1
    ensures raw.Some? && raw.value.length >= 8 ==> 4 * Estimate(raw) <= raw.value.length < 4 * (Estimate(raw) + 1)
  {}

  // ---- who is asked ----

  /** The specialists to be asked keep the order of the profile. */
  lemma {:induction false} FirstRolesKeepOrder(a: seq<RoleConfig>, b: seq<RoleConfig>, prior: seq<Attempt>)
    ensures FirstRoles(a + b, prior) == FirstRoles(a, prior) + FirstRoles(b, prior)
  {
    if b == [] {
      assert a + b == a;
    } else {
      FirstRolesKeepOrder(a, b[..|b| - 1], prior);
      assert (a + b)[..|a + b| - 1] == a + b[..|b| - 1];
    }
  }

  /** A role is reserved exactly when what it may use fits on top of what the roles
      reserved before it may use, and neither list is ever reordered. */
  lemma ReservesNext(roles: seq<RoleConfig>, budget: Budget, k: nat)
    requires k < |roles|
    ensures var (before, passed) := Reservation(roles, budget, k);
            var (reserved, skipped) := Reservation(roles, budget, k + 1);
      if MaxTokens(before + [roles[k]]) <= budget.totalOutputTokens && MaxCost(before + [roles[k]]) <= budget.totalCost
      then reserved == before + [roles[k]] && skipped == passed
      else reserved == before && skipped == passed + [roles[k]]
  {
    var (before, passed) := Reservation(roles, budget, k);
    CapsAdd(before, [roles[k]]);
    CapsOfOne(roles[k]);
  }

  /** How many of the first `k` roles have a client. */
  function Staffed(p: Panel, roles: seq<RoleConfig>, k: nat): nat
    requires k <= |roles|
  {
    if k == 0 then 0 else Staffed(p, roles, k - 1) + if roles[k - 1].role in p.clients then 1 else 0
  }

  /** Each role is answered by its own client in its turn. */
  lemma {:induction false} AskedInTurn(p: Panel, roles: seq<RoleConfig>, n: nat, k: nat)
    requires k <= |roles|
    ensures var (replied, m) := AskAll(p, roles, n, k);
      && |replied| == k && m == n + Staffed(p, roles, k)
      && forall i :: 0 <= i < k ==>
           replied[i] == (roles[i], if roles[i].role in p.clients then p.replies(n + Staffed(p, roles, i))
                                    else CallResult(Failed, None))
  {
    if k > 0 { AskedInTurn(p, roles, n, k - 1); }
  }

  /** What a reply ends in when `m` answers have been given before its repair. */
  function JudgedAt(reply: Reply, p: Panel, c: Case, m: nat): Attempt {
    FirstAttempt(reply.0, reply.1, if AsksRepair(reply.0, reply.1, c) then Some(p.replies(m)) else None, c)
  }

  ghost predicate JudgedFrom(a: Attempt, reply: Reply, p: Panel, c: Case, n: nat) {
    exists m: nat :: n <= m && a == JudgedAt(reply, p, c, m)
  }

  lemma {:induction false} JudgedInTurn(p: Panel, replied: seq<Reply>, c: Case, n: nat, k: nat)
    requires k <= |replied|
    ensures var (results, m) := JudgeAll(p, replied, c, n, k);
      && |results| == k && n <= m
      && forall i :: 0 <= i < k ==> JudgedFrom(results[i], replied[i], p, c, n)
  {
    hide FirstAttempt, AsksRepair;
    if k > 0 {
      JudgedInTurn(p, replied, c, n, k - 1);
      var (results, m) := JudgeAll(p, replied, c, n, k - 1);
      assert JudgeAll(p, replied, c, n, k).0[k - 1] == JudgedAt(replied[k - 1], p, c, m);
      assert JudgedFrom(JudgeAll(p, replied, c, n, k).0[k - 1], replied[k - 1], p, c, n);
    }
  }

  /** Every reserved role is heard: its attempt is what its client's own answer, and
      the repair of that answer, end in. */
  lemma EveryReservedIsHeard(p: Panel, reserved: seq<RoleConfig>, c: Case, n: nat, i: nat)
    requires i < |reserved|
    ensures var (results, m) := RoundOf(p, reserved, c, n);
            var answer := if reserved[i].role in p.clients then p.replies(n + Staffed(p, reserved, i))
                          else CallResult(Failed, None);
      && |results| == |reserved|
      && exists j :: 0 <= j < |results|
           && JudgedFrom(results[j], (reserved[i], answer), p, c, n + Staffed(p, reserved, |reserved|))
  {
    hide JudgedFrom, JudgeAll, AskAll, ByName, Staffed;
    var (replied, m) := AskAll(p, reserved, n, |reserved|);
    AskedInTurn(p, reserved, n, |reserved|);
    JudgedInTurn(p, ByName(replied), c, m, |ByName(replied)|);
    assert replied[i] in replied && replied[i] in ByName(replied);
    var j :| 0 <= j < |ByName(replied)| && ByName(replied)[j] == replied[i];
  }

  /** In the order of the alphabet. */
  predicate Before(a: string, b: string) {
    b != [] && (a == [] || a[0] < b[0] || (a[0] == b[0] && Before(a[1..], b[1..])))
  }

  lemma LettersDecide(a: string, b: string)
    requires |a| > 1 && |b| > 1
    ensures a[0] != b[0] ==> (Before(a, b) <==> a[0] < b[0])
    ensures a[0] == b[0] && a[1] != b[1] ==> (Before(a, b) <==> a[1] < b[1])
  {
    assert a[1..][0] == a[1] && b[1..][0] == b[1];
  }

  lemma NamesInOrder(a: Role, b: Role)
    ensures NameRank(a) < NameRank(b) <==> Before(RoleName(a), RoleName(b))
  {
    hide Before;
    LettersDecide(RoleName(a), RoleName(b));
    if a == b { NotBeforeItself(RoleName(a)); }
  }

  lemma {:induction false} NotBeforeItself(a: string)
    ensures !Before(a, a)
  {
    if a != [] { NotBeforeItself(a[1..]); }
  }

  ghost predicate Ascending(replies: seq<Reply>) {
    forall i, j :: 0 <= i < j < |replies| ==> NameRank(replies[i].0.role) <= NameRank(replies[j].0.role)
  }

  lemma {:induction false} InsertsInOrder(sorted: seq<Reply>, x: Reply)
    requires Ascending(sorted)
    ensures Ascending(InsertByName(sorted, x))
  {
    if sorted != [] && NameRank(x.0.role) >= NameRank(sorted[0].0.role) {
      var rest := InsertByName(sorted[1..], x);
      InsertsInOrder(sorted[1..], x);
      forall i | 0 <= i < |rest| ensures NameRank(sorted[0].0.role) <= NameRank(rest[i].0.role) {
        assert rest[i] in rest;
      }
    }
  }

  lemma {:induction false} InsertsOne(sorted: seq<Reply>, x: Reply)
    ensures multiset(InsertByName(sorted, x)) == multiset(sorted) + multiset{x}
  {
    if sorted != [] {
      assert sorted == [sorted[0]] + sorted[1..];
      InsertsOne(sorted[1..], x);
    }
  }

  /** The replies are judged in the order of their roles' names, each once. */
  lemma {:induction false} ByNameIsOrdered(replies: seq<Reply>)
    ensures Ascending(ByName(replies)) && multiset(ByName(replies)) == multiset(replies)
  {
    if replies != [] {
      var front, last := replies[..|replies| - 1], replies[|replies| - 1];
      assert replies == front + [last];
      ByNameIsOrdered(front);
      InsertsInOrder(ByName(front), last);
      InsertsOne(ByName(front), last);
    }
  }

  /** An attempt stands for the role without its having been asked. */
  ghost predicate PassedOver(role: RoleConfig, made: seq<Attempt>, c: Case) {
    exists a :: a in made && a.status == NotStarted && StandsIn(a, role, c)
  }

  /** An attempt is what the role's own answer, given in its turn, ends in. */
  ghost predicate Heard(role: RoleConfig, reserved: seq<RoleConfig>, made: seq<Attempt>, p: Panel, c: Case, n: nat) {
    exists i: nat, a | i < |reserved| && reserved[i] == role && a in made ::
      JudgedFrom(a, (role, Ask(p, role.role, n + Staffed(p, reserved, i))), p, c, n + Staffed(p, reserved, |reserved|))
  }

  lemma RoundHears(p: Panel, reserved: seq<RoleConfig>, c: Case, n: nat)
    ensures var (results, m) := RoundOf(p, reserved, c, n);
      |results| == |reserved| && forall role | role in reserved :: Heard(role, reserved, results, p, c, n)
  {
    hide JudgedFrom, RoundOf, Staffed;
    var (results, m) := RoundOf(p, reserved, c, n);
    forall role | role in reserved ensures Heard(role, reserved, results, p, c, n) {
      var i :| 0 <= i < |reserved| && reserved[i] == role;
      EveryReservedIsHeard(p, reserved, c, n, i);
      var reply := (role, Ask(p, role.role, n + Staffed(p, reserved, i)));
      var j :| 0 <= j < |results| && JudgedFrom(results[j], reply, p, c, n + Staffed(p, reserved, |reserved|));
      assert results[j] in results;
    }
    if reserved == [] { NobodyAnswers(p, c, n); }
    else { EveryReservedIsHeard(p, reserved, c, n, 0); }
  }

  lemma NobodyAnswers(p: Panel, c: Case, n: nat)
    ensures RoundOf(p, [], c, n).0 == []
  {}

  /** Every specialist to be asked ends in one attempt: a stand-in that was never
      started when the reservation passed it over, and else what its client's own
      answer ends in. */
  lemma SpecialistsAre(p: Panel, c: Case, prior: seq<Attempt>, n: nat)
    ensures var roles := FirstRoles(c.profile.roles, prior);
            var (reserved, skipped) := Reservation(roles, c.profile.budget, |roles|);
            var (made, m) := SpecialistsOf(p, c, prior, n);
      && |made| == |roles|
      && (forall role :: role in roles <==> role in reserved || role in skipped)
      && (forall role | role in skipped :: PassedOver(role, made, c))
      && (forall role | role in reserved :: Heard(role, reserved, made, p, c, n))
  {
    hide JudgedFrom, RoundOf, Reservation, FirstRoles, Staffed, Ask, StandsIn;
    var roles := FirstRoles(c.profile.roles, prior);
    var (reserved, skipped) := Reservation(roles, c.profile.budget, |roles|);
    var (made, m) := SpecialistsOf(p, c, prior, n);
    ReservationFits(roles, c.profile.budget, |roles|);
    assert roles[..|roles|] == roles;
    RoundHears(p, reserved, c, n);
    forall role | role in skipped ensures PassedOver(role, made, c) {
      var i :| 0 <= i < |skipped| && skipped[i] == role;
      assert made[i] == FallbackAttempt(role, c.runId, c.evidence);
      FallbackStandsIn(role, c);
    }
    forall role | role in reserved ensures Heard(role, reserved, made, p, c, n) {
      HeardAmong(role, reserved, RoundOf(p, reserved, c, n).0, made, p, c, n);
    }
  }

  lemma FallbackStandsIn(role: RoleConfig, c: Case)
    ensures StandsIn(FallbackAttempt(role, c.runId, c.evidence), role, c)
  {}

  lemma HeardAmong(
      role: RoleConfig, reserved: seq<RoleConfig>, some: seq<Attempt>, all: seq<Attempt>,
      p: Panel, c: Case, n: nat)
    requires Heard(role, reserved, some, p, c, n) && forall a :: a in some ==> a in all
    ensures Heard(role, reserved, all, p, c, n)
  {
    hide JudgedFrom, Staffed, Ask;
  }

  // ---- what is carried in ----

  ghost predicate OneARole(attempts: seq<Attempt>) {
    forall i, j :: 0 <= i < j < |attempts| ==> attempts[i].role != attempts[j].role
  }

  /** The roles of `a` stand first in `b`, in their order. */
  predicate RolesLead(a: seq<Attempt>, b: seq<Attempt>) {
    |a| <= |b| && forall i :: 0 <= i < |a| ==> a[i].role == b[i].role
  }

  lemma {:induction false} PutIs(kept: seq<Attempt>, a: Attempt)
    requires OneARole(kept)
    ensures var r := PutAttempt(kept, a);
      && OneARole(r) && RolesLead(kept, r)
      && forall x :: x in r <==> x == a || (x in kept && x.role != a.role)
  {
    hide HasAttempt;
    if kept != [] {
      var rest := kept[1..];
      assert kept == [kept[0]] + rest;
      forall x | x in rest ensures x.role != kept[0].role {
        var i :| 0 <= i < |rest| && rest[i] == x;
        assert kept[i + 1] == x;
      }
      if kept[0].role != a.role {
        PutIs(rest, a);
        PutBehind(kept[0], rest, PutAttempt(rest, a), a);
      }
    }
  }

  lemma PutBehind(first: Attempt, kept: seq<Attempt>, put: seq<Attempt>, a: Attempt)
    requires OneARole(put) && RolesLead(kept, put) && first.role != a.role
    requires forall x :: x in put <==> x == a || (x in kept && x.role != a.role)
    requires forall x :: x in kept ==> x.role != first.role
    ensures OneARole([first] + put) && RolesLead([first] + kept, [first] + put)
    ensures forall x :: x in [first] + put <==> x == a || (x in [first] + kept && x.role != a.role)
  {
    forall i | 0 <= i < |put| ensures put[i].role != first.role {
      assert put[i] in put;
    }
  }

  /** The last of its role among the first `k`, at place `i`. */
  predicate LastAt(completed: seq<Attempt>, k: nat, a: Attempt, i: nat)
    requires k <= |completed|
  {
    i < k && completed[i] == a && forall j :: i < j < k ==> completed[j].role != a.role
  }

  /** Holds the last of each role among the first `k`, and nothing else. */
  ghost predicate HoldsLast(prior: seq<Attempt>, completed: seq<Attempt>, k: nat)
    requires k <= |completed|
  {
    forall a :: a in prior <==> exists i: nat :: LastAt(completed, k, a, i)
  }

  lemma LastMoves(before: seq<Attempt>, prior: seq<Attempt>, completed: seq<Attempt>, k: nat)
    requires 0 < k <= |completed| && HoldsLast(before, completed, k - 1)
    requires forall x :: x in prior <==> x == completed[k - 1] || (x in before && x.role != completed[k - 1].role)
    ensures HoldsLast(prior, completed, k)
  {
    assert LastAt(completed, k, completed[k - 1], k - 1);
    forall a | a != completed[k - 1] ensures a in prior <==> exists i: nat :: LastAt(completed, k, a, i) {
      if a in prior {
        var i: nat :| LastAt(completed, k - 1, a, i);
        assert LastAt(completed, k, a, i);
      }
      if i: nat :| LastAt(completed, k, a, i) { assert LastAt(completed, k - 1, a, i); }
    }
  }

  /** Of the completed attempts of a role, the last one is carried in, and it stands
      where the role first stood. */
  lemma {:induction false} PriorIs(completed: seq<Attempt>, k: nat)
    requires k <= |completed|
    ensures OneARole(PriorAttempts(completed, k)) && HoldsLast(PriorAttempts(completed, k), completed, k)
    ensures k > 0 ==> RolesLead(PriorAttempts(completed, k - 1), PriorAttempts(completed, k))
  {
    if k > 0 {
      PriorIs(completed, k - 1);
      PutIs(PriorAttempts(completed, k - 1), completed[k - 1]);
      LastMoves(PriorAttempts(completed, k - 1), PriorAttempts(completed, k), completed, k);
    }
  }

  // ---- the last word, and the policy ----

  predicate InName(a: Attempt, r: Role) { a.verdict.Some? && a.verdict.value.role == r }

  /** The attempt at `i` is the last that carries a verdict in the name of the role. */
  predicate SaidAt(attempts: seq<Attempt>, r: Role, v: Verdict, i: nat) {
    && i < |attempts| && attempts[i].verdict == Some(v) && v.role == r
    && forall j :: i < j < |attempts| ==> !InName(attempts[j], r)
  }

  ghost predicate LastSaid(attempts: seq<Attempt>, r: Role, v: Verdict) { exists i: nat :: SaidAt(attempts, r, v, i) }

  lemma {:induction false} LatestVerdictIs(attempts: seq<Attempt>, r: Role, v: Verdict)
    ensures LatestVerdict(attempts, r) == Some(v) <==> LastSaid(attempts, r, v)
    ensures LatestVerdict(attempts, r) == None <==> forall a | a in attempts :: !InName(a, r)
  {
    if attempts != [] {
      var front, last := attempts[..|attempts| - 1], attempts[|attempts| - 1];
      assert attempts == front + [last];
      LatestVerdictIs(front, r, v);
      if InName(last, r) {
        if last.verdict == Some(v) { assert SaidAt(attempts, r, v, |front|); }
      } else {
        if i: nat :| SaidAt(front, r, v, i) { assert SaidAt(attempts, r, v, i); }
        if i: nat :| SaidAt(attempts, r, v, i) { assert SaidAt(front, r, v, i); }
      }
    }
  }

  /** The attempt at `i` is the last of the role that carries a verdict. */
  predicate LastOfAt(attempts: seq<Attempt>, r: Role, a: Attempt, i: nat) {
    && i < |attempts| && attempts[i] == a && a.role == r && a.verdict.Some?
    && forall j :: i < j < |attempts| && attempts[j].role == r ==> attempts[j].verdict.None?
  }

  ghost predicate LastOf(attempts: seq<Attempt>, r: Role, a: Attempt) { exists i: nat :: LastOfAt(attempts, r, a, i) }

  lemma {:induction false} LatestAttemptIs(attempts: seq<Attempt>, r: Role, a: Attempt)
    ensures LatestAttempt(attempts, r) == Some(a) <==> LastOf(attempts, r, a)
  {
    if attempts != [] {
      var front, last := attempts[..|attempts| - 1], attempts[|attempts| - 1];
      assert attempts == front + [last];
      LatestAttemptIs(front, r, a);
      if last.role == r && last.verdict.Some? {
        if last == a { assert LastOfAt(attempts, r, a, |front|); }
      } else {
        if i: nat :| LastOfAt(front, r, a, i) { assert LastOfAt(attempts, r, a, i); }
        if i: nat :| LastOfAt(attempts, r, a, i) { assert LastOfAt(front, r, a, i); }
      }
    }
  }

  /** Some last word in the name of the role is like that. */
  ghost predicate Says(attempts: seq<Attempt>, r: Role, like: Verdict -> bool) {
    exists v :: LastSaid(attempts, r, v) && like(v)
  }

  lemma SaysIff(attempts: seq<Attempt>, r: Role, like: Verdict -> bool)
    ensures Says(attempts, r, like) <==>
      LatestVerdict(attempts, r).Some? && like(LatestVerdict(attempts, r).value)
  {
    hide LatestVerdict, LastSaid;
    var latest := LatestVerdict(attempts, r);
    if latest.Some? {
      LatestVerdictIs(attempts, r, latest.value);
      assert LastSaid(attempts, r, latest.value);
    }
    if v :| LastSaid(attempts, r, v) && like(v) { LatestVerdictIs(attempts, r, v); }
  }

  const Usable: Verdict -> bool := (v: Verdict) => v.parse != Invalid
  const Objects: Verdict -> bool := (v: Verdict) => v.decision == Block || v.severity == Blocking
  const Abstains: Verdict -> bool := (v: Verdict) => v.decision == Abstain
  const TakesSides: Verdict -> bool := (v: Verdict) => v.parse != Invalid && v.decision != Abstain

  predicate CriticalSpecialist(profile: Profile, r: Role) {
    r != MasterSynthesizer && exists config | config in profile.roles ::
        config.role == r && config.criticality == Critical
  }

  /** The policy, role by role: the critical specialists without a usable last word,
      those that object, the abstainers, and whether both theses take sides. */
  lemma PolicyIs(profile: Profile, attempts: seq<Attempt>)
    ensures var p := CalculatePolicy(profile, attempts);
      && (forall r :: r in p.missing <==> CriticalSpecialist(profile, r) && !Says(attempts, r, Usable))
      && (forall r :: r in p.vetoes <==> CriticalSpecialist(profile, r) && Says(attempts, r, Objects))
      && (forall r :: r in p.abstentions <==> r != MasterSynthesizer && Says(attempts, r, Abstains))
      && (p.quorum <==> Says(attempts, BullThesis, TakesSides) && Says(attempts, BearThesis, TakesSides))
      && (p.complete <==> p.missing == {})
      && p.reasons == (if p.missing == {} then [] else [CriticalRoleIncomplete])
                      + (if p.vetoes == {} then [] else [CriticalVeto]) + (if p.quorum then [] else [QuorumNotMet])
  {
    hide Says, LatestVerdict;
    SaysIff(attempts, BullThesis, TakesSides);
    SaysIff(attempts, BearThesis, TakesSides);
    var p := CalculatePolicy(profile, attempts);
    forall r: Role
      ensures r in p.missing <==> CriticalSpecialist(profile, r) && !Says(attempts, r, Usable)
      ensures r in p.vetoes <==> CriticalSpecialist(profile, r) && Says(attempts, r, Objects)
      ensures r in p.abstentions <==> r != MasterSynthesizer && Says(attempts, r, Abstains)
    {
      SaysIff(attempts, r, Usable);
      SaysIff(attempts, r, Objects);
      SaysIff(attempts, r, Abstains);
      CriticalIff(profile, r);
      assert r in SPECIALISTS <==> r != MasterSynthesizer;
    }
  }

  lemma CriticalIff(profile: Profile, r: Role)
    ensures IsCritical(profile, r) <==> CriticalSpecialist(profile, r)
  {
    if IsCritical(profile, r) {
      var i :| 0 <= i < |profile.roles| && profile.roles[i].role == r && profile.roles[i].criticality.Critical?;
      assert profile.roles[i] in profile.roles;
    }
  }

  /** Revisions that end on opposite sides, by the last word of each thesis. */
  lemma DisagreeIff(revisions: seq<Attempt>)
    ensures Disagree(revisions) <==>
      exists bull, bear :: LastSaid(revisions, BullThesis, bull) && LastSaid(revisions, BearThesis, bear)
        && bull.decision != Abstain && bear.decision != Abstain && bull.decision != bear.decision
  {
    hide LastSaid, LatestVerdict;
    var bull, bear := LatestVerdict(revisions, BullThesis), LatestVerdict(revisions, BearThesis);
    if bull.Some? { LatestVerdictIs(revisions, BullThesis, bull.value); }
    if bear.Some? { LatestVerdictIs(revisions, BearThesis, bear.value); }
    forall v, w | LastSaid(revisions, BullThesis, v) && LastSaid(revisions, BearThesis, w)
      ensures bull == Some(v) && bear == Some(w)
    {
      LatestVerdictIs(revisions, BullThesis, v);
      LatestVerdictIs(revisions, BearThesis, w);
    }
  }

  // ---- reconsidering ----

  /** The thesis last made at least one claim. */
  ghost predicate Claims(attempts: seq<Attempt>, r: Role) {
    exists a :: LastOf(attempts, r, a) && a.verdict.Some? && |a.verdict.value.claims| > 0
  }

  lemma BothClaimIff(attempts: seq<Attempt>)
    ensures BothClaim(attempts) <==> Claims(attempts, BullThesis) && Claims(attempts, BearThesis)
  {
    hide LatestAttempt, LastOf;
    forall r | r in {BullThesis, BearThesis}
      ensures Claims(attempts, r) <==>
        LatestAttempt(attempts, r).Some? && LatestAttempt(attempts, r).value.verdict.value.claims != []
    {
      var latest := LatestAttempt(attempts, r);
      if latest.Some? { LatestAttemptIs(attempts, r, latest.value); }
      if a :| LastOf(attempts, r, a) && a.verdict.Some? && |a.verdict.value.claims| > 0 {
        LatestAttemptIs(attempts, r, a);
      }
    }
  }

  /** What becomes of one thesis when so much has been spent: it is passed over
      without a client, given the fallback when it no longer fits, and else heard. */
  lemma ReviseIs(p: Panel, role: RoleConfig, c: Case, n: nat, tokens: int, cost: real)
    ensures var (added, m) := Revise(p, role, c, n, tokens, cost);
      && (added == [] <==> !role.enabled || role.role !in p.clients)
      && (added != [] && tokens + role.maxOutputTokens <= c.profile.budget.totalOutputTokens
          && cost + role.maxCost <= c.profile.budget.totalCost ==>
            added == [RevisionAttempt(role, p.replies(n), c)] && m == n + 1)
      && (added != [] && (tokens + role.maxOutputTokens > c.profile.budget.totalOutputTokens
          || cost + role.maxCost > c.profile.budget.totalCost) ==>
            |added| == 1 && added[0].status == NotStarted && StandsIn(added[0], role, c) && m == n)
      && (added == [] ==> m == n)
  {
    hide RevisionAttempt;
  }

  /** The theses are reconsidered exactly when the policy is clear and both made
      claims: the bull first, and the bear on top of what the bull has used. */
  lemma ReconsideredIs(p: Panel, attempts: seq<Attempt>, policy: Policy, c: Case, n: nat, tokens: int, cost: real,
                       bull: RoleConfig, bear: RoleConfig)
    requires ValidProfile(c.profile) && bull in c.profile.roles && bull.role == BullThesis
    requires bear in c.profile.roles && bear.role == BearThesis
    ensures var clear := policy.quorum && policy.complete && policy.vetoes == {} && policy.reasons == [];
            var (first, m) := Revise(p, bull, c, n, tokens, cost);
            var (second, k) := Revise(p, bear, c, m, tokens + TokensOf(first), cost + CostOf(first));
      Reconsidered(p, attempts, policy, c, n, tokens, cost) ==
        if clear && Claims(attempts, BullThesis) && Claims(attempts, BearThesis) then (first + second, k) else ([], n)
  {
    hide Revise, BothClaim, Claims, TokensOf, CostOf;
    BothClaimIff(attempts);
    OneOfTheRole(c.profile, bull);
    OneOfTheRole(c.profile, bear);
    var (first, m) := Revise(p, bull, c, n, tokens, cost);
    NothingSpent();
    assert [] + first == first;
    assert Revisions(p, Theses(c), c, n, tokens, cost, 1) == (first, m);
  }

  lemma OneOfTheRole(profile: Profile, role: RoleConfig)
    requires ValidProfile(profile) && role in profile.roles
    ensures HasRole(profile.roles, role.role) && RoleNamed(profile.roles, role.role) == role
  {}

  /** A run's attempts are those carried in, then one for each specialist that was
      still to be asked, then the revisions if they are allowed and called for. */
  lemma RunIs(p: Panel, c: Case, prior: seq<Attempt>, reconsider: bool, n: nat)
    requires ValidProfile(c.profile)
    ensures var run := RunOf(p, c, prior, reconsider, n);
            var (made, m) := SpecialistsOf(p, c, prior, n);
            var heard := prior + made;
      && run.resumed == |prior| && run.reviewed == |heard| <= |run.attempts| && run.attempts[..run.reviewed] == heard
      && run.attempts[run.reviewed..] ==
           (if reconsider && c.profile.budget.reconsiderationRounds >= 1
            then Reconsidered(p, heard, CalculatePolicy(c.profile, heard), c, m, TokensOf(made), CostOf(made)).0
            else [])
  {
    hide SpecialistsOf, Reconsidered, CalculatePolicy, PolicyOf, DecisionOf, MasterOf, MasterTokens;
    var d := DeliberationOf(p, c, prior, reconsider, n);
    var made := SpecialistsOf(p, c, prior, n).0;
    assert prior + d.made == (prior + made) + d.made[|made|..];
  }

  // ---- the master's word ----

  /** What the schema and the checks ask of a decision, clause by clause. */
  predicate Sound(d: Decision, candidate: Candidate, runId: string, ids: set<string>) {
    && d.runId == runId
    && (forall id :: id in d.supporting ==> id in ids && id !in d.dissenting)
    && (forall id :: id in d.dissenting ==> id in ids)
    && (match d.outcome
        case Take =>
          && d.policyAllows && d.action == Some(candidate.action) && candidate.action != ""
          && (match d.maxPrice
              case None => true
              case Some(ceiling) =>
                ceiling >= 0.0 && (candidate.price == None || ceiling <= candidate.price.value))
          && (match d.maxSize
              case None => true
              case Some(ceiling) =>
                ceiling > 0.0 && (candidate.size == None || ceiling <= candidate.size.value))
        case _ => d.maxPrice == None && d.maxSize == None)
  }

  lemma SoundIff(d: Decision, candidate: Candidate, runId: string, ids: set<string>)
    ensures Sound(d, candidate, runId, ids) <==> WellFormed(d) && MasterErrorFree(d, candidate, runId, ids)
  {
    if id :| id in d.supporting && id in d.dissenting { assert id in d.supporting * d.dissenting; }
  }

  /** A hold that proposes nothing and cites nobody. */
  predicate PlainHold(d: Decision, runId: string) {
    && d.outcome == HoldBack && d.runId == runId && d.action == None && d.maxPrice == None && d.maxSize == None
    && d.supporting == {} && d.dissenting == {} && !d.policyAllows
  }

  /** The master's completed text holds this decision, and it is sound. */
  predicate Settled(run: CouncilRun, c: Case, d: Decision) {
    && run.master.Some? && run.master.value.status == Completed
    && run.master.value.raw.Some? && run.master.value.raw.value.content == DecisionText(d)
    && Sound(d, c.candidate, c.runId, VerdictIds(run.attempts))
  }

  /** The run's decision is the master's whenever the master was reached and said a
      sound one, and a plain hold whenever not. In particular it takes exactly when
      the master soundly said "take". */
  lemma DecisionIs(run: CouncilRun, c: Case)
    requires forall d :: Stands(run, c, d) ==> run.decision == d
    requires Stands(run, c, run.decision) || run.decision == HoldDecision(c.runId)
    ensures forall d :: Settled(run, c, d) ==> run.decision == d
    ensures (forall d :: !Settled(run, c, d)) ==> PlainHold(run.decision, c.runId)
    ensures run.decision.outcome == Take <==> exists d :: Settled(run, c, d) && d.outcome == Take
  {
    hide Sound, WellFormed, MasterErrorFree, VerdictIds;
    forall d ensures Stands(run, c, d) <==> Settled(run, c, d) {
      SoundIff(d, c.candidate, c.runId, VerdictIds(run.attempts));
    }
  }

  /** The master is asked when enabled, present and affordable, and not otherwise. */
  lemma MasterIs(p: Panel, role: RoleConfig, c: Case, n: nat, tokens: int, cost: real)
    ensures var a := MasterOf(p, role, c, n, tokens, cost);
            var asked := role.enabled && role.role in p.clients
              && tokens + role.maxOutputTokens <= c.profile.budget.totalOutputTokens
              && cost + role.maxCost <= c.profile.budget.totalCost;
      && a.role == role.role && a.attempt == 1
      && (asked ==> CallResult(a.status, a.raw) == p.replies(n) && a.verdict == None)
      && (!asked ==> a.status != Completed && a.raw == None)
  {}

  // ---- refusals ----

  predicate HasSpecialist(profile: Profile, clients: set<Role>) {
    exists role | role in profile.roles :: role.role != MasterSynthesizer && role.enabled && role.role in clients
  }

  predicate Own(completed: seq<Attempt>, c: Case) {
    forall a | a in completed ::
      a.verdict.Some? && a.verdict.value.runId == c.runId && a.verdict.value.bundleHash == c.evidence.bundleHash
  }

  /** A case is refused for the first of these that fails. */
  lemma RefusalIs(c: Case, profile: Option<Profile>, clients: set<Role>, completed: seq<Attempt>)
    ensures var ids := c.candidate.id == c.evidence.candidateId;
            var domains := c.candidate.domain == c.evidence.domain;
            var compatible :=
              profile.Some? && profile.value.domain == c.candidate.domain && !profile.value.disabled;
            var staffed := profile.Some? && HasSpecialist(profile.value, clients);
            var refusal := Refusal(c, profile, clients, completed);
      && (refusal == Some(MismatchedIds) <==> !ids)
      && (refusal == Some(MismatchedDomains) <==> ids && !domains)
      && (refusal == Some(NoCompatibleProfile) <==> ids && domains && !compatible)
      && (refusal == Some(NoSpecialistClient) <==> ids && domains && compatible && !staffed)
      && (refusal == Some(ForeignAttempts) <==> ids && domains && compatible && staffed && !Own(completed, c))
      && (refusal == None <==> ids && domains && compatible && staffed && Own(completed, c))
  {
    if profile.Some? {
      if i :| 0 <= i < |profile.value.roles| && !profile.value.roles[i].role.MasterSynthesizer?
              && profile.value.roles[i].enabled && profile.value.roles[i].role in clients
      {
        assert profile.value.roles[i] in profile.value.roles;
      }
    }
    if i :| 0 <= i < |completed| && !BelongsTo(completed[i], c.runId, c.evidence) {
      assert completed[i] in completed;
    }
  }
}
