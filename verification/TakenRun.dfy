/** A council run that ends in a take, and the review that executes it. */
module TakenRun {
  import opened Wrappers
  import opened Council
  import opened Coordinator
  import opened CouncilAnswers
  import opened Admission

  function Member(role: Role, enabled: bool): RoleConfig { RoleConfig(role, Advisory, enabled, 10, 1.0, false, false) }

  const BULL := Member(BullThesis, true)
  const BEAR := Member(BearThesis, true)
  const MASTER := Member(MasterSynthesizer, true)
  const OTHERS: seq<RoleConfig> := [
    MASTER, Member(Researcher, false), Member(Skeptic, false), Member(ExecutionLiquidity, false),
    Member(RulesSettlement, false), Member(PortfolioRisk, false)]

  const PROFILE := Profile("weather", false, [BULL, BEAR] + OTHERS, Budget(100, 10.0, 0, 0))

  /** The profile may buy ten at half a dollar. */
  const CASE := Case(PROFILE, Candidate("c", "weather", "buy", Some(0.5), Some(10.0)),
                     Evidence("c", "weather", "h", {}), "r")

  const FOR := Verdict("b1", "r", BullThesis, "h", 1, Support, Info, [], [], false, None, None, 5, 0.5, Parsed)
  const AGAINST := Verdict("b2", "r", BearThesis, "h", 1, Oppose, Info, [], [], false, None, None, 5, 0.5, Parsed)

  /** The master takes what was proposed, at the proposed price and half the size. */
  const TAKE := Decision("r", Take, Some("buy"), Some(0.5), Some(5.0), {"b1"}, {"b2"}, true)

  function Replies(n: nat): CallResult {
    var content := if n == 0 then VerdictText(FOR) else if n == 1 then VerdictText(AGAINST) else DecisionText(TAKE);
    CallResult(Completed, Some(RawOutput(40, content)))
  }

  const PANEL := Panel({BullThesis, BearThesis, MasterSynthesizer}, Replies)

  const SAID_FOR := Attempt(BullThesis, 1, Completed, Some(FOR), Replies(0).raw)
  const SAID_AGAINST := Attempt(BearThesis, 1, Completed, Some(AGAINST), Replies(1).raw)

  lemma ProfileIsValid()
    ensures ValidProfile(PROFILE)
  {
    var roles := PROFILE.roles;
    assert forall r: Role :: HasRole(roles, r) by {
      assert roles[0].role.BullThesis? && roles[1].role.BearThesis? && roles[2].role.MasterSynthesizer?
             && roles[3].role.Researcher? && roles[4].role.Skeptic? && roles[5].role.ExecutionLiquidity?
             && roles[6].role.RulesSettlement? && roles[7].role.PortfolioRisk?;
    }
  }

  lemma ThesesAreAsked()
    ensures FirstRoles(PROFILE.roles, []) == [BULL, BEAR]
  {
    hide FirstRoles;
    FirstRolesKeepOrder([BULL, BEAR], OTHERS, []);
    FirstRolesKeepOrder([BULL], [BEAR], []);
    assert [BULL] + [BEAR] == [BULL, BEAR];
    OnlyOne(BULL);
    OnlyOne(BEAR);
    NoneAsked(OTHERS);
    assert [BULL, BEAR] + [] == [BULL, BEAR];
  }

  lemma {:induction false} NoneAsked(roles: seq<RoleConfig>)
    requires forall i :: 0 <= i < |roles| ==> roles[i].role.MasterSynthesizer? || !roles[i].enabled
    ensures FirstRoles(roles, []) == []
  {
    if roles != [] { NoneAsked(roles[..|roles| - 1]); }
  }

  lemma OnlyOne(role: RoleConfig)
    requires !role.role.MasterSynthesizer? && role.enabled
    ensures FirstRoles([role], []) == [role]
  {
    assert FirstRoles([], []) == [];
  }

  lemma BothAreReserved()
    ensures Reservation([BULL, BEAR], PROFILE.budget, 2) == ([BULL, BEAR], [])
  {
    CapsOfOne(BULL);
    CapsAdd([BULL], [BEAR]);
    CapsOfOne(BEAR);
    assert [] + [BULL] == [BULL] && [BULL] + [BEAR] == [BULL, BEAR];
    ReservesNext([BULL, BEAR], PROFILE.budget, 0);
    ReservesNext([BULL, BEAR], PROFILE.budget, 1);
  }

  lemma BothAreUsed()
    ensures FirstAttempt(BULL, Replies(0), None, CASE) == SAID_FOR && !AsksRepair(BULL, Replies(0), CASE)
    ensures FirstAttempt(BEAR, Replies(1), None, CASE) == SAID_AGAINST && !AsksRepair(BEAR, Replies(1), CASE)
  {
    RunPrefixIs("r", "r");
    assert Holds(Replies(0), FOR, BULL, CASE) && Holds(Replies(1), AGAINST, BEAR, CASE);
    AsksRepairIff(BULL, Replies(0), CASE);
    AsksRepairIff(BEAR, Replies(1), CASE);
    FirstAttemptIs(BULL, Replies(0), None, CASE, FOR);
    FirstAttemptIs(BEAR, Replies(1), None, CASE, AGAINST);
  }

  lemma PanelReplies(n: nat)
    ensures PANEL.replies(n) == Replies(n)
  {}

  lemma RoundEndsSo()
    ensures RoundOf(PANEL, [BULL, BEAR], CASE, 0) == ([SAID_AGAINST, SAID_FOR], 2)
  {
    hide FirstAttempt, AsksRepair, Replies;
    PanelReplies(0);
    PanelReplies(1);
    BothAreUsed();
    var pro, con := (BULL, Replies(0)), (BEAR, Replies(1));
    var roles := [BULL, BEAR];
    assert [] + [pro] == [pro] && [pro] + [con] == [pro, con];
    assert [] + [SAID_AGAINST] == [SAID_AGAINST] && [SAID_AGAINST] + [SAID_FOR] == [SAID_AGAINST, SAID_FOR];
    assert AskAll(PANEL, roles, 0, 1) == ([pro], 1) by { assert AskAll(PANEL, roles, 0, 0) == ([], 0); }
    assert AskAll(PANEL, roles, 0, 2) == ([pro, con], 2);
    assert ByName([pro, con]) == [con, pro] by {
      assert [pro, con][..1] == [pro] && [pro][..0] == [];
      assert ByName([]) == [] && ByName([pro]) == [pro];
    }
    assert JudgeAll(PANEL, [con, pro], CASE, 2, 1) == ([SAID_AGAINST], 2) by {
      assert JudgeAll(PANEL, [con, pro], CASE, 2, 0) == ([], 2);
    }
  }

  lemma SpecialistsEndSo()
    ensures SpecialistsOf(PANEL, CASE, [], 0) == ([SAID_AGAINST, SAID_FOR], 2)
  {
    hide RoundOf, FirstRoles, Reservation;
    ThesesAreAsked();
    BothAreReserved();
    RoundEndsSo();
    assert Unasked([], CASE) == [];
    assert [] + [SAID_AGAINST, SAID_FOR] == [SAID_AGAINST, SAID_FOR];
  }

  lemma PolicyIsClear()
    ensures CanSynthesize(CalculatePolicy(PROFILE, [SAID_AGAINST, SAID_FOR]))
  {
    var attempts := [SAID_AGAINST, SAID_FOR];
    assert SaidAt(attempts, BullThesis, FOR, 1) && SaidAt(attempts, BearThesis, AGAINST, 0);
    LatestVerdictIs(attempts, BullThesis, FOR);
    LatestVerdictIs(attempts, BearThesis, AGAINST);
    SynthesisNeedsClearance(PROFILE, attempts);
  }

  /** The council takes it, at the master's ceilings. */
  lemma CouncilTakes()
    ensures ValidProfile(PROFILE) && RunOf(PANEL, CASE, [], false, 0).decision == TAKE
  {
    hide SpecialistsOf, CalculatePolicy, CanSynthesize, MasterErrorFree, WellFormed, VerdictIds;
    ProfileIsValid();
    SpecialistsEndSo();
    var attempts := [SAID_AGAINST, SAID_FOR];
    assert [] + (attempts + []) == attempts;
    assert DeliberationOf(PANEL, CASE, [], false, 0) == Deliberation(attempts, 2, 2);
    NothingDisagrees();
    PolicyIsClear();
    assert attempts[2..] == [];
    assert PolicyOf(PROFILE, attempts, 2) == CalculatePolicy(PROFILE, attempts);
    SpentSoFar();
    OneOfTheRole(PROFILE, MASTER);
    var master := MasterOf(PANEL, MASTER, CASE, 2, TokensOf(attempts), CostOf(attempts));
    assert master == Attempt(MasterSynthesizer, 1, Completed, None, Replies(2).raw);
    MasterMaySay();
    assert VerdictIds(attempts) + MasterIds(master) == VerdictIds(attempts);
  }

  lemma SpentSoFar()
    ensures TokensOf([SAID_AGAINST, SAID_FOR]) == 10 && CostOf([SAID_AGAINST, SAID_FOR]) == 1.0
  {
    assert [SAID_AGAINST, SAID_FOR] == [SAID_AGAINST] + [SAID_FOR];
    SpendingAdds([SAID_AGAINST], [SAID_FOR]);
    NothingSpent();
    assert [SAID_AGAINST][..0] == [] && [SAID_FOR][..0] == [];
  }

  lemma MasterMaySay()
    ensures WellFormed(TAKE) && MasterErrorFree(TAKE, CASE.candidate, "r", VerdictIds([SAID_AGAINST, SAID_FOR]))
  {
    var attempts := [SAID_AGAINST, SAID_FOR];
    assert SAID_AGAINST in attempts && SAID_FOR in attempts;
    assert "b1" in VerdictIds(attempts) && "b2" in VerdictIds(attempts);
    SoundIff(TAKE, CASE.candidate, "r", VerdictIds(attempts));
  }

  /** And outside shadow mode, with no check failing, the adapter is called with it:
      the proposed price and the master's size. */
  method ReviewExecutes(mode: Mode) returns (adapter: Adapter)
    requires !mode.Shadow?
    ensures adapter.received == [CASE.candidate.(size := Some(5.0))]
  {
    hide RunOf, Earned, AllMade, Refusal, Accounted, Stands;
    CouncilTakes();
    NothingRefused();
    var coordinator := new CouncilCoordinator(PANEL.clients, PANEL.replies);
    var boundary := new CouncilPaperBoundary(mode, [], []);
    adapter := new Adapter();
    var r := boundary.Review(CASE, Some(PROFILE), false, [], coordinator, adapter);
    assert r.value.council.value.decision == TAKE;
  }

  lemma NothingRefused()
    ensures Refusal(CASE, Some(PROFILE), PANEL.clients, []).None?
  {
    assert BULL in PROFILE.roles by { assert PROFILE.roles[0] == BULL; }
    RefusalIs(CASE, Some(PROFILE), PANEL.clients, []);
  }
}
