/**
 * The household needs analysis (DIME method): the insurance gap if spouse 1
 * dies and, in joint mode, if spouse 2 dies, each scenario weighed against
 * the full shared liabilities and savings.
 */
module ThoroughCalculator {
  import opened Wrappers
  import opened Household

  /** `mode`: 'joint', or anything else (single). */
  datatype Mode = Single | Joint

  /** The fields of a spouse the analysis reads; contact details are left out. */
  datatype Spouse = Spouse(name: string, income: real, years: real)

  datatype Liabilities = Liabilities(mortgage: real, debts: real, finalExpenses: real)

  datatype Assets = Assets(cash: real, investments: real, policies: seq<Policy>)

  /** Everything the wizard has collected when the analysis runs. */
  datatype Profile = Profile(
    mode: Mode,
    spouse1: Spouse,
    spouse2: Spouse,
    liabilities: Liabilities,
    children: seq<Child>,
    assets: Assets)

  /** One death scenario. */
  datatype Scenario = Scenario(needs: real, assets: real, gap: real)

  datatype Report = Report(
    spouse1: Scenario,
    spouse2: Scenario,
    totalLiabilities: real,
    totalEducationCost: real)

  function TotalLiabilities(h: Profile): real
  {
    h.liabilities.mortgage + h.liabilities.debts + h.liabilities.finalExpenses
    + EducationTotal(h.children)
  }

  /** `Math.max(0, needs - assets)`. */
  function Gap(needs: real, assets: real): (g: real)
    ensures g >= 0.0 && g >= needs - assets
    ensures g == 0.0 <==> assets >= needs
    ensures g > 0.0 ==> g == needs - assets
  {
    if needs - assets >= 0.0 then needs - assets else 0.0
  }

  /** The scenario in which `spouse` dies and the policies `owner` holds pay out. */
  function DeathScenario(h: Profile, spouse: Spouse, owner: Owner): Scenario
  {
    var needs := spouse.income * spouse.years + TotalLiabilities(h);
    var assets := h.assets.cash + h.assets.investments + Insurance(h.assets.policies, owner);
    Scenario(needs, assets, Gap(needs, assets))
  }

  /** The report `calculate` produces, the specification of `NeedsCalculator.Calculate`. */
  function Analyse(h: Profile): Report
  {
    Report(DeathScenario(h, h.spouse1, Spouse1),
           if h.mode == Joint then DeathScenario(h, h.spouse2, Spouse2) else Scenario(0.0, 0.0, 0.0),
           TotalLiabilities(h),
           EducationTotal(h.children))
  }

  /**
   * Each scenario's needs are the income to replace plus the shared
   * liabilities; its assets are the shared savings plus the policies of the
   * spouse who died; its gap is the shortfall, never negative.
   */
  lemma AnalyseScenarios(h: Profile)
    ensures var r := Analyse(h);
      && r.totalEducationCost == EducationTotal(h.children)
      && r.totalLiabilities == h.liabilities.mortgage + h.liabilities.debts + h.liabilities.finalExpenses
                               + r.totalEducationCost
      && r.spouse1.needs == h.spouse1.income * h.spouse1.years + r.totalLiabilities
      && r.spouse1.assets == h.assets.cash + h.assets.investments + Insurance(h.assets.policies, Spouse1)
      && r.spouse1.gap >= 0.0
      && (r.spouse1.gap == 0.0 <==> r.spouse1.assets >= r.spouse1.needs)
      && (r.spouse1.gap > 0.0 ==> r.spouse1.gap == r.spouse1.needs - r.spouse1.assets)
      && (h.mode == Joint ==>
            && r.spouse2.needs == h.spouse2.income * h.spouse2.years + r.totalLiabilities
            && r.spouse2.assets == h.assets.cash + h.assets.investments + Insurance(h.assets.policies, Spouse2)
            && r.spouse2.gap == Gap(r.spouse2.needs, r.spouse2.assets))
      && r.spouse2.gap >= 0.0
  {
    var r := Analyse(h);
    var liabilities := TotalLiabilities(h);
    assert r.spouse1 == DeathScenario(h, h.spouse1, Spouse1);
    if h.mode == Joint {
      assert r.spouse2 == DeathScenario(h, h.spouse2, Spouse2);
      assert r.spouse2.needs == h.spouse2.income * h.spouse2.years + liabilities;
    }
  }

  /** In single mode spouse 2's figures are all 0, whatever spouse 2's data. */
  lemma SingleModeIgnoresSpouse2(h: Profile, other: Spouse)
    requires h.mode == Single
    ensures Analyse(h).spouse2 == Scenario(0.0, 0.0, 0.0)
    ensures Analyse(h) == Analyse(h.(spouse2 := other))
  {
  }

  /**
   * Adding a policy that spouse 1 does not own, anywhere in the list, leaves
   * spouse 1's scenario unchanged; and the same for spouse 2.
   */
  lemma OtherOwnersPolicyIsIgnored(h: Profile, p: Policy, i: nat)
    requires i <= |h.assets.policies|
    ensures var policies := h.assets.policies;
      var h' := h.(assets := h.assets.(policies := policies[..i] + [p] + policies[i..]));
      && (p.owner != Spouse1 ==> Analyse(h').spouse1 == Analyse(h).spouse1)
      && (p.owner != Spouse2 ==> Analyse(h').spouse2 == Analyse(h).spouse2)
  {
    var policies := h.assets.policies;
    if p.owner != Spouse1 {
      InsuranceIgnoresOtherOwners(policies, p, i, Spouse1);
    }
    if p.owner != Spouse2 {
      InsuranceIgnoresOtherOwners(policies, p, i, Spouse2);
    }
  }

  /** Reordering the children or the policies does not change the report. */
  lemma AnalyseIgnoresOrder(h: Profile, children: seq<Child>, policies: seq<Policy>)
    requires multiset(children) == multiset(h.children)
    requires multiset(policies) == multiset(h.assets.policies)
    ensures Analyse(h.(children := children, assets := h.assets.(policies := policies))) == Analyse(h)
  {
    SumOfPermutation(children, h.children, ChildCost);
    InsurancePermutation(policies, h.assets.policies, Spouse1);
    InsurancePermutation(policies, h.assets.policies, Spouse2);
  }

  /** The wizard component: `results` is null until the first `Calculate`. */
  class NeedsCalculator {
    var results: Option<Report>

    constructor()
      ensures results == None
    {
      results := None;
    }

    method Calculate(h: Profile)
      modifies this
      ensures results == Some(Analyse(h))
    {
      var totalEducationCost := EducationTotal(h.children);
      var totalLiabilities := h.liabilities.mortgage + h.liabilities.debts + h.liabilities.finalExpenses
                              + totalEducationCost;

      // Scenario 1: spouse 1 dies
      var needs1 := (h.spouse1.income * h.spouse1.years) + totalLiabilities;
      var totalSavings := h.assets.cash + h.assets.investments;
      var insurance1 := Insurance(h.assets.policies, Spouse1);
      var assets1 := totalSavings + insurance1;
      var gap1 := Gap(needs1, assets1);

      // Scenario 2: spouse 2 dies (joint mode only)
      var gap2 := 0.0;
      var needs2 := 0.0;
      var assets2 := 0.0;
      if h.mode == Joint {
        needs2 := (h.spouse2.income * h.spouse2.years) + totalLiabilities;
        var insurance2 := Insurance(h.assets.policies, Spouse2);
        assets2 := totalSavings + insurance2;
        gap2 := Gap(needs2, assets2);
      }

      assert Scenario(needs1, assets1, gap1) == DeathScenario(h, h.spouse1, Spouse1);
      assert Scenario(needs2, assets2, gap2) == Analyse(h).spouse2;
      assert totalLiabilities == TotalLiabilities(h);
      results := Some(Report(Scenario(needs1, assets1, gap1), Scenario(needs2, assets2, gap2),
                                      totalLiabilities, totalEducationCost));
    }
  }
}
