/** One person's figures for assessment (`getPersonNet`): the six itemised
    deductions each cut to its cap, the charitable donation cut to 35% of the
    income left after them, and the person-specific allowances. The basic
    allowance of 132,000 is NOT part of this total: it depends on the filing
    election, so the optimiser adds it. */
module PersonNet {
  import opened Common
  import opened Household

  const MpfCap: real := 18000.0
  const VhisCap: real := 8000.0
  const TvcCap: real := 60000.0
  const SelfEducationCap: real := 100000.0
  const ElderlyCareCap: real := 100000.0
  const RentCapAlone: real := 100000.0
  const RentCapWithChild: real := 120000.0
  const DonationShare: real := 0.35

  /** Per-unit allowance values. */
  const ChildAllowance: real := 130000.0
  const NewbornAllowance: real := 260000.0
  const Parent60Allowance: real := 50000.0
  const Parent60LiveInAllowance: real := 100000.0
  const Parent55Allowance: real := 25000.0
  const Parent55LiveInAllowance: real := 50000.0
  const SiblingAllowance: real := 37500.0
  const DisabledDependentAllowance: real := 75000.0
  const PersonalDisabilityAllowance: real := 75000.0
  const SingleParentAllowance: real := 132000.0

  /** Income, total deductions and person-specific allowances of one person. */
  datatype NetFigures = NetFigures(income: real, deductions: real, allowances: real)

  /** The rent / home-loan-interest cap is a household matter: 120,000 exactly when
      the household lives with a child, 100,000 otherwise. */
  function RentCap(livingWithChild: bool): (cap: real)
    ensures cap == RentCapWithChild <==> livingWithChild
    ensures cap == RentCapAlone <==> !livingWithChild
  {
    if livingWithChild then RentCapWithChild else RentCapAlone
  }

  /** The six capped deductions of a person. */
  datatype CappedDeductions = CappedDeductions(
    mpf: real, vhis: real, tvc: real, rent: real, selfEducation: real, elderlyCare: real)
  {
    function Total(): real
    {
      mpf + vhis + tvc + rent + selfEducation + elderlyCare
    }
  }

  /** Each itemised deduction cut to its cap: never above the cap, never above
      the amount claimed, and the amount claimed itself when it is within the cap. */
  function CapDeductions(p: Person, rentCap: real): (c: CappedDeductions)
    ensures c.mpf <= MpfCap && c.mpf <= p.mpf && (p.mpf <= MpfCap ==> c.mpf == p.mpf)
         && (c.mpf == p.mpf || c.mpf == MpfCap)
    ensures c.vhis <= VhisCap && c.vhis <= p.vhis && (p.vhis <= VhisCap ==> c.vhis == p.vhis)
         && (c.vhis == p.vhis || c.vhis == VhisCap)
    ensures c.tvc <= TvcCap && c.tvc <= p.tvc && (p.tvc <= TvcCap ==> c.tvc == p.tvc)
         && (c.tvc == p.tvc || c.tvc == TvcCap)
    ensures c.rent <= rentCap && c.rent <= p.rent && (p.rent <= rentCap ==> c.rent == p.rent)
         && (c.rent == p.rent || c.rent == rentCap)
    ensures c.selfEducation <= SelfEducationCap && c.selfEducation <= p.selfEducation
         && (p.selfEducation <= SelfEducationCap ==> c.selfEducation == p.selfEducation)
         && (c.selfEducation == p.selfEducation || c.selfEducation == SelfEducationCap)
    ensures c.elderlyCare <= ElderlyCareCap && c.elderlyCare <= p.elderlyCare
         && (p.elderlyCare <= ElderlyCareCap ==> c.elderlyCare == p.elderlyCare)
         && (c.elderlyCare == p.elderlyCare || c.elderlyCare == ElderlyCareCap)
  {
    CappedDeductions(
      Min(p.mpf, MpfCap), Min(p.vhis, VhisCap), Min(p.tvc, TvcCap),
      Min(p.rent, rentCap), Min(p.selfEducation, SelfEducationCap),
      Min(p.elderlyCare, ElderlyCareCap))
  }

  /** Sum of the six capped deductions (the donation excluded). */
  function OtherDeductions(p: Person, rentCap: real): (d: real)
    ensures d <= MpfCap + VhisCap + TvcCap + rentCap + SelfEducationCap + ElderlyCareCap
    ensures NonNegative(p) && rentCap >= 0.0 ==> d >= 0.0
  {
    assert NonNegative(p) ==>
      (Get(p, Mpf) >= 0.0 && Get(p, Vhis) >= 0.0 && Get(p, Tvc) >= 0.0
       && Get(p, Rent) >= 0.0 && Get(p, SelfEducation) >= 0.0 && Get(p, ElderlyCare) >= 0.0);
    CapDeductions(p, rentCap).Total()
  }

  /** The allowed donation: at most the donation made and at most 35% of the
      assessable income, and one of the two. */
  function DonationDeduction(donation: real, assessableIncome: real): (d: real)
    ensures d <= donation && d <= DonationShare * assessableIncome
    ensures d == donation || d == DonationShare * assessableIncome
  {
    Min(donation, assessableIncome * DonationShare)
  }

  /** The person-specific allowances: count times unit value for each kind of
      dependant, plus the flat personal-disability and single-parent amounts. */
  function Allowances(p: Person): (a: real)
    ensures NonNegative(p) ==> a >= 0.0
  {
    assert NonNegative(p) ==>
      (Get(p, Children) >= 0.0 && Get(p, Newborns) >= 0.0
       && Get(p, Parents60) >= 0.0 && Get(p, Parents60LiveIn) >= 0.0
       && Get(p, Parents55) >= 0.0 && Get(p, Parents55LiveIn) >= 0.0
       && Get(p, DependentSiblings) >= 0.0 && Get(p, DisabledDependents) >= 0.0);
    p.children * ChildAllowance
    + p.newborns * NewbornAllowance
    + p.parents60 * Parent60Allowance
    + p.parents60LiveIn * Parent60LiveInAllowance
    + p.parents55 * Parent55Allowance
    + p.parents55LiveIn * Parent55LiveInAllowance
    + p.dependentSiblings * SiblingAllowance
    + p.disabledDependents * DisabledDependentAllowance
    + (if p.disabledPersonal then PersonalDisabilityAllowance else 0.0)
    + (if p.singleParent then SingleParentAllowance else 0.0)
  }

  /** `getPersonNet`. The income passes through; the deductions are the capped
      items plus a donation that never exceeds the donation made nor 35% of the
      income left after the capped items; the allowances are the person's own. */
  function GetPersonNet(p: Person, livingWithChild: bool): (n: NetFigures)
    ensures n.income == p.income
    ensures n.allowances == Allowances(p)
    ensures var other := OtherDeductions(p, RentCap(livingWithChild));
      && n.deductions - other <= p.donation
      && n.deductions - other <= DonationShare * Max(0.0, p.income - other)
      && (n.deductions - other == p.donation
          || n.deductions - other == DonationShare * Max(0.0, p.income - other))
    ensures NonNegative(p) ==>
      0.0 <= n.deductions
      <= MpfCap + VhisCap + TvcCap + RentCap(livingWithChild) + SelfEducationCap + ElderlyCareCap
         + DonationShare * p.income
  {
    var other := OtherDeductions(p, RentCap(livingWithChild));
    var assessableIncome := Max(0.0, p.income - other);
    var deductions := other + DonationDeduction(p.donation, assessableIncome);
    assert NonNegative(p) ==> Get(p, Income) >= 0.0 && Get(p, Donation) >= 0.0;
    NetFigures(p.income, deductions, Allowances(p))
  }

  /** The allowance value one more unit of a count field adds. */
  function UnitAllowance(f: NumField): real
  {
    match f
    case Children => ChildAllowance
    case Newborns => NewbornAllowance
    case Parents60 => Parent60Allowance
    case Parents60LiveIn => Parent60LiveInAllowance
    case Parents55 => Parent55Allowance
    case Parents55LiveIn => Parent55LiveInAllowance
    case DependentSiblings => SiblingAllowance
    case DisabledDependents => DisabledDependentAllowance
    case _ => 0.0
  }

  /** Allowances are additive per head: one more dependant of a kind adds that
      kind's unit value, and changing a deduction or the income adds nothing. */
  lemma AllowancePerHead(p: Person, f: NumField)
    ensures Allowances(Set(p, f, Get(p, f) + 1.0)) == Allowances(p) + UnitAllowance(f)
  {
  }

  /** The two flat allowances: setting the personal-disability flag adds
      75,000 and setting the single-parent flag adds 132,000, whatever else the
      person has. */
  lemma FlatAllowances(p: Person, g: FlagField)
    ensures Allowances(SetFlag(p, g, true))
         == Allowances(SetFlag(p, g, false))
            + (if g == DisabledPersonal then PersonalDisabilityAllowance else SingleParentAllowance)
  {
  }

  /** A newborn counts 260,000: the child allowance of 130,000 plus as much again. */
  lemma NewbornIsTwiceAChild()
    ensures UnitAllowance(Newborns) == 2.0 * UnitAllowance(Children)
    ensures Allowances(Set(DefaultPerson(""), Newborns, 1.0))
         == 2.0 * Allowances(Set(DefaultPerson(""), Children, 1.0))
  {
    var zero := DefaultPerson("");
    assert Set(zero, Newborns, 1.0) == zero.(newborns := 1.0);
    assert Set(zero, Children, 1.0) == zero.(children := 1.0);
    assert Allowances(zero.(newborns := 1.0)) == NewbornAllowance;
    assert Allowances(zero.(children := 1.0)) == ChildAllowance;
  }

  /** A person with nothing entered has no deductions and no allowance: the basic
      allowance is not counted here. */
  lemma DefaultPersonHasNothing(name: string, livingWithChild: bool)
    ensures GetPersonNet(DefaultPerson(name), livingWithChild) == NetFigures(0.0, 0.0, 0.0)
  {
    var p := DefaultPerson(name);
    assert p == Person(name, 0.0, 0.0, 0.0, 0.0, 0.0, 0.0, 0.0, 0.0, 0.0, 0.0,
                       0.0, 0.0, 0.0, 0.0, 0.0, 0.0, false, false);
    NothingClaimedNothingAllowed(p, livingWithChild);
  }

  /** All figures zero and no flag set: no income, no deduction, no allowance. */
  lemma NothingClaimedNothingAllowed(p: Person, livingWithChild: bool)
    requires p.income == 0.0 && p.mpf == 0.0 && p.vhis == 0.0 && p.tvc == 0.0 && p.rent == 0.0
    requires p.selfEducation == 0.0 && p.donation == 0.0 && p.elderlyCare == 0.0
    requires p.children == 0.0 && p.newborns == 0.0 && p.parents60 == 0.0 && p.parents60LiveIn == 0.0
    requires p.parents55 == 0.0 && p.parents55LiveIn == 0.0 && p.dependentSiblings == 0.0
    requires p.disabledDependents == 0.0 && !p.disabledPersonal && !p.singleParent
    ensures GetPersonNet(p, livingWithChild) == NetFigures(0.0, 0.0, 0.0)
  {
    NoClaimNoDeduction(p, livingWithChild);
    NoDependantNoAllowance(p);
  }

  /** Nothing earned and nothing claimed: no deduction. */
  lemma NoClaimNoDeduction(p: Person, livingWithChild: bool)
    requires p.income == 0.0 && p.mpf == 0.0 && p.vhis == 0.0 && p.tvc == 0.0 && p.rent == 0.0
    requires p.selfEducation == 0.0 && p.donation == 0.0 && p.elderlyCare == 0.0
    ensures GetPersonNet(p, livingWithChild).deductions == 0.0
  {
  }

  /** Nobody to support and no flag set: no allowance. */
  lemma NoDependantNoAllowance(p: Person)
    requires p.children == 0.0 && p.newborns == 0.0 && p.parents60 == 0.0 && p.parents60LiveIn == 0.0
    requires p.parents55 == 0.0 && p.parents55LiveIn == 0.0 && p.dependentSiblings == 0.0
    requires p.disabledDependents == 0.0 && !p.disabledPersonal && !p.singleParent
    ensures Allowances(p) == 0.0
  {
  }

  /** The donation allowed is at most 35% of the income after the capped
      deductions, however large the donation. */
  lemma DonationBounded(p: Person, livingWithChild: bool, bigger: real)
    requires bigger >= p.donation
    ensures var other := OtherDeductions(p, RentCap(livingWithChild));
      GetPersonNet(p, livingWithChild).deductions
        <= GetPersonNet(p.(donation := bigger), livingWithChild).deductions
        <= other + DonationShare * Max(0.0, p.income - other)
  {
  }
}
