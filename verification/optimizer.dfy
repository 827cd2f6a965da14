/** The filing-election search (`optimizeTax`). P3 and P4 are always assessed on
    their own with the basic allowance. With relationship "single", P1 and P2 are
    too, and that is the only outcome. With any other relationship three
    elections for P1 and P2 are tried in order -- P1 claims the basic allowance,
    P2 claims it, joint assessment with the married allowance -- and the first
    one with the lowest household total is kept. */
module Optimizer {
  import opened Common
  import opened Household
  import opened Bracket
  import opened PersonNet

  const BasicAllowance: real := 132000.0
  const MarriedAllowance: real := 264000.0

  /** Every relationship value other than "single" takes the married branch. */
  datatype Relationship = Single | Married

  function RelationshipOf(s: string): Relationship
  {
    if s == "single" then Single else Married
  }

  /** Which spouse claims the basic allowance under separate assessment. */
  datatype Claimant = P1Claims | P2Claims

  /** The election an outcome stands for; it replaces the mode and note texts. */
  datatype Election = IndependentFiling | SeparateAssessment(claimant: Claimant) | JointAssessment

  /** `BestStrategy`, without its display texts. */
  datatype BestStrategy = BestStrategy(
    election: Election,
    p1Tax: real, p2Tax: real, p3Tax: real, p4Tax: real,
    total: real, totalReduction: real)

  /** One assessment of a person's figures with `extra` added to the allowances. */
  function Assess(n: NetFigures, extra: real): TaxResult
  {
    Tax(n.income, n.deductions, n.allowances + extra)
  }

  function NetOf(h: HouseholdState, r: Role): NetFigures
  {
    GetPersonNet(PersonAt(h, r), h.livingWithChild)
  }

  /** The tax of P3 or P4: assessed alone, with the basic allowance, whatever the
      relationship and whatever P1 and P2 elect. */
  function OwnTax(h: HouseholdState, r: Role): TaxResult
  {
    Assess(NetOf(h, r), BasicAllowance)
  }

  /** What every outcome satisfies: P3's and P4's taxes are their own
      assessments, the total is the sum of the four taxes, and it is never
      negative. */
  ghost predicate Consistent(h: HouseholdState, s: BestStrategy)
  {
    && s.p3Tax == OwnTax(h, P3).finalTax
    && s.p4Tax == OwnTax(h, P4).finalTax
    && s.total == s.p1Tax + s.p2Tax + s.p3Tax + s.p4Tax
    && s.total >= 0.0
    && s.totalReduction >= 0.0
  }

  /** The record `compare` builds from P1's and P2's assessments: the four
      final taxes, their total, and the total reduction. */
  function Outcome(e: Election, t1: TaxResult, t2: TaxResult, t3: TaxResult, t4: TaxResult): BestStrategy
  {
    BestStrategy(e, t1.finalTax, t2.finalTax, t3.finalTax, t4.finalTax,
                 t1.finalTax + t2.finalTax + (t3.finalTax + t4.finalTax),
                 t1.reduction + t2.reduction + (t3.reduction + t4.reduction))
  }

  /** The record of the joint candidate: the joint tax stands as P1's, P2's is zero. */
  function JointRecord(joint: TaxResult, t3: TaxResult, t4: TaxResult): BestStrategy
  {
    BestStrategy(JointAssessment, joint.finalTax, 0.0, t3.finalTax, t4.finalTax,
                 joint.finalTax + (t3.finalTax + t4.finalTax),
                 joint.reduction + (t3.reduction + t4.reduction))
  }

  /** P1's and P2's figures added up, for joint assessment. */
  function JointFigures(n1: NetFigures, n2: NetFigures): NetFigures
  {
    NetFigures(n1.income + n2.income, n1.deductions + n2.deductions, n1.allowances + n2.allowances)
  }

  /** The outcome in which P1 and P2 are assessed on their own figures `n1` and
      `n2`, with `extra1` and `extra2` added to their allowances; `t3` and `t4`
      are the taxes of P3 and P4. */
  function SeparateOutcome(e: Election, n1: NetFigures, n2: NetFigures, extra1: real, extra2: real,
                           t3: TaxResult, t4: TaxResult): BestStrategy
  {
    Outcome(e, Assess(n1, extra1), Assess(n2, extra2), t3, t4)
  }

  /** Separate assessment in which only the claimant gets the basic allowance. */
  function SplitOutcome(c: Claimant, n1: NetFigures, n2: NetFigures, t3: TaxResult, t4: TaxResult): BestStrategy
  {
    match c
    case P1Claims => SeparateOutcome(SeparateAssessment(P1Claims), n1, n2, BasicAllowance, 0.0, t3, t4)
    case P2Claims => SeparateOutcome(SeparateAssessment(P2Claims), n1, n2, 0.0, BasicAllowance, t3, t4)
  }

  /** Joint assessment: one assessment of the summed figures with the married
      allowance, reported as P1's tax, P2's shown as zero. */
  function JointOutcome(n1: NetFigures, n2: NetFigures, t3: TaxResult, t4: TaxResult): BestStrategy
  {
    JointRecord(Assess(JointFigures(n1, n2), MarriedAllowance), t3, t4)
  }

  /** The three candidates of a married household, in the order they are tried. */
  function Candidates(n1: NetFigures, n2: NetFigures, t3: TaxResult, t4: TaxResult): seq<BestStrategy>
  {
    [SplitOutcome(P1Claims, n1, n2, t3, t4), SplitOutcome(P2Claims, n1, n2, t3, t4), JointOutcome(n1, n2, t3, t4)]
  }

  /** The household's own outcomes: figures from the persons, P3 and P4 assessed alone. */
  function IndependentOf(h: HouseholdState): BestStrategy
  {
    SeparateOutcome(IndependentFiling, NetOf(h, P1), NetOf(h, P2), BasicAllowance, BasicAllowance,
                    OwnTax(h, P3), OwnTax(h, P4))
  }

  function CandidatesOf(h: HouseholdState): seq<BestStrategy>
  {
    Candidates(NetOf(h, P1), NetOf(h, P2), OwnTax(h, P3), OwnTax(h, P4))
  }

  /** `best` is the first of `cs` whose total is the lowest: no candidate has a
      lower total, and every candidate before it has a strictly higher one. */
  predicate FirstLowest(cs: seq<BestStrategy>, best: BestStrategy)
  {
    exists k :: 0 <= k < |cs| && cs[k] == best
      && (forall i :: 0 <= i < |cs| ==> best.total <= cs[i].total)
      && (forall i :: 0 <= i < k ==> best.total < cs[i].total)
  }

  /** The `compare` closure of `optimizeTax`. `found` stands for the pair of
      closure variables `best` and `minTotalTax`: `None` is the starting `null`
      with an `Infinity` minimum, `Some(s)` a best whose total is the minimum. The
      candidate replaces the best found so far exactly when its total is strictly
      lower, so on a tie the earlier candidate stays. */
  method Compare(found: Option<BestStrategy>, e: Election, t1: TaxResult, t2: TaxResult,
                 t3: TaxResult, t4: TaxResult) returns (found': Option<BestStrategy>)
    ensures var c := Outcome(e, t1, t2, t3, t4);
      && found'.Some?
      && (found' == found || found' == Some(c))
      && found'.value.total <= c.total
      && (found.Some? ==> found'.value.total <= found.value.total)
      && (found.None? ==> found' == Some(c))
      && (found.Some? && found.value.total <= c.total ==> found' == found)
  {
    var total := t1.finalTax + t2.finalTax + (t3.finalTax + t4.finalTax);
    if found.None? || total < found.value.total {
      found' := Some(Outcome(e, t1, t2, t3, t4));
    } else {
      found' := found;
    }
  }

  /** One `calculateHKTax` call on a person's (or the couple's) figures, with
      `extra` added to the allowances (zero where the calculator adds nothing). */
  method AssessWith(n: NetFigures, extra: real) returns (r: TaxResult)
    ensures r == Assess(n, extra)
  {
    r := CalculateHKTax(n.income, n.deductions, n.allowances + extra);
  }

  /** The "single" branch: P1 and P2 each file alone with the basic allowance. */
  method FileIndependently(n1: NetFigures, n2: NetFigures, t3: TaxResult, t4: TaxResult)
    returns (best: BestStrategy)
    ensures best == SeparateOutcome(IndependentFiling, n1, n2, BasicAllowance, BasicAllowance, t3, t4)
  {
    var t1 := AssessWith(n1, BasicAllowance);
    var t2 := AssessWith(n2, BasicAllowance);
    best := Outcome(IndependentFiling, t1, t2, t3, t4);
  }

  /** The married branch: the three elections tried in order through `compare`
      and the joint check. The result is the first candidate with the lowest total. */
  method ChooseElection(n1: NetFigures, n2: NetFigures, t3: TaxResult, t4: TaxResult)
    returns (best: BestStrategy)
    ensures FirstLowest(Candidates(n1, n2, t3, t4), best)
  {
    var found: Option<BestStrategy> := None;
    var t1 := AssessWith(n1, BasicAllowance);
    var t2 := AssessWith(n2, 0.0);
    ghost var a := Outcome(SeparateAssessment(P1Claims), t1, t2, t3, t4);
    found := Compare(found, SeparateAssessment(P1Claims), t1, t2, t3, t4);

    t1 := AssessWith(n1, 0.0);
    t2 := AssessWith(n2, BasicAllowance);
    ghost var b := Outcome(SeparateAssessment(P2Claims), t1, t2, t3, t4);
    found := Compare(found, SeparateAssessment(P2Claims), t1, t2, t3, t4);
    ghost var leader := found.value;

    var joint := AssessWith(JointFigures(n1, n2), MarriedAllowance);
    ghost var j := JointRecord(joint, t3, t4);
    if joint.finalTax + (t3.finalTax + t4.finalTax) < found.value.total {
      found := Some(JointRecord(joint, t3, t4));
    }
    best := found.value;
    assert Candidates(n1, n2, t3, t4) == [a, b, j];
    FirstOfThree(a, b, j, leader, best);
  }

  /** Three candidates tried in order, each replacing the leader only when
      strictly lower: the result is the first with the lowest total. */
  lemma FirstOfThree(a: BestStrategy, b: BestStrategy, j: BestStrategy, leader: BestStrategy, best: BestStrategy)
    requires leader == a || leader == b
    requires leader.total <= a.total && leader.total <= b.total
    requires a.total <= b.total ==> leader == a
    requires j.total < leader.total ==> best == j
    requires leader.total <= j.total ==> best == leader
    ensures FirstLowest([a, b, j], best)
  {
    var cs := [a, b, j];
    if best == j && j.total < leader.total {
      assert cs[2] == best;
    } else if leader == a {
      assert cs[0] == best;
    } else {
      assert cs[1] == best;
    }
  }

  /** `optimizeTax`: the outcome the calculator shows. Never absent; for "single"
      the independent outcome; otherwise the first of the three elections, in
      the order tried, whose total is the lowest. */
  method OptimizeTax(h: HouseholdState) returns (best: BestStrategy)
    ensures Consistent(h, best)
    ensures RelationshipOf(h.relationship) == Single ==> best == IndependentOf(h)
    ensures RelationshipOf(h.relationship) == Married ==> FirstLowest(CandidatesOf(h), best)
  {
    var n1 := GetPersonNet(h.p1, h.livingWithChild);
    var n2 := GetPersonNet(h.p2, h.livingWithChild);
    var n3 := GetPersonNet(h.p3, h.livingWithChild);
    var n4 := GetPersonNet(h.p4, h.livingWithChild);
    assert n1 == NetOf(h, P1) && n2 == NetOf(h, P2) && n3 == NetOf(h, P3) && n4 == NetOf(h, P4);

    var t3 := AssessWith(n3, BasicAllowance);
    var t4 := AssessWith(n4, BasicAllowance);
    assert t3 == OwnTax(h, P3) && t4 == OwnTax(h, P4);

    OutcomesConsistent(h);
    if h.relationship == "single" {
      best := FileIndependently(n1, n2, t3, t4);
    } else {
      best := ChooseElection(n1, n2, t3, t4);
      FirstLowestOfThree(CandidatesOf(h)[0], CandidatesOf(h)[1], CandidatesOf(h)[2], best);
    }
  }

  /** A record built by `compare` or by the joint step from assessments whose
      taxes and reductions are non-negative, with P3's and P4's own taxes, is
      consistent. */
  lemma RecordsConsistent(h: HouseholdState, e: Election, t1: TaxResult, t2: TaxResult)
    requires t1.finalTax >= 0.0 && t1.reduction >= 0.0 && t2.finalTax >= 0.0 && t2.reduction >= 0.0
    ensures Consistent(h, Outcome(e, t1, t2, OwnTax(h, P3), OwnTax(h, P4)))
    ensures Consistent(h, JointRecord(t1, OwnTax(h, P3), OwnTax(h, P4)))
  {
    var t3, t4 := OwnTax(h, P3), OwnTax(h, P4);
    assert t3.finalTax >= 0.0 && t3.reduction >= 0.0 && t4.finalTax >= 0.0 && t4.reduction >= 0.0;
  }

  /** Every outcome the optimiser can show is consistent: P3 and P4 carry their
      own taxes, the total is the sum of the four, nothing is negative. */
  lemma OutcomesConsistent(h: HouseholdState)
    ensures Consistent(h, IndependentOf(h))
    ensures Consistent(h, CandidatesOf(h)[0])
    ensures Consistent(h, CandidatesOf(h)[1])
    ensures Consistent(h, CandidatesOf(h)[2])
  {
    var n1, n2 := NetOf(h, P1), NetOf(h, P2);
    var t3, t4 := OwnTax(h, P3), OwnTax(h, P4);
    var a1, a0 := Assess(n1, BasicAllowance), Assess(n1, 0.0);
    var b1, b0 := Assess(n2, BasicAllowance), Assess(n2, 0.0);
    var joint := Assess(JointFigures(n1, n2), MarriedAllowance);
    RecordsConsistent(h, IndependentFiling, a1, b1);
    RecordsConsistent(h, SeparateAssessment(P1Claims), a1, b0);
    RecordsConsistent(h, SeparateAssessment(P2Claims), a0, b1);
    RecordsConsistent(h, JointAssessment, joint, joint);
    assert CandidatesOf(h) == [Outcome(SeparateAssessment(P1Claims), a1, b0, t3, t4),
                               Outcome(SeparateAssessment(P2Claims), a0, b1, t3, t4),
                               JointRecord(joint, t3, t4)];
  }

  /** The first lowest candidate is unique: whatever the order of evaluation,
      only one record satisfies `FirstLowest`. */
  lemma {:induction false} FirstLowestUnique(cs: seq<BestStrategy>, x: BestStrategy, y: BestStrategy)
    requires FirstLowest(cs, x) && FirstLowest(cs, y)
    ensures x == y
  {
    var kx :| 0 <= kx < |cs| && cs[kx] == x
      && (forall i :: 0 <= i < |cs| ==> x.total <= cs[i].total)
      && (forall i :: 0 <= i < kx ==> x.total < cs[i].total);
    var ky :| 0 <= ky < |cs| && cs[ky] == y
      && (forall i :: 0 <= i < |cs| ==> y.total <= cs[i].total)
      && (forall i :: 0 <= i < ky ==> y.total < cs[i].total);
    assert kx == ky;
  }

  /** What `FirstLowest` means for the three married candidates: the P1-claims
      record wins every tie, the P2-claims record needs to be strictly below it,
      and joint assessment needs to be strictly below both. */
  lemma FirstLowestOfThree(a: BestStrategy, b: BestStrategy, j: BestStrategy, best: BestStrategy)
    requires FirstLowest([a, b, j], best)
    ensures best.total <= a.total && best.total <= b.total && best.total <= j.total
    ensures best == a || best == b || best == j
    ensures a.total <= b.total && a.total <= j.total ==> best == a
    ensures b.total < a.total && b.total <= j.total ==> best == b
    ensures j.total < a.total && j.total < b.total ==> best == j
  {
    var cs := [a, b, j];
    var k :| 0 <= k < |cs| && cs[k] == best
      && (forall i :: 0 <= i < |cs| ==> best.total <= cs[i].total)
      && (forall i :: 0 <= i < k ==> best.total < cs[i].total);
    assert best.total <= cs[0].total && best.total <= cs[1].total && best.total <= cs[2].total;
    if k == 1 {
      assert best.total < cs[0].total;
    } else if k == 2 {
      assert best.total < cs[0].total && best.total < cs[1].total;
    }
  }

  /** Under joint assessment the whole joint tax is shown as P1's and P2's tax
      is zero; the household total is the joint tax plus P3's and P4's. */
  lemma JointShownAsP1(h: HouseholdState)
    ensures var j := CandidatesOf(h)[2];
      && j.election == JointAssessment
      && j.p2Tax == 0.0
      && j.p1Tax == Assess(JointFigures(NetOf(h, P1), NetOf(h, P2)), MarriedAllowance).finalTax
      && j.total == j.p1Tax + OwnTax(h, P3).finalTax + OwnTax(h, P4).finalTax
  {
  }

  /** With "single", P1 and P2 each file alone with the basic allowance, however
      their figures compare. */
  lemma SingleNeverJoint(h: HouseholdState)
    ensures IndependentOf(h).election == IndependentFiling
    ensures IndependentOf(h).p1Tax == Assess(NetOf(h, P1), BasicAllowance).finalTax
    ensures IndependentOf(h).p2Tax == Assess(NetOf(h, P2), BasicAllowance).finalTax
  {
  }

  /** P3's and P4's taxes do not depend on the relationship nor on P1's and P2's
      figures: two households that agree on P3, P4 and the living-with-child flag
      give them the same tax in every consistent outcome. */
  lemma OthersUnaffected(h: HouseholdState, h': HouseholdState, s: BestStrategy, s': BestStrategy)
    requires h.p3 == h'.p3 && h.p4 == h'.p4 && h.livingWithChild == h'.livingWithChild
    requires Consistent(h, s) && Consistent(h', s')
    ensures s.p3Tax == s'.p3Tax && s.p4Tax == s'.p4Tax
  {
  }
}
