/** The two ways the form state changes: `handlePersonChange`, the updater run by
    every input control of a person card, and the merge of the partial state the
    assistant returns. Both build a new state by spreading the old one; neither
    touches anything outside the person (or the household settings) addressed. */
module StateUpdate {
  import opened Common
  import opened Household
  import opened PersonNet

  /** What an input control hands to `handlePersonChange`: a number from a number
      box, a boolean from a checkbox, or the text of the name box. */
  datatype Update =
    | SetNumber(field: NumField, value: real)
    | SetFlagTo(flag: FlagField, on: bool)
    | Rename(name: string)

  /** The entry ceiling a number box enforces. Only VHIS, TVC, self-education,
      elderly care and rent have one, and each is the deduction cap of the same
      item; rent uses the household's current rent cap. Income, MPF, the donation
      and every count are taken as typed. */
  function EntryCap(f: NumField, livingWithChild: bool): (cap: Option<real>)
    ensures cap.Some? <==> (f == Vhis || f == Tvc || f == SelfEducation || f == ElderlyCare || f == Rent)
    ensures f == Vhis ==> cap == Some(VhisCap)
    ensures f == Tvc ==> cap == Some(TvcCap)
    ensures f == SelfEducation ==> cap == Some(SelfEducationCap)
    ensures f == ElderlyCare ==> cap == Some(ElderlyCareCap)
    ensures f == Rent ==> cap == Some(RentCap(livingWithChild))
  {
    match f
    case Vhis => Some(8000.0)
    case Tvc => Some(60000.0)
    case SelfEducation => Some(100000.0)
    case ElderlyCare => Some(100000.0)
    case Rent => Some(if livingWithChild then 120000.0 else 100000.0)
    case _ => None
  }

  /** The value a number box stores: cut to the field's ceiling when it has one. */
  function Clamp(f: NumField, v: real, livingWithChild: bool): (r: real)
    ensures r <= v
    ensures EntryCap(f, livingWithChild).None? ==> r == v
    ensures EntryCap(f, livingWithChild).Some? ==>
      r <= EntryCap(f, livingWithChild).value
      && (v <= EntryCap(f, livingWithChild).value ==> r == v)
      && (r == v || r == EntryCap(f, livingWithChild).value)
  {
    match EntryCap(f, livingWithChild)
    case None => v
    case Some(cap) => Min(v, cap)
  }

  /** The MPF figure filled in automatically when income is typed. */
  function AutoMpf(income: real): (m: real)
    ensures m <= MpfCap && m <= 0.05 * income
    ensures m == MpfCap || m == 0.05 * income
  {
    Min(income * 0.05, 18000.0)
  }

  /** `handlePersonChange(personKey, field, value)` as a state updater. */
  function HandlePersonChange(h: HouseholdState, r: Role, u: Update): (h': HouseholdState)
    ensures h'.relationship == h.relationship && h'.livingWithChild == h.livingWithChild
    ensures forall s :: s != r ==> PersonAt(h', s) == PersonAt(h, s)
    ensures PersonAt(h', r).name == (if u.Rename? then u.name else PersonAt(h, r).name)
    ensures u.SetNumber? ==>
      var p, q, f := PersonAt(h, r), PersonAt(h', r), u.field;
      && Get(q, f) == Clamp(f, u.value, h.livingWithChild)
      && (f == Income ==> q.mpf == AutoMpf(u.value))
      && (forall g :: g != f && !(f == Income && g == Mpf) ==> Get(q, g) == Get(p, g))
      && (forall g :: GetFlag(q, g) == GetFlag(p, g))
    ensures u.SetFlagTo? ==>
      var p, q := PersonAt(h, r), PersonAt(h', r);
      && GetFlag(q, u.flag) == u.on
      && (forall g :: g != u.flag ==> GetFlag(q, g) == GetFlag(p, g))
      && (forall f :: Get(q, f) == Get(p, f))
    ensures u.Rename? ==>
      var p, q := PersonAt(h, r), PersonAt(h', r);
      && (forall f :: Get(q, f) == Get(p, f))
      && (forall g :: GetFlag(q, g) == GetFlag(p, g))
  {
    var person := PersonAt(h, r);
    var updated :=
      match u
      case SetNumber(f, v) =>
        var finalValue := Clamp(f, v, h.livingWithChild);
        var q := Set(person, f, finalValue);
        if f == Income then Set(q, Mpf, AutoMpf(finalValue)) else q
      case SetFlagTo(g, b) => SetFlag(person, g, b)
      case Rename(n) => person.(name := n);
    WithPerson(h, r, updated)
  }

  /** Typing a non-negative number keeps a person's figures non-negative. */
  lemma EntryKeepsNonNegative(h: HouseholdState, r: Role, u: Update)
    requires NonNegative(PersonAt(h, r))
    requires u.SetNumber? ==> u.value >= 0.0
    ensures NonNegative(PersonAt(HandlePersonChange(h, r, u), r))
  {
    var p, q := PersonAt(h, r), PersonAt(HandlePersonChange(h, r, u), r);
    if u.SetNumber? {
      var f, v := u.field, u.value;
      assert Get(q, f) >= 0.0 by {
        match EntryCap(f, h.livingWithChild)
        case None =>
        case Some(cap) => assert cap >= 0.0;
      }
      forall g
        ensures Get(q, g) >= 0.0
      {
        if g == f {
        } else if f == Income && g == Mpf {
          assert q.mpf == AutoMpf(v);
        } else {
          assert Get(q, g) == Get(p, g);
        }
      }
    }
  }

  /** Entering the same thing twice is the same as entering it once: the stored
      value is already within its ceiling. */
  lemma EntryIdempotent(h: HouseholdState, r: Role, u: Update)
    ensures HandlePersonChange(HandlePersonChange(h, r, u), r, u) == HandlePersonChange(h, r, u)
  {
    var once := HandlePersonChange(h, r, u);
    var twice := HandlePersonChange(once, r, u);
    PersonsEqual(PersonAt(twice, r), PersonAt(once, r));
    HouseholdsEqual(twice, once);
  }

  /** Two persons that agree on the name, every figure and every flag are equal. */
  lemma PersonsEqual(p: Person, q: Person)
    requires p.name == q.name
    requires forall f :: Get(p, f) == Get(q, f)
    requires forall g :: GetFlag(p, g) == GetFlag(q, g)
    ensures p == q
  {
    assert p.income == q.income by { assert Get(p, Income) == Get(q, Income); }
    assert p.mpf == q.mpf by { assert Get(p, Mpf) == Get(q, Mpf); }
    assert p.vhis == q.vhis by { assert Get(p, Vhis) == Get(q, Vhis); }
    assert p.tvc == q.tvc by { assert Get(p, Tvc) == Get(q, Tvc); }
    assert p.rent == q.rent by { assert Get(p, Rent) == Get(q, Rent); }
    assert p.selfEducation == q.selfEducation by { assert Get(p, SelfEducation) == Get(q, SelfEducation); }
    assert p.donation == q.donation by { assert Get(p, Donation) == Get(q, Donation); }
    assert p.elderlyCare == q.elderlyCare by { assert Get(p, ElderlyCare) == Get(q, ElderlyCare); }
    assert p.children == q.children by { assert Get(p, Children) == Get(q, Children); }
    assert p.newborns == q.newborns by { assert Get(p, Newborns) == Get(q, Newborns); }
    assert p.parents60 == q.parents60 by { assert Get(p, Parents60) == Get(q, Parents60); }
    assert p.parents60LiveIn == q.parents60LiveIn by { assert Get(p, Parents60LiveIn) == Get(q, Parents60LiveIn); }
    assert p.parents55 == q.parents55 by { assert Get(p, Parents55) == Get(q, Parents55); }
    assert p.parents55LiveIn == q.parents55LiveIn by { assert Get(p, Parents55LiveIn) == Get(q, Parents55LiveIn); }
    assert p.dependentSiblings == q.dependentSiblings by { assert Get(p, DependentSiblings) == Get(q, DependentSiblings); }
    assert p.disabledDependents == q.disabledDependents by { assert Get(p, DisabledDependents) == Get(q, DisabledDependents); }
    assert p.disabledPersonal == q.disabledPersonal by { assert GetFlag(p, DisabledPersonal) == GetFlag(q, DisabledPersonal); }
    assert p.singleParent == q.singleParent by { assert GetFlag(p, SingleParent) == GetFlag(q, SingleParent); }
  }

  /** Two states that agree on the settings and on every person are equal. */
  lemma HouseholdsEqual(h: HouseholdState, k: HouseholdState)
    requires h.relationship == k.relationship && h.livingWithChild == k.livingWithChild
    requires forall r :: PersonAt(h, r) == PersonAt(k, r)
    ensures h == k
  {
    assert PersonAt(h, P1) == PersonAt(k, P1) && PersonAt(h, P2) == PersonAt(k, P2);
    assert PersonAt(h, P3) == PersonAt(k, P3) && PersonAt(h, P4) == PersonAt(k, P4);
  }

  /** An MPF typed directly is stored as typed, even above the 18,000 that the
      deduction allows; the cap is applied only when the tax is worked out. */
  lemma MpfEntryNotClamped(h: HouseholdState, r: Role, v: real)
    ensures PersonAt(HandlePersonChange(h, r, SetNumber(Mpf, v)), r).mpf == v
    ensures v > MpfCap ==>
      CapDeductions(PersonAt(HandlePersonChange(h, r, SetNumber(Mpf, v)), r), RentCap(h.livingWithChild)).mpf == MpfCap
  {
  }

  /** Typing an income of 600,000 fills in the full 18,000 MPF; 240,000 fills in
      5% of it, 12,000. */
  lemma AutoMpfExamples(h: HouseholdState, r: Role)
    ensures PersonAt(HandlePersonChange(h, r, SetNumber(Income, 600000.0)), r).mpf == 18000.0
    ensures PersonAt(HandlePersonChange(h, r, SetNumber(Income, 240000.0)), r).mpf == 12000.0
  {
  }

  /** The entry ceilings never change the tax: for every field but income, the
      person an entry leaves behind has the same net figures as the person with
      the value stored exactly as typed, because the deduction is capped at the
      same amount anyway. */
  lemma EntryClampInvisible(h: HouseholdState, r: Role, f: NumField, v: real)
    requires f != Income
    ensures GetPersonNet(PersonAt(HandlePersonChange(h, r, SetNumber(f, v)), r), h.livingWithChild)
         == GetPersonNet(Set(PersonAt(h, r), f, v), h.livingWithChild)
  {
    var lwc := h.livingWithChild;
    var rc := RentCap(lwc);
    var clamped, typed := Set(PersonAt(h, r), f, Clamp(f, v, lwc)), Set(PersonAt(h, r), f, v);
    assert PersonAt(HandlePersonChange(h, r, SetNumber(f, v)), r) == clamped;
    assert CapDeductions(clamped, rc) == CapDeductions(typed, rc) by {
      if f == Rent {
        assert Clamp(f, v, lwc) == Min(v, rc);
      }
    }
  }

  /** A person-by-person partial record from the assistant: the fields it
      mentions and nothing else. */
  datatype PersonDelta = PersonDelta(
    name: Option<string>,
    numbers: map<NumField, real>,
    flags: map<FlagField, bool>)

  /** The assistant's `newState`. An absent or empty relationship leaves the
      setting alone; the living-with-child flag is replaced whenever present. */
  datatype StateDelta = StateDelta(
    relationship: Option<string>,
    livingWithChild: Option<bool>,
    persons: map<Role, PersonDelta>)

  /** `{ ...p, ...d }`: every field the delta mentions replaces the person's. */
  function Overlay(p: Person, d: PersonDelta): Person
  {
    Person(
      if d.name.Some? then d.name.value else p.name,
      Pick(d, p, Income), Pick(d, p, Mpf), Pick(d, p, Vhis), Pick(d, p, Tvc), Pick(d, p, Rent),
      Pick(d, p, SelfEducation), Pick(d, p, Donation), Pick(d, p, ElderlyCare),
      Pick(d, p, Children), Pick(d, p, Newborns),
      Pick(d, p, Parents60), Pick(d, p, Parents60LiveIn),
      Pick(d, p, Parents55), Pick(d, p, Parents55LiveIn),
      Pick(d, p, DependentSiblings), Pick(d, p, DisabledDependents),
      PickFlag(d, p, DisabledPersonal), PickFlag(d, p, SingleParent))
  }

  /** What `Overlay` does, field by field: the name, every figure and every flag
      the delta mentions come from the delta, all others from the person. */
  lemma OverlayFields(p: Person, d: PersonDelta)
    ensures Overlay(p, d).name == (if d.name.Some? then d.name.value else p.name)
    ensures forall f :: Get(Overlay(p, d), f) == (if f in d.numbers then d.numbers[f] else Get(p, f))
    ensures forall g :: GetFlag(Overlay(p, d), g) == (if g in d.flags then d.flags[g] else GetFlag(p, g))
  {
    var q := Overlay(p, d);
    forall f
      ensures Get(q, f) == Pick(d, p, f)
    {
      match f
      case Income => case Mpf => case Vhis => case Tvc => case Rent =>
      case SelfEducation => case Donation => case ElderlyCare =>
      case Children => case Newborns => case Parents60 => case Parents60LiveIn =>
      case Parents55 => case Parents55LiveIn => case DependentSiblings => case DisabledDependents =>
    }
    forall g
      ensures GetFlag(q, g) == PickFlag(d, p, g)
    {
      match g
      case DisabledPersonal => case SingleParent =>
    }
  }

  /** A figure after the overlay: the delta's when it mentions the field. */
  function Pick(d: PersonDelta, p: Person, f: NumField): real
  {
    if f in d.numbers then d.numbers[f] else Get(p, f)
  }

  /** A flag after the overlay: the delta's when it mentions the flag. */
  function PickFlag(d: PersonDelta, p: Person, g: FlagField): bool
  {
    if g in d.flags then d.flags[g] else GetFlag(p, g)
  }

  /** The state after the merge, described setting by setting and person by person. */
  function Merged(prev: HouseholdState, d: StateDelta): HouseholdState
  {
    HouseholdState(
      if d.relationship.Some? && d.relationship.value != "" then d.relationship.value else prev.relationship,
      if d.livingWithChild.Some? then d.livingWithChild.value else prev.livingWithChild,
      MergedPerson(prev, d, P1), MergedPerson(prev, d, P2),
      MergedPerson(prev, d, P3), MergedPerson(prev, d, P4))
  }

  function MergedPerson(prev: HouseholdState, d: StateDelta, r: Role): Person
  {
    if r in d.persons then Overlay(PersonAt(prev, r), d.persons[r]) else PersonAt(prev, r)
  }

  /** The position of a person's key in the list p1..p4 the merge walks. */
  function KeyIndex(r: Role): nat
  {
    match r
    case P1 => 0
    case P2 => 1
    case P3 => 2
    case P4 => 3
  }

  /** The `newState` merge as the calculator runs it: copy the state, replace the
      settings the delta carries, then walk the keys p1..p4 and overlay each
      person the delta mentions. */
  method MergeAssistantState(prev: HouseholdState, d: StateDelta) returns (next: HouseholdState)
    ensures next == Merged(prev, d)
  {
    next := prev;
    if d.relationship.Some? && d.relationship.value != "" {
      next := next.(relationship := d.relationship.value);
    }
    if d.livingWithChild.Some? {
      next := next.(livingWithChild := d.livingWithChild.value);
    }
    var keys := [P1, P2, P3, P4];
    for i := 0 to |keys|
      invariant next.relationship == Merged(prev, d).relationship
      invariant next.livingWithChild == Merged(prev, d).livingWithChild
      invariant forall r :: PersonAt(next, r) == (if KeyIndex(r) < i then MergedPerson(prev, d, r) else PersonAt(prev, r))
    {
      var k := keys[i];
      assert KeyIndex(k) == i;
      ghost var before := next;
      if k in d.persons {
        next := WithPerson(next, k, Overlay(PersonAt(next, k), d.persons[k]));
      }
      forall r
        ensures PersonAt(next, r) == (if KeyIndex(r) < i + 1 then MergedPerson(prev, d, r) else PersonAt(prev, r))
      {
        if r != k {
          assert KeyIndex(r) != i;
          assert PersonAt(next, r) == PersonAt(before, r);
        }
      }
    }
    HouseholdsEqual(next, Merged(prev, d));
  }

  /** The merge touches only what the delta mentions: every person it does not
      name, and every field of a named person that the delta leaves out, keeps
      its value. */
  lemma MergeKeepsUnmentioned(prev: HouseholdState, d: StateDelta, r: Role)
    ensures r !in d.persons ==> PersonAt(Merged(prev, d), r) == PersonAt(prev, r)
    ensures r in d.persons ==>
      forall f :: f !in d.persons[r].numbers ==> Get(PersonAt(Merged(prev, d), r), f) == Get(PersonAt(prev, r), f)
    ensures r in d.persons ==>
      forall g :: g !in d.persons[r].flags ==> GetFlag(PersonAt(Merged(prev, d), r), g) == GetFlag(PersonAt(prev, r), g)
    ensures r in d.persons && d.persons[r].name.None? ==> PersonAt(Merged(prev, d), r).name == PersonAt(prev, r).name
  {
    if r in d.persons {
      OverlayFields(PersonAt(prev, r), d.persons[r]);
    }
  }

  /** Overlaying the same delta twice is the same as overlaying it once. */
  lemma OverlayIdempotent(p: Person, d: PersonDelta)
    ensures Overlay(Overlay(p, d), d) == Overlay(p, d)
  {
    OverlayFields(p, d);
    OverlayFields(Overlay(p, d), d);
    PersonsEqual(Overlay(Overlay(p, d), d), Overlay(p, d));
  }

  /** Applying the same delta twice is the same as applying it once. */
  lemma MergeIdempotent(prev: HouseholdState, d: StateDelta)
    ensures Merged(Merged(prev, d), d) == Merged(prev, d)
  {
    var once := Merged(prev, d);
    forall r | r in d.persons
      ensures Overlay(Overlay(PersonAt(prev, r), d.persons[r]), d.persons[r])
           == Overlay(PersonAt(prev, r), d.persons[r])
    {
      OverlayIdempotent(PersonAt(prev, r), d.persons[r]);
    }
    assert MergedPerson(once, d, P1) == MergedPerson(prev, d, P1);
    assert MergedPerson(once, d, P2) == MergedPerson(prev, d, P2);
    assert MergedPerson(once, d, P3) == MergedPerson(prev, d, P3);
    assert MergedPerson(once, d, P4) == MergedPerson(prev, d, P4);
  }

  /** An empty delta leaves the state as it was. */
  lemma EmptyDeltaIsIdentity(prev: HouseholdState)
    ensures Merged(prev, StateDelta(None, None, map[])) == prev
  {
    HouseholdsEqual(Merged(prev, StateDelta(None, None, map[])), prev);
  }

  /** Unlike typing into the form, the merge neither clamps nor fills in MPF: an
      income from the assistant leaves MPF as it was, and a VHIS premium above
      8,000 is stored as given. */
  lemma MergeNeitherClampsNorFillsMpf(prev: HouseholdState, r: Role, income: real, vhis: real)
    ensures var d := StateDelta(None, None, map[r := PersonDelta(None, map[Income := income, Vhis := vhis], map[])]);
      var q := PersonAt(Merged(prev, d), r);
      && q.income == income
      && q.mpf == PersonAt(prev, r).mpf
      && q.vhis == vhis
  {
    var d := StateDelta(None, None, map[r := PersonDelta(None, map[Income := income, Vhis := vhis], map[])]);
    var q := PersonAt(Merged(prev, d), r);
    assert q == Overlay(PersonAt(prev, r), d.persons[r]) by {
      match r
      case P1 =>
      case P2 =>
      case P3 =>
      case P4 =>
    }
    OverlayFields(PersonAt(prev, r), d.persons[r]);
    assert Get(q, Mpf) == Get(PersonAt(prev, r), Mpf);
    assert Get(q, Income) == income && Get(q, Vhis) == vhis;
  }
}
