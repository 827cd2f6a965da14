/** The calculator's state: four taxpayers addressed by fixed role (P1..P4), the
    relationship setting that decides whether P1 and P2 may elect joint
    assessment, and the household-wide "living with a child" flag that raises the
    rent deduction cap for everybody. */
module Household {

  /** One taxpayer's raw inputs (`PersonData`). Every numeric field of the source
      is a `number`; the count fields (children, parents, ...) are modelled as
      amounts too, since nothing in the calculator forces them to be whole. */
  datatype Person = Person(
    name: string,
    income: real,
    mpf: real, vhis: real, tvc: real, rent: real,
    selfEducation: real, donation: real, elderlyCare: real,
    children: real, newborns: real,
    parents60: real, parents60LiveIn: real,
    parents55: real, parents55LiveIn: real,
    dependentSiblings: real, disabledDependents: real,
    disabledPersonal: bool, singleParent: bool)

  /** The numeric fields of a person, by name. */
  datatype NumField =
    | Income | Mpf | Vhis | Tvc | Rent | SelfEducation | Donation | ElderlyCare
    | Children | Newborns | Parents60 | Parents60LiveIn | Parents55 | Parents55LiveIn
    | DependentSiblings | DisabledDependents

  /** The boolean fields of a person, by name. */
  datatype FlagField = DisabledPersonal | SingleParent

  datatype Role = P1 | P2 | P3 | P4

  /** The whole form state. `relationship` is kept as the string the form and the
      assistant write ("single", "married", ...). */
  datatype HouseholdState = HouseholdState(
    relationship: string,
    livingWithChild: bool,
    p1: Person, p2: Person, p3: Person, p4: Person)

  function Get(p: Person, f: NumField): real
  {
    match f
    case Income => p.income
    case Mpf => p.mpf
    case Vhis => p.vhis
    case Tvc => p.tvc
    case Rent => p.rent
    case SelfEducation => p.selfEducation
    case Donation => p.donation
    case ElderlyCare => p.elderlyCare
    case Children => p.children
    case Newborns => p.newborns
    case Parents60 => p.parents60
    case Parents60LiveIn => p.parents60LiveIn
    case Parents55 => p.parents55
    case Parents55LiveIn => p.parents55LiveIn
    case DependentSiblings => p.dependentSiblings
    case DisabledDependents => p.disabledDependents
  }

  function GetFlag(p: Person, g: FlagField): bool
  {
    match g
    case DisabledPersonal => p.disabledPersonal
    case SingleParent => p.singleParent
  }

  /** `{ ...p, [f]: v }` for a numeric field. */
  function Set(p: Person, f: NumField, v: real): (q: Person)
    ensures Get(q, f) == v
    ensures forall g :: g != f ==> Get(q, g) == Get(p, g)
    ensures forall g :: GetFlag(q, g) == GetFlag(p, g)
    ensures q.name == p.name
  {
    match f
    case Income => p.(income := v)
    case Mpf => p.(mpf := v)
    case Vhis => p.(vhis := v)
    case Tvc => p.(tvc := v)
    case Rent => p.(rent := v)
    case SelfEducation => p.(selfEducation := v)
    case Donation => p.(donation := v)
    case ElderlyCare => p.(elderlyCare := v)
    case Children => p.(children := v)
    case Newborns => p.(newborns := v)
    case Parents60 => p.(parents60 := v)
    case Parents60LiveIn => p.(parents60LiveIn := v)
    case Parents55 => p.(parents55 := v)
    case Parents55LiveIn => p.(parents55LiveIn := v)
    case DependentSiblings => p.(dependentSiblings := v)
    case DisabledDependents => p.(disabledDependents := v)
  }

  /** `{ ...p, [g]: b }` for a boolean field. */
  function SetFlag(p: Person, g: FlagField, b: bool): (q: Person)
    ensures GetFlag(q, g) == b
    ensures forall h :: h != g ==> GetFlag(q, h) == GetFlag(p, h)
    ensures forall f :: Get(q, f) == Get(p, f)
    ensures q.name == p.name
  {
    match g
    case DisabledPersonal => p.(disabledPersonal := b)
    case SingleParent => p.(singleParent := b)
  }

  /** The data-entry invariant: every numeric field is non-negative. */
  ghost predicate NonNegative(p: Person)
  {
    forall f :: Get(p, f) >= 0.0
  }

  /** `defaultPerson(name)`: a named person with every figure zero and no flag set. */
  function DefaultPerson(name: string): (p: Person)
    ensures p.name == name
    ensures forall f :: Get(p, f) == 0.0
    ensures forall g :: !GetFlag(p, g)
  {
    Person(name, 0.0, 0.0, 0.0, 0.0, 0.0, 0.0, 0.0, 0.0, 0.0, 0.0,
           0.0, 0.0, 0.0, 0.0, 0.0, 0.0, false, false)
  }

  /** The state the calculator starts from: "single", not living with a child,
      four default persons under the form's default labels ("self", "relative or
      spouse", "relative", "relative"). */
  function InitialState(): (h: HouseholdState)
    ensures h.relationship == "single" && !h.livingWithChild
    ensures forall r :: PersonAt(h, r) == DefaultPerson(PersonAt(h, r).name)
    ensures forall r :: NonNegative(PersonAt(h, r))
  {
    HouseholdState("single", false,
      DefaultPerson("自己 (P1)"), DefaultPerson("親屬/配偶 (P2)"),
      DefaultPerson("親屬 (P3)"), DefaultPerson("親屬 (P4)"))
  }

  function PersonAt(h: HouseholdState, r: Role): Person
  {
    match r
    case P1 => h.p1
    case P2 => h.p2
    case P3 => h.p3
    case P4 => h.p4
  }

  /** `{ ...h, [r]: p }`. */
  function WithPerson(h: HouseholdState, r: Role, p: Person): (h': HouseholdState)
    ensures PersonAt(h', r) == p
    ensures forall s :: s != r ==> PersonAt(h', s) == PersonAt(h, s)
    ensures h'.relationship == h.relationship && h'.livingWithChild == h.livingWithChild
  {
    match r
    case P1 => h.(p1 := p)
    case P2 => h.(p2 := p)
    case P3 => h.(p3 := p)
    case P4 => h.(p4 := p)
  }
}
