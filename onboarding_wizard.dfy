/**
 * The onboarding wizard: a four-step form whose state is a step counter and a
 * seven-field UserData record (src/components/onboarding-wizard.tsx).
 *
 * The pure part (the record, the field update, the view chosen for a step, the
 * buttons the footer offers and what pressing one does) is written as
 * functions; the component's two state cells are the fields of class Wizard,
 * whose methods are the component's callbacks.
 */
module OnboardingWizard {
  import opened Wrappers

  /** The data collected across the four steps; every field is free text. */
  datatype UserData = UserData(
    firstName: string,
    lastName: string,
    email: string,
    companyName: string,
    companySize: string,
    industry: string,
    productInterest: string)

  /** The keys of UserData, as passed to updateUserData. */
  datatype Field =
    | FirstName | LastName | Email
    | CompanyName | CompanySize | Industry
    | ProductInterest

  /** The value of one named field. */
  function Get(d: UserData, f: Field): string
  {
    match f
    case FirstName => d.firstName
    case LastName => d.lastName
    case Email => d.email
    case CompanyName => d.companyName
    case CompanySize => d.companySize
    case Industry => d.industry
    case ProductInterest => d.productInterest
  }

  /** Two records that agree on every field are the same record. */
  lemma UserDataExtensional(a: UserData, b: UserData)
    requires forall f :: Get(a, f) == Get(b, f)
    ensures a == b
  {
    assert Get(a, FirstName) == Get(b, FirstName);
    assert Get(a, LastName) == Get(b, LastName);
    assert Get(a, Email) == Get(b, Email);
    assert Get(a, CompanyName) == Get(b, CompanyName);
    assert Get(a, CompanySize) == Get(b, CompanySize);
    assert Get(a, Industry) == Get(b, Industry);
    assert Get(a, ProductInterest) == Get(b, ProductInterest);
  }

  /** The record the wizard starts with: every field is empty. */
  function InitialUserData(): (d: UserData)
    ensures forall f :: Get(d, f) == ""
  {
    UserData("", "", "", "", "", "", "")
  }

  /** The record `{ ...d, [f]: v }`: field f becomes v, the other six are kept. */
  function Update(d: UserData, f: Field, v: string): (r: UserData)
    ensures Get(r, f) == v
    ensures forall g :: g != f ==> Get(r, g) == Get(d, g)
  {
    match f
    case FirstName => d.(firstName := v)
    case LastName => d.(lastName := v)
    case Email => d.(email := v)
    case CompanyName => d.(companyName := v)
    case CompanySize => d.(companySize := v)
    case Industry => d.(industry := v)
    case ProductInterest => d.(productInterest := v)
  }

  /** Updating a field to the value it already holds gives back the same record. */
  lemma UpdateSameValue(d: UserData, f: Field)
    ensures Update(d, f, Get(d, f)) == d
  {
  }

  /** The four views of the wizard, each showing the current record. */
  datatype View =
    | PersonalInfo(userData: UserData)
    | CompanyDetails(userData: UserData)
    | ProductPreferences(userData: UserData)
    | Confirmation(userData: UserData)

  /** The position of a view in the fixed step sequence. */
  function StepOf(v: View): (k: int)
    ensures 1 <= k <= 4
    ensures k == 4 <==> v.Confirmation?
  {
    match v
    case PersonalInfo(_) => 1
    case CompanyDetails(_) => 2
    case ProductPreferences(_) => 3
    case Confirmation(_) => 4
  }

  /**
   * The fields a view offers an input for, i.e. the fields it may pass to the
   * update callback. Confirmation receives no callback and edits nothing.
   */
  function EditableFields(v: View): set<Field>
  {
    match v
    case PersonalInfo(_) => {FirstName, LastName, Email}
    case CompanyDetails(_) => {CompanyName, CompanySize, Industry}
    case ProductPreferences(_) => {ProductInterest}
    case Confirmation(_) => {}
  }

  /** The step whose view holds the input for field f. */
  function EditingStep(f: Field): (k: int)
    ensures 1 <= k <= 3
  {
    match f
    case FirstName | LastName | Email => 1
    case CompanyName | CompanySize | Industry => 2
    case ProductInterest => 3
  }

  /** renderStep: the view for a step number, or nothing outside 1..4. */
  function RenderStep(step: int, data: UserData): (r: Option<View>)
    ensures r.Some? <==> 1 <= step <= 4
    ensures r.Some? ==> StepOf(r.value) == step && r.value.userData == data
  {
    if step == 1 then Some(PersonalInfo(data))
    else if step == 2 then Some(CompanyDetails(data))
    else if step == 3 then Some(ProductPreferences(data))
    else if step == 4 then Some(Confirmation(data))
    else None
  }

  /** Every view is the one rendered at its own step for its own record. */
  lemma RenderStepOf(v: View)
    ensures RenderStep(StepOf(v), v.userData) == Some(v)
  {
  }

  /**
   * Each field is editable at exactly one step, EditingStep(f), and every view
   * but Confirmation passes the update callback to at least one input.
   */
  lemma EditableAtExactlyOneStep(f: Field, step: int, data: UserData)
    requires 1 <= step <= 4
    ensures f in EditableFields(RenderStep(step, data).value) <==> step == EditingStep(f)
    ensures EditableFields(RenderStep(step, data).value) == {} <==> step == 4
  {
  }

  /** The state of one wizard: the step counter and the collected record. */
  datatype WizardState = WizardState(step: int, userData: UserData)

  /** The state a freshly mounted wizard is in. */
  function Initial(): (s: WizardState)
    ensures s.step == 1
    ensures forall f :: Get(s.userData, f) == ""
  {
    WizardState(1, InitialUserData())
  }

  /**
   * What a user can do: type into (or select) an input of the current view,
   * or press one of the footer's buttons.
   */
  datatype Event =
    | Edit(field: Field, value: string)
    | Previous
    | Next
    | CompleteOnboarding

  /**
   * Whether the current screen offers the event: an input exists only in the
   * view of its step; "Previous" is shown when step > 1; "Next" when step < 4
   * and "Complete Onboarding" otherwise.
   */
  predicate Offered(s: WizardState, e: Event)
  {
    match e
    case Edit(f, _) =>
      var view := RenderStep(s.step, s.userData);
      view.Some? && f in EditableFields(view.value)
    case Previous => s.step > 1
    case Next => s.step < 4
    case CompleteOnboarding => !(s.step < 4)
  }

  /** The new state after an event, and the record reported to the log if any. */
  datatype Outcome = Outcome(state: WizardState, report: Option<UserData>)

  /** The effect of an offered event. */
  function Apply(s: WizardState, e: Event): (o: Outcome)
    requires Offered(s, e)
    ensures o.report.Some? <==> e.CompleteOnboarding?
    ensures e.CompleteOnboarding? ==> o.report == Some(s.userData) && o.state == s
    ensures e.Next? ==> o.state.step == s.step + 1
    ensures e.Previous? ==> o.state.step == s.step - 1
    ensures e.Edit? ==> o.state.step == s.step
    ensures e.Edit? ==> Get(o.state.userData, e.field) == e.value
    ensures e.Edit? ==> forall g :: g != e.field ==> Get(o.state.userData, g) == Get(s.userData, g)
    ensures !e.Edit? ==> o.state.userData == s.userData
    ensures 1 <= s.step <= 4 ==> 1 <= o.state.step <= 4
  {
    match e
    case Edit(f, v) => Outcome(WizardState(s.step, Update(s.userData, f, v)), None)
    case Previous => Outcome(s.(step := s.step - 1), None)
    case Next => Outcome(s.(step := s.step + 1), None)
    case CompleteOnboarding => Outcome(s, Some(s.userData))
  }

  /** The state after a sequence of events, or None if one of them was not offered. */
  function Run(s: WizardState, es: seq<Event>): Option<WizardState>
    decreases |es|
  {
    if es == [] then Some(s)
    else if !Offered(s, es[0]) then None
    else Run(Apply(s, es[0]).state, es[1..])
  }

  /** Offered events never take the step counter out of 1..4. */
  lemma {:induction false} RunStaysInBounds(s: WizardState, es: seq<Event>)
    requires 1 <= s.step <= 4
    ensures Run(s, es).Some? ==> 1 <= Run(s, es).value.step <= 4
    decreases |es|
  {
    if es != [] && Offered(s, es[0]) {
      RunStaysInBounds(Apply(s, es[0]).state, es[1..]);
    }
  }

  /**
   * Every state reachable from the initial one by offered events shows a
   * view, its footer offers exactly one of "Next" and "Complete Onboarding",
   * and "Complete Onboarding" is offered there exactly at step 4.
   */
  lemma Reachable(es: seq<Event>)
    ensures Run(Initial(), es).Some? ==>
      var t := Run(Initial(), es).value;
      1 <= t.step <= 4 && RenderStep(t.step, t.userData).Some? &&
      Offered(t, Next) != Offered(t, CompleteOnboarding) &&
      (Offered(t, CompleteOnboarding) <==> t.step == 4)
  {
    RunStaysInBounds(Initial(), es);
  }

  /** "Next" then "Previous" returns to the same state. */
  lemma NextThenPrevious(s: WizardState)
    requires 1 <= s.step
    requires Offered(s, Next)
    ensures Run(s, [Next, Previous]) == Some(s)
  {
  }

  /** "Previous" then "Next" returns to the same state. */
  lemma PreviousThenNext(s: WizardState)
    requires s.step <= 4
    requires Offered(s, Previous)
    ensures Run(s, [Previous, Next]) == Some(s)
  {
  }

  /** The wizard component: its two state cells and its callbacks. */
  class Wizard {
    var step: int
    var userData: UserData

    /** The current state as a value. */
    function State(): WizardState
      reads this
    {
      WizardState(step, userData)
    }

    /** Mounting the component: step 1, every field empty. */
    constructor ()
      ensures State() == Initial()
    {
      step := 1;
      userData := InitialUserData();
    }

    /** updateUserData: field f becomes v; nothing else changes. */
    method UpdateUserData(f: Field, v: string)
      modifies this`userData
      ensures userData == Update(old(userData), f, v)
      ensures step == old(step)
    {
      userData := Update(userData, f, v);
    }

    /** nextStep: one step forward, without any bound. */
    method NextStep()
      modifies this`step
      ensures step == old(step) + 1
      ensures userData == old(userData)
    {
      step := step + 1;
    }

    /** prevStep: one step back, without any bound. */
    method PrevStep()
      modifies this`step
      ensures step == old(step) - 1
      ensures userData == old(userData)
    {
      step := step - 1;
    }

    /** The "Complete Onboarding" handler: reports the record and changes nothing. */
    method ReportCompletion() returns (report: UserData)
      ensures report == userData
    {
      report := userData;
    }

    /** A user event on the current screen, which must offer it. */
    method Handle(e: Event) returns (report: Option<UserData>)
      requires Offered(State(), e)
      modifies this
      ensures State() == Apply(old(State()), e).state
      ensures report == Apply(old(State()), e).report
    {
      match e {
        case Edit(f, v) =>
          UpdateUserData(f, v);
          report := None;
        case Previous =>
          PrevStep();
          report := None;
        case Next =>
          NextStep();
          report := None;
        case CompleteOnboarding =>
          var d := ReportCompletion();
          report := Some(d);
      }
    }
  }
}
