/** The twelve-step booking wizard: the step table, its grouping into sidebar categories, the
    category indicators, the collapsible sidebar, and the booking record the steps fill in. */
module SkylaneBooking {
  import opened Base
  import opened Lists
  import opened StepMachine
  import opened Catalogue
  import PersonalInfo
  import AppointmentScheduling
  import Payment

  const StepCount: int := 12

  /** The sidebar categories, in the order the sidebar lists them. */
  datatype StepCategory = Setup | Documentation | Verification | Information | Booking | Review | PaymentCategory | Complete

  const CategoryOrder: seq<StepCategory> :=
    [Setup, Documentation, Verification, Information, Booking, Review, PaymentCategory, Complete]

  datatype StepDef = StepDef(id: int, title: string, category: StepCategory)

  /** The step table. Documentation (steps 5 and 7) is split by the Verification step 6. */
  const Steps: seq<StepDef> := [
    StepDef(1, "Application Overview", Setup),
    StepDef(2, "Phone Verification", Setup),
    StepDef(3, "Select Service", Setup),
    StepDef(4, "Collect Documents", Setup),
    StepDef(5, "Upload & Pre-verify", Documentation),
    StepDef(6, "Additional Verification", Verification),
    StepDef(7, "Upload Forms & IDs", Documentation),
    StepDef(8, "Personal Information", Information),
    StepDef(9, "Schedule Appointment", Booking),
    StepDef(10, "Preview & Confirm", Review),
    StepDef(11, "Payment", PaymentCategory),
    StepDef(12, "Confirmation", Complete)
  ]

  /** Step `i + 1` sits at index `i` of the table. */
  lemma StepIdsInOrder()
    ensures |Steps| == StepCount
    ensures forall i :: 0 <= i < |Steps| ==> Steps[i].id == i + 1
  {
  }

  predicate IdsAscending(steps: seq<StepDef>)
  {
    forall i, j :: 0 <= i < j < |steps| ==> steps[i].id < steps[j].id
  }

  function InStepCategory(c: StepCategory): StepDef -> bool
  {
    (s: StepDef) => s.category == c
  }

  /** `steps.filter(s => s.category === c)`. */
  function StepsIn(c: StepCategory): seq<StepDef>
  {
    Filter(Steps, InStepCategory(c))
  }

  datatype CategoryGroup = CategoryGroup(category: StepCategory, steps: seq<StepDef>)

  /** `stepCategories`: one group per category, in sidebar order. */
  function StepCategories(): (groups: seq<CategoryGroup>)
    ensures |groups| == |CategoryOrder|
    ensures forall k :: 0 <= k < |groups| ==> groups[k] == CategoryGroup(CategoryOrder[k], StepsIn(CategoryOrder[k]))
  {
    seq(|CategoryOrder|, k requires 0 <= k < |CategoryOrder| => CategoryGroup(CategoryOrder[k], StepsIn(CategoryOrder[k])))
  }

  /** Filtering keeps the ids ascending. */
  lemma {:induction false} FilterKeepsAscending(xs: seq<StepDef>, p: StepDef -> bool)
    requires IdsAscending(xs)
    ensures IdsAscending(Filter(xs, p))
    decreases |xs|
  {
    if xs != [] {
      var rest := Filter(xs[1..], p);
      assert IdsAscending(xs[1..]);
      FilterKeepsAscending(xs[1..], p);
      if p(xs[0]) {
        assert Filter(xs, p) == [xs[0]] + rest;
        HeadBelowRest(xs, rest);
        ConsAscending(xs[0], rest);
      } else {
        assert Filter(xs, p) == rest;
      }
    }
  }

  /** The head of an ascending list is below every element kept from its tail. */
  lemma HeadBelowRest(xs: seq<StepDef>, rest: seq<StepDef>)
    requires xs != [] && IdsAscending(xs)
    requires forall y :: y in rest ==> y in xs[1..]
    ensures forall y :: y in rest ==> xs[0].id < y.id
  {
    forall y | y in rest
      ensures xs[0].id < y.id
    {
      var j :| 0 <= j < |xs[1..]| && xs[1..][j] == y;
      assert xs[j + 1] == y;
    }
  }

  lemma ConsAscending(x: StepDef, rest: seq<StepDef>)
    requires IdsAscending(rest)
    requires forall y :: y in rest ==> x.id < y.id
    ensures IdsAscending([x] + rest)
  {
    var r := [x] + rest;
    forall i, j | 0 <= i < j < |r|
      ensures r[i].id < r[j].id
    {
      if i > 0 {
        assert r[i] == rest[i - 1] && r[j] == rest[j - 1];
      } else {
        assert r[j] in rest;
      }
    }
  }

  /** The sidebar groups partition the table: the sidebar lists every category once, each
      group holds exactly the steps of its own category (so each step appears under exactly one
      group), and each group lists its steps in ascending id order. */
  lemma StepCategoriesPartition()
    ensures forall c :: c in CategoryOrder
    ensures forall j, k :: 0 <= j < k < |CategoryOrder| ==> CategoryOrder[j] != CategoryOrder[k]
    ensures forall s, c :: s in StepsIn(c) <==> s in Steps && s.category == c
    ensures forall c :: IdsAscending(StepsIn(c))
  {
    AllCategoriesListed();
    StepIdsInOrder();
    forall c
      ensures IdsAscending(StepsIn(c))
    {
      FilterKeepsAscending(Steps, InStepCategory(c));
    }
  }

  lemma AllCategoriesListed()
    ensures forall c :: c in CategoryOrder
  {
    forall c
      ensures c in CategoryOrder
    {
      assert CategoryOrder[IndexOfCategory(c)] == c;
    }
  }

  function IndexOfCategory(c: StepCategory): (k: nat)
    ensures k < |CategoryOrder| && CategoryOrder[k] == c
  {
    match c
    case Setup => 0
    case Documentation => 1
    case Verification => 2
    case Information => 3
    case Booking => 4
    case Review => 5
    case PaymentCategory => 6
    case Complete => 7
  }

  /** `steps.find(s => s.id === id)`: the first step with that id, if any. */
  function FindStep(steps: seq<StepDef>, id: int): (r: Option<StepDef>)
    ensures r.Some? <==> exists i :: 0 <= i < |steps| && steps[i].id == id
    ensures r.Some? ==> r.value in steps && r.value.id == id
  {
    if steps == [] then None
    else if steps[0].id == id then Some(steps[0])
    else
      var r := FindStep(steps[1..], id);
      assert forall i :: 1 <= i < |steps| ==> steps[i] == steps[1..][i - 1];
      r
  }

  /** `find` on the table: every step of the wizard is found, and it is the table row of that
      step; no other id is. */
  lemma FindCurrentStep(current: int)
    ensures 1 <= current <= StepCount ==> FindStep(Steps, current) == Some(Steps[current - 1])
    ensures !(1 <= current <= StepCount) ==> FindStep(Steps, current) == None
  {
    StepIdsInOrder();
    var r := FindStep(Steps, current);
    if r.Some? {
      StepInTable(r.value);
    }
  }

  /** A step of the table is the row at its id. */
  lemma StepInTable(s: StepDef)
    requires s in Steps
    ensures 1 <= s.id <= StepCount && s == Steps[s.id - 1]
  {
    StepIdsInOrder();
    var i :| 0 <= i < |Steps| && Steps[i] == s;
  }

  /** The category of the current step, which the sidebar auto-expands. */
  function CategoryOf(current: int): StepCategory
    requires 1 <= current <= StepCount
  {
    Steps[current - 1].category
  }

  /** The three indicators a category header shows. */
  datatype CategoryFlags = CategoryFlags(hasActiveStep: bool, hasCompletedSteps: bool, allCompleted: bool)

  /** A category is active when one of its steps is current, has completed steps when the
      current step is past one of them, and is all completed when past all of them. A category
      is never both active and all completed, and a non-empty category that is all completed
      has completed steps. */
  function Flags(steps: seq<StepDef>, current: int): (f: CategoryFlags)
    ensures !(f.hasActiveStep && f.allCompleted)
    ensures steps != [] && f.allCompleted ==> f.hasCompletedSteps
    ensures f.hasActiveStep <==> exists s :: s in steps && IsActive(current, s.id)
    ensures f.hasCompletedSteps <==> exists s :: s in steps && IsCompleted(current, s.id)
    ensures f.allCompleted <==> forall s :: s in steps ==> IsCompleted(current, s.id)
  {
    assert steps != [] && (forall i :: 0 <= i < |steps| ==> current > steps[i].id) ==> current > steps[0].id;
    CategoryFlags(
      exists i :: 0 <= i < |steps| && steps[i].id == current,
      exists i :: 0 <= i < |steps| && current > steps[i].id,
      forall i :: 0 <= i < |steps| ==> current > steps[i].id)
  }

  /** Exactly one sidebar category is highlighted as active: the category of the current step. */
  lemma ExactlyOneActiveCategory(current: int)
    requires 1 <= current <= StepCount
    ensures forall c :: Flags(StepsIn(c), current).hasActiveStep <==> c == CategoryOf(current)
  {
    StepIdsInOrder();
    forall c
      ensures Flags(StepsIn(c), current).hasActiveStep <==> c == CategoryOf(current)
    {
      var steps := StepsIn(c);
      if c == CategoryOf(current) {
        assert Steps[current - 1] in steps;
      } else {
        forall s | s in steps
          ensures s.id != current
        {
          StepInTable(s);
        }
      }
    }
  }

  /** On the verification step 6, the Documentation category is partly done (step 5 is
      completed, step 7 is not) without being active: the interleaved table shows it in the
      "partly completed" colour. */
  lemma DocumentationPartlyDoneOnStepSix(c: StepCategory, current: int)
    requires c == Documentation && current == 6
    ensures Flags(StepsIn(c), current) == CategoryFlags(false, true, false)
  {
    DocumentationHasFiveAndSeven(c);
    DocumentationExcludesSix(c);
    StepIdsInOrder();
    var f := Flags(StepsIn(c), current);
    assert f.hasCompletedSteps && !f.allCompleted;
  }

  lemma DocumentationHasFiveAndSeven(c: StepCategory)
    requires c == Documentation
    ensures Steps[4] in StepsIn(c) && Steps[6] in StepsIn(c)
  {
    var a, b := Steps[4], Steps[6];
    assert a in Steps && b in Steps;
    assert a.category == Documentation && b.category == Documentation;
    assert InStepCategory(c)(a) && InStepCategory(c)(b);
  }

  lemma DocumentationExcludesSix(c: StepCategory)
    requires c == Documentation
    ensures forall s :: s in StepsIn(c) ==> s.id != 6
  {
    forall s | s in StepsIn(c)
      ensures s.id != 6
    {
      StepInTable(s);
    }
  }

  datatype BookingData = BookingData(
    service: string,
    documents: seq<string>,
    uploadedFiles: seq<File>,
    phoneNumber: string,
    isPhoneVerified: bool,
    formsAndIds: map<string, seq<File>>,
    personalInfo: PersonalInfo.Info,
    appointment: AppointmentScheduling.Appointment,
    payment: Payment.PaymentDetails)

  /** A `Partial<BookingData>`: the keys present in an update. */
  datatype BookingPatch = BookingPatch(
    service: Option<string>,
    documents: Option<seq<string>>,
    uploadedFiles: Option<seq<File>>,
    phoneNumber: Option<string>,
    isPhoneVerified: Option<bool>,
    formsAndIds: Option<map<string, seq<File>>>,
    personalInfo: Option<PersonalInfo.Info>,
    appointment: Option<AppointmentScheduling.Appointment>,
    payment: Option<Payment.PaymentDetails>)

  const NoChange := BookingPatch(None, None, None, None, None, None, None, None, None)

  const InitialBooking := BookingData("", [], [], "", false, map[], map[],
    AppointmentScheduling.Appointment("", "", ""), Payment.PaymentDetails("", "", "", 0))

  /** `{ ...prev, ...data }`: each key present in the patch takes its value, the others stay. */
  function MergeBooking(d: BookingData, p: BookingPatch): (r: BookingData)
    ensures r.service == Pick(p.service, d.service) && r.documents == Pick(p.documents, d.documents)
    ensures r.uploadedFiles == Pick(p.uploadedFiles, d.uploadedFiles)
    ensures r.phoneNumber == Pick(p.phoneNumber, d.phoneNumber)
    ensures r.isPhoneVerified == Pick(p.isPhoneVerified, d.isPhoneVerified)
    ensures r.formsAndIds == Pick(p.formsAndIds, d.formsAndIds)
    ensures r.personalInfo == Pick(p.personalInfo, d.personalInfo)
    ensures r.appointment == Pick(p.appointment, d.appointment)
    ensures r.payment == Pick(p.payment, d.payment)
    ensures p == NoChange ==> r == d
  {
    BookingData(
      Pick(p.service, d.service), Pick(p.documents, d.documents),
      Pick(p.uploadedFiles, d.uploadedFiles), Pick(p.phoneNumber, d.phoneNumber),
      Pick(p.isPhoneVerified, d.isPhoneVerified), Pick(p.formsAndIds, d.formsAndIds),
      Pick(p.personalInfo, d.personalInfo), Pick(p.appointment, d.appointment),
      Pick(p.payment, d.payment))
  }

  /** The phone-verification callback sets only the verified flag; a merge applied twice is
      applied once. */
  lemma MergeBookingLaws(d: BookingData, p: BookingPatch)
    ensures MergeBooking(d, NoChange.(isPhoneVerified := Some(true))) == d.(isPhoneVerified := true)
    ensures MergeBooking(MergeBooking(d, p), p) == MergeBooking(d, p)
  {
  }

  /** The sidebar state on first render: only Setup is open. */
  function InitialExpanded(): (m: map<StepCategory, bool>)
    ensures forall c :: c in m && (m[c] <==> c == Setup)
  {
    AllCategoriesListed();
    map c: StepCategory | c in CategoryOrder :: c == Setup
  }

  /** `toggleCategory`: the named category flips (a missing key counts as closed), the others
      stay. */
  function Toggle(m: map<StepCategory, bool>, c: StepCategory): (r: map<StepCategory, bool>)
    ensures r.Keys == m.Keys + {c}
    ensures r[c] == !(c in m && m[c])
    ensures forall d :: d in m && d != c ==> r[d] == m[d]
  {
    m[c := !(c in m && m[c])]
  }

  /** Toggling a category twice restores the sidebar. */
  lemma ToggleTwice(m: map<StepCategory, bool>, c: StepCategory)
    requires c in m
    ensures Toggle(Toggle(m, c), c) == m
  {
    var r := Toggle(Toggle(m, c), c);
    assert r.Keys == m.Keys;
    forall d | d in m
      ensures r[d] == m[d]
    {
    }
  }

  /** The auto-expand effect: the category of the found step is opened, nothing else moves. */
  function ExpandFor(m: map<StepCategory, bool>, current: int): (r: map<StepCategory, bool>)
    ensures 1 <= current <= StepCount ==> r == m[CategoryOf(current) := true]
    ensures !(1 <= current <= StepCount) ==> r == m
  {
    FindCurrentStep(current);
    match FindStep(Steps, current)
    case None => m
    case Some(step) => m[step.category := true]
  }

  class Booking {
    var currentStep: int
    var expandedCategories: map<StepCategory, bool>
    var bookingData: BookingData
    const applicationParams: ApplicationParams

    /** The step is within the table and every category has an open/closed entry. */
    predicate Valid()
      reads this
    {
      1 <= currentStep <= StepCount && forall c :: c in expandedCategories
    }

    /** `expandedCategories[name]`, with a missing key read as closed. */
    function IsExpanded(c: StepCategory): bool
      reads this
    {
      c in expandedCategories && expandedCategories[c]
    }

    /** The wizard opens on step 1 with only Setup expanded and an empty booking; the mount-time
        run of the auto-expand effect opens Setup, which already is. */
    constructor (params: ApplicationParams)
      ensures Valid() && currentStep == 1 && bookingData == InitialBooking
      ensures expandedCategories == InitialExpanded()
      ensures applicationParams == params
    {
      currentStep := 1;
      bookingData := InitialBooking;
      applicationParams := params;
      var initial := InitialExpanded();
      FindCurrentStep(1);
      assert initial[Setup := true] == initial;
      expandedCategories := ExpandFor(initial, 1);
    }

    /** `handleNext`, followed by the auto-expand effect when the step changed: the new step's
        category is open and no other category moved. */
    method HandleNext()
      requires Valid()
      modifies this
      ensures Valid() && currentStep == Next(old(currentStep), StepCount)
      ensures bookingData == old(bookingData)
      ensures currentStep != old(currentStep) ==>
        expandedCategories == old(expandedCategories)[CategoryOf(currentStep) := true]
      ensures currentStep == old(currentStep) ==> expandedCategories == old(expandedCategories)
    {
      if currentStep < StepCount {
        currentStep := currentStep + 1;
        expandedCategories := ExpandFor(expandedCategories, currentStep);
      }
    }

    /** `handlePrevious`, followed by the auto-expand effect when the step changed. */
    method HandlePrevious()
      requires Valid()
      modifies this
      ensures Valid() && currentStep == Previous(old(currentStep))
      ensures bookingData == old(bookingData)
      ensures currentStep != old(currentStep) ==>
        expandedCategories == old(expandedCategories)[CategoryOf(currentStep) := true]
      ensures currentStep == old(currentStep) ==> expandedCategories == old(expandedCategories)
    {
      if currentStep > 1 {
        currentStep := currentStep - 1;
        expandedCategories := ExpandFor(expandedCategories, currentStep);
      }
    }

    /** `toggleCategory`: a click on a category header. */
    method ToggleCategory(c: StepCategory)
      requires Valid()
      modifies this
      ensures Valid() && expandedCategories == Toggle(old(expandedCategories), c)
      ensures IsExpanded(c) == !old(IsExpanded(c))
      ensures currentStep == old(currentStep) && bookingData == old(bookingData)
    {
      expandedCategories := Toggle(expandedCategories, c);
    }

    /** `updateBookingData`: a shallow merge; the step and the sidebar do not move. */
    method UpdateBookingData(patch: BookingPatch)
      requires Valid()
      modifies this
      ensures Valid() && bookingData == MergeBooking(old(bookingData), patch)
      ensures currentStep == old(currentStep) && expandedCategories == old(expandedCategories)
    {
      bookingData := MergeBooking(bookingData, patch);
    }
  }

  /** Walking forward from step 1 to step 6 opens the categories the steps pass through. */
  method WalkToVerification(params: ApplicationParams) returns (open: map<StepCategory, bool>)
    ensures forall c :: c in open
    ensures open[Setup] && open[Documentation] && open[Verification]
    ensures !open[Information] && !open[Booking] && !open[Complete]
  {
    var wizard := new Booking(params);
    var k := 0;
    while k < 5
      invariant 0 <= k <= 5
      invariant wizard.Valid() && wizard.currentStep == k + 1
      invariant forall c :: wizard.expandedCategories[c] <==>
        c == Setup || (k >= 4 && c == Documentation) || (k >= 5 && c == Verification)
    {
      wizard.HandleNext();
      k := k + 1;
    }
    open := wizard.expandedCategories;
  }
}
