/** The order form's shared types and constant tables (src/types/index.ts). */
module OrderTypes {
  import opened Browser

  /** `OrderFormStep = 1 | 2 | 3 | 4`. */
  type FormStep = n: int | 1 <= n <= 4 witness 1

  /** `'small' | 'medium' | 'large'`. */
  datatype Scale = Small | Medium | Large

  /** The string a scale is stored as. */
  function ScaleName(s: Scale): string {
    match s
    case Small => "small"
    case Medium => "medium"
    case Large => "large"
  }

  /** A budget range in won, `[min, max]`. */
  datatype Budget = Budget(min: int, max: int)

  /** `PROJECT_SCALES[scale].budget`. */
  function ScaleBudget(s: Scale): Budget {
    match s
    case Small => Budget(10_000_000, 100_000_000)
    case Medium => Budget(100_000_000, 500_000_000)
    case Large => Budget(500_000_000, 2_000_000_000)
  }

  /** The `id`s of `SERVICE_TYPE_OPTIONS`, in order. */
  const ServiceTypeIds: seq<string> := ["design", "monitoring", "control", "education"]

  /** The section names of `OrderFormData`, one per wizard step. */
  const SectionNames: seq<string> := ["customer", "project", "requirements", "agreements"]

  datatype Customer = Customer(
    companyName: string,
    contactPerson: string,
    phone: string,
    email: string,
    address: string,
    businessNumber: string)  // optional (`businessNumber?`); '' when not given

  datatype Project = Project(
    serviceTypes: seq<string>,
    projectScale: Scale,
    budgetMin: int,
    budgetMax: int,
    expectedCompletion: string,
    description: string)

  datatype Requirements = Requirements(
    detailedDescription: string,
    attachments: seq<FileInfo>,
    siteVisitRequired: bool,
    additionalNotes: string)

  datatype Agreements = Agreements(
    privacyPolicy: bool,
    termsOfService: bool,
    marketingConsent: bool)

  /** `OrderFormData`: step 1 fills `customer`, step 2 `project`, step 3
      `requirements` and step 4 `agreements`. */
  datatype OrderFormData = OrderFormData(
    customer: Customer,
    project: Project,
    requirements: Requirements,
    agreements: Agreements)

  lemma FormStepIsOneToFour(s: FormStep)
    ensures s == 1 || s == 2 || s == 3 || s == 4
  {
  }

  lemma ScaleBudgetsAreRanges(s: Scale)
    ensures 0 < ScaleBudget(s).min < ScaleBudget(s).max
  {
  }

  lemma ScaleRangesAdjoin()
    ensures ScaleBudget(Small).max == ScaleBudget(Medium).min == 100_000_000
    ensures ScaleBudget(Medium).max == ScaleBudget(Large).min == 500_000_000
  {
  }

  lemma ServiceTypeIdsDistinct()
    ensures forall i, j :: 0 <= i < j < |ServiceTypeIds| ==> ServiceTypeIds[i] != ServiceTypeIds[j]
  {
  }

  lemma OneSectionPerStep()
    ensures |SectionNames| == 4
    ensures forall i, j :: 0 <= i < j < |SectionNames| ==> SectionNames[i] != SectionNames[j]
  {
  }
}
