/** The four-step order wizard (src/components/OrderForm.tsx): the step machine,
    the per-step validation table, the attachment list and the submit sequence. The
    form values that react-hook-form keeps are the field `data`; its validation
    engine is replaced by the declared rules of `OrderFormSteps`. */
module OrderWizard {
  import opened Text
  import opened Browser
  import opened OrderTypes
  import opened OrderFormSteps
  import Utils

  /** The `defaultValues` given to `useForm`. */
  function DefaultData(): (d: OrderFormData)
    ensures d.project.projectScale == Medium
    ensures Budget(d.project.budgetMin, d.project.budgetMax) == ScaleBudget(Medium)
    ensures d.customer.companyName == "" && d.customer.contactPerson == "" && d.customer.phone == ""
    ensures d.customer.email == "" && d.customer.address == "" && d.customer.businessNumber == ""
    ensures d.project.expectedCompletion == "" && d.project.description == ""
    ensures d.requirements.detailedDescription == "" && d.requirements.additionalNotes == ""
    ensures !d.requirements.siteVisitRequired
    ensures d.project.serviceTypes == [] && d.requirements.attachments == []
    ensures !d.agreements.privacyPolicy && !d.agreements.termsOfService && !d.agreements.marketingConsent
  {
    OrderFormData(
      Customer("", "", "", "", "", ""),
      Project([], Medium, 100_000_000, 500_000_000, "", ""),
      Requirements("", [], false, ""),
      Agreements(false, false, false))
  }

  /** `stepFields` in `validateCurrentStep`: the fields `trigger` checks per step. */
  function StepFields(step: FormStep): seq<Field> {
    match step
    case 1 => [CompanyName, ContactPerson, Phone, Email, Address]
    case 2 => [ServiceTypes, ProjectScale, ExpectedCompletion, Description]
    case 3 => [DetailedDescription]
    case 4 => [PrivacyPolicy, TermsOfService]
  }

  /** `validateCurrentStep()`: every field of the step passes its rule. */
  predicate StepValid(step: FormStep, data: OrderFormData, clock: Clock) {
    forall k :: 0 <= k < |StepFields(step)| ==> FieldValid(StepFields(step)[k], data, clock)
  }

  /** The business number is in no step's list, so no step ever checks it. */
  lemma BusinessNumberNeverValidated(step: FormStep, data: OrderFormData, clock: Clock, b: string)
    ensures StepValid(step, data.(customer := data.customer.(businessNumber := b)), clock)
        == StepValid(step, data, clock)
  {
    var data' := data.(customer := data.customer.(businessNumber := b));
    forall k | 0 <= k < |StepFields(step)|
      ensures FieldValid(StepFields(step)[k], data', clock) == FieldValid(StepFields(step)[k], data, clock)
    {
      var f := StepFields(step)[k];
      assert f != BusinessNumber;
      FieldIgnoresBusinessNumber(f, data, clock, b);
    }
  }

  /** Only the business number's own rule reads the business number. */
  lemma FieldIgnoresBusinessNumber(f: Field, data: OrderFormData, clock: Clock, b: string)
    requires f != BusinessNumber
    ensures FieldValid(f, data.(customer := data.customer.(businessNumber := b)), clock)
        == FieldValid(f, data, clock)
  {
  }

  /** Passing all four steps is exactly passing every rule except the business number's. */
  lemma AllStepsMeanAllRules(data: OrderFormData, clock: Clock)
    ensures (StepValid(1, data, clock) && StepValid(2, data, clock) && StepValid(3, data, clock)
             && StepValid(4, data, clock))
        <==> forall f: Field :: f != BusinessNumber ==> FieldValid(f, data, clock)
  {
    if StepValid(1, data, clock) && StepValid(2, data, clock) && StepValid(3, data, clock)
       && StepValid(4, data, clock)
    {
      forall f: Field | f != BusinessNumber ensures FieldValid(f, data, clock) {
        match f
        case CompanyName => assert StepFields(1)[0] == f;
        case ContactPerson => assert StepFields(1)[1] == f;
        case Phone => assert StepFields(1)[2] == f;
        case Email => assert StepFields(1)[3] == f;
        case Address => assert StepFields(1)[4] == f;
        case ServiceTypes => assert StepFields(2)[0] == f;
        case ProjectScale => assert StepFields(2)[1] == f;
        case ExpectedCompletion => assert StepFields(2)[2] == f;
        case Description => assert StepFields(2)[3] == f;
        case DetailedDescription => assert StepFields(3)[0] == f;
        case PrivacyPolicy => assert StepFields(4)[0] == f;
        case TermsOfService => assert StepFields(4)[1] == f;
      }
    }
  }

  /** The defaults pass no step: every step needs input. */
  lemma DefaultDataPassesNoStep(step: FormStep, clock: Clock)
    ensures !StepValid(step, DefaultData(), clock)
  {
    assert !FieldValid(StepFields(step)[0], DefaultData(), clock);
  }

  /** `(currentStep / 4) * 100`. */
  function Progress(step: FormStep): (p: int)
    ensures 4 * p == 100 * step
    ensures p == 25 || p == 50 || p == 75 || p == 100
  {
    25 * step
  }

  /** The navigation row: Prev (disabled at step 1), then Next below step 4 or the
      submit button at step 4. */
  datatype Navigation = Navigation(prevEnabled: bool, next: bool, submit: bool)

  function NavigationAt(step: FormStep): (n: Navigation)
    ensures n.prevEnabled <==> step > 1
    ensures n.next <==> !n.submit
    ensures n.submit <==> step == 4
  {
    Navigation(step != 1, step < 4, !(step < 4))
  }

  // ----- attachments -----

  /** A file passes `handleFileUpload`'s filter: at most 10 MB and of an allowed type
      under the default list of src/utils.ts. */
  predicate Acceptable(f: FileInfo) {
    Utils.ValidateFileSize(f, 10) && Utils.ValidateFileType(f, Utils.DefaultAllowedTypes)
  }

  /** `files.filter(...)`: the acceptable files, in selection order. */
  function Accepted(files: seq<FileInfo>): (r: seq<FileInfo>)
    ensures |r| <= |files|
    ensures forall f :: f in r ==> Acceptable(f)
    ensures forall f :: Acceptable(f) ==> multiset(r)[f] == multiset(files)[f]
  {
    if files == [] then []
    else
      assert files == [files[0]] + files[1..];
      (if Acceptable(files[0]) then [files[0]] else []) + Accepted(files[1..])
  }

  /** Filtering a selection piece by piece gives the same list, in the same order. */
  lemma {:induction false} AcceptedConcat(a: seq<FileInfo>, b: seq<FileInfo>)
    ensures Accepted(a + b) == Accepted(a) + Accepted(b)
  {
    if a == [] {
      assert a + b == b;
    } else {
      assert (a + b)[0] == a[0] && (a + b)[1..] == a[1..] + b;
      AcceptedConcat(a[1..], b);
    }
  }

  /** An ordinary PDF never becomes an attachment. */
  lemma PdfNeverAttached(f: FileInfo)
    requires f.mime == "application/pdf" && EndsWith(ToLower(f.name), ".pdf")
    ensures Accepted([f]) == []
  {
    Utils.DefaultTypesRejectPdf(f);
  }

  /** `list.filter((_, i) => i !== index)`. */
  function DropIndex<T>(s: seq<T>, index: int): seq<T> {
    if s == [] then []
    else (if index == 0 then [] else [s[0]]) + DropIndex(s[1..], index - 1)
  }

  /** Dropping index i removes exactly the element at i when i is in range and
      nothing otherwise, keeping the order of the rest. */
  lemma {:induction false} DropIndexRemovesOne<T>(s: seq<T>, index: int)
    ensures DropIndex(s, index) == if 0 <= index < |s| then s[..index] + s[index + 1..] else s
  {
    if s != [] {
      DropIndexRemovesOne(s[1..], index - 1);
      if 0 < index < |s| {
        assert s[..index] == [s[0]] + s[1..][..index - 1];
        assert s[index + 1..] == s[1..][index..];
      } else if index == 0 {
        assert s[..0] + s[1..] == s[1..];
      } else {
        assert s == [s[0]] + s[1..];
      }
    }
  }

  // ----- the form values as stored -----

  function StringArray(s: seq<string>): Value {
    Arr(seq(|s|, i requires 0 <= i < |s| => Str(s[i])))
  }

  /** `getValues()`: the form values as a plain object, one record per section;
      the attachments are the `File` objects themselves. */
  function ToRecord(d: OrderFormData): (r: map<string, Value>)
    ensures r.Keys == {"customer", "project", "requirements", "agreements"}
  {
    map[
      "customer" := CustomerRecord(d.customer),
      "project" := ProjectRecord(d.project),
      "requirements" := RequirementsRecord(d.requirements),
      "agreements" := AgreementsRecord(d.agreements)
    ]
  }

  function CustomerRecord(c: Customer): Value {
    Obj(map[
      "companyName" := Str(c.companyName),
      "contactPerson" := Str(c.contactPerson),
      "phone" := Str(c.phone),
      "email" := Str(c.email),
      "address" := Str(c.address),
      "businessNumber" := Str(c.businessNumber)])
  }

  function ProjectRecord(p: Project): Value {
    Obj(map[
      "serviceTypes" := StringArray(p.serviceTypes),
      "projectScale" := Str(ScaleName(p.projectScale)),
      "budgetMin" := Num(p.budgetMin),
      "budgetMax" := Num(p.budgetMax),
      "expectedCompletion" := Str(p.expectedCompletion),
      "description" := Str(p.description)])
  }

  function RequirementsRecord(q: Requirements): Value {
    Obj(RequirementsFields(q, FileArray(q.attachments)))
  }

  /** The requirements section with `attachments` holding the given value. */
  function RequirementsFields(q: Requirements, attachments: Value): map<string, Value> {
    map[
      "detailedDescription" := Str(q.detailedDescription),
      "attachments" := attachments,
      "siteVisitRequired" := Bool(q.siteVisitRequired),
      "additionalNotes" := Str(q.additionalNotes)]
  }

  function AgreementsRecord(a: Agreements): Value {
    Obj(map[
      "privacyPolicy" := Bool(a.privacyPolicy),
      "termsOfService" := Bool(a.termsOfService),
      "marketingConsent" := Bool(a.marketingConsent)])
  }

  /** `orderFormUtils.validateStep` of src/utils.ts looks for flat keys such as
      `companyName`, which the wizard's nested record never has: it would refuse
      every wizard draft. */
  lemma LegacyValidateStepRejectsWizardData(step: int, d: OrderFormData)
    ensures !Utils.ValidateStep(step, ToRecord(d))
  {
    var r := ToRecord(d);
    assert "companyName" !in r && "serviceType" !in r && "budget" !in r;
  }

  /** What `JSON.stringify(getValues())` stores: every attachment comes back as
      `{}`, and every other value as it was. */
  lemma StoredRecord(d: OrderFormData)
    ensures var r, stored := ToRecord(d), JsonObject(ToRecord(d));
      && stored.Keys == r.Keys
      && stored["customer"] == r["customer"]
      && stored["project"] == r["project"]
      && stored["agreements"] == r["agreements"]
      && stored["requirements"] == Obj(RequirementsFields(d.requirements,
           Arr(seq(|d.requirements.attachments|, _ => Obj(map[])))))
  {
    var r := ToRecord(d);
    CleanJsonValue(CustomerRecord(d.customer));
    ProjectRecordIsClean(d.project);
    CleanJsonValue(ProjectRecord(d.project));
    CleanJsonValue(AgreementsRecord(d.agreements));
    StoredRequirements(d.requirements);
    assert JsonObject(r).Keys == r.Keys;
  }

  lemma ProjectRecordIsClean(p: Project)
    ensures JsonClean(ProjectRecord(p))
  {
    var a := StringArray(p.serviceTypes);
    assert forall k :: 0 <= k < |a.items| ==> a.items[k] == Str(p.serviceTypes[k]);
    assert JsonClean(a);
  }

  lemma StoredRequirements(q: Requirements)
    ensures JsonValue(RequirementsRecord(q))
      == Obj(RequirementsFields(q, Arr(seq(|q.attachments|, _ => Obj(map[])))))
  {
    var fields := RequirementsFields(q, FileArray(q.attachments));
    var empties := Arr(seq(|q.attachments|, _ => Obj(map[])));
    StoredAttachments(q.attachments);
    var stored := JsonObject(fields);
    assert stored.Keys == fields.Keys;
    assert stored["attachments"] == empties;
    CleanJsonValue(fields["detailedDescription"]);
    CleanJsonValue(fields["siteVisitRequired"]);
    CleanJsonValue(fields["additionalNotes"]);
    assert stored == RequirementsFields(q, empties);
  }

  /** Each `File` of the list is written as `{}`. */
  lemma StoredAttachments(files: seq<FileInfo>)
    ensures JsonValue(FileArray(files)) == Arr(seq(|files|, _ => Obj(map[])))
  {
    var a := JsonValue(FileArray(files)).items;
    assert |a| == |files|;
    forall k | 0 <= k < |files| ensures a[k] == Obj(map[]) {
      assert FileArray(files).items[k] == FileObj(files[k]);
      assert a[k] == JsonValue(FileObj(files[k]));
    }
  }

  /** The component's state slots. */
  class OrderForm {
    var currentStep: FormStep
    var isSubmitting: bool
    var orderNumber: string
    var uploadedFiles: seq<FileInfo>
    var data: OrderFormData
    const store: LocalStorage

    constructor (store: LocalStorage)
      ensures this.store == store
      ensures currentStep == 1 && !isSubmitting && orderNumber == ""
      ensures uploadedFiles == [] && data == DefaultData()
    {
      this.store := store;
      currentStep := 1;
      isSubmitting := false;
      orderNumber := "";
      uploadedFiles := [];
      data := DefaultData();
    }

    /** `saveCurrentStep()`: the whole form under the current step's draft key. */
    method SaveCurrentStep()
      modifies store
      ensures store.items == old(store.items)[Utils.DraftKey(currentStep) := Object(JsonObject(ToRecord(data)))]
    {
      Utils.SaveStepData(store, currentStep, ToRecord(data));
    }

    /** `goToNextStep()`: on a valid step, save the draft and advance (at most to 4);
        otherwise change nothing. */
    method GoToNextStep(clock: Clock)
      modifies this, store
      ensures data == old(data) && uploadedFiles == old(uploadedFiles)
      ensures isSubmitting == old(isSubmitting) && orderNumber == old(orderNumber)
      ensures StepValid(old(currentStep), data, clock) ==>
        && currentStep == (if old(currentStep) < 4 then old(currentStep) + 1 else 4)
        && store.items == old(store.items)[Utils.DraftKey(old(currentStep)) := Object(JsonObject(ToRecord(data)))]
      ensures !StepValid(old(currentStep), data, clock) ==>
        currentStep == old(currentStep) && store.items == old(store.items)
    {
      if StepValid(currentStep, data, clock) {
        SaveCurrentStep();
        currentStep := if currentStep < 4 then currentStep + 1 else 4;
      }
    }

    /** `goToPrevStep()`: save the draft without validating, then step back (at
        least to 1). At step 4 this writes the step-4 draft, which
        `Utils.LoadIgnoresStep4` and `Utils.ClearKeepsStep4AndCompleted` show is
        never read back nor removed. */
    method GoToPrevStep()
      modifies this, store
      ensures data == old(data) && uploadedFiles == old(uploadedFiles)
      ensures isSubmitting == old(isSubmitting) && orderNumber == old(orderNumber)
      ensures currentStep == (if old(currentStep) > 1 then old(currentStep) - 1 else 1)
      ensures store.items == old(store.items)[Utils.DraftKey(old(currentStep)) := Object(JsonObject(ToRecord(data)))]
    {
      SaveCurrentStep();
      currentStep := if currentStep > 1 then currentStep - 1 else 1;
    }

    /** A scale radio click and the `Step2Form` effect it sets off. */
    method SelectScale(s: Scale)
      modifies this
      ensures data == old(data).(project := ApplyScale(old(data).project, s))
      ensures currentStep == old(currentStep) && uploadedFiles == old(uploadedFiles)
      ensures isSubmitting == old(isSubmitting) && orderNumber == old(orderNumber)
    {
      data := data.(project := ApplyScale(data.project, s));
    }

    /** A service checkbox's `onChange`. */
    method ToggleServiceType(id: string, checked: bool)
      modifies this
      ensures data == old(data).(project := old(data).project.(
        serviceTypes := ToggleService(old(data).project.serviceTypes, id, checked)))
      ensures currentStep == old(currentStep) && uploadedFiles == old(uploadedFiles)
      ensures isSubmitting == old(isSubmitting) && orderNumber == old(orderNumber)
    {
      data := data.(project := data.project.(serviceTypes := ToggleService(data.project.serviceTypes, id, checked)));
    }

    /** `handleFileUpload`: append the acceptable files of the selection, in order;
        the form's attachments follow the list. */
    method HandleFileUpload(files: seq<FileInfo>)
      modifies this
      ensures uploadedFiles == old(uploadedFiles) + Accepted(files)
      ensures data == old(data).(requirements := old(data).requirements.(attachments := uploadedFiles))
      ensures currentStep == old(currentStep)
      ensures isSubmitting == old(isSubmitting) && orderNumber == old(orderNumber)
    {
      var validFiles := Accepted(files);
      data := data.(requirements := data.requirements.(attachments := uploadedFiles + validFiles));
      uploadedFiles := uploadedFiles + validFiles;
    }

    /** `removeFile(index)`: exactly the attachment at `index` goes. */
    method RemoveFile(index: int)
      modifies this
      ensures uploadedFiles ==
        if 0 <= index < |old(uploadedFiles)| then old(uploadedFiles)[..index] + old(uploadedFiles)[index + 1..]
        else old(uploadedFiles)
      ensures data == old(data).(requirements := old(data).requirements.(attachments := uploadedFiles))
      ensures currentStep == old(currentStep)
      ensures isSubmitting == old(isSubmitting) && orderNumber == old(orderNumber)
    {
      var newFiles := DropIndex(uploadedFiles, index);
      DropIndexRemovesOne(uploadedFiles, index);
      uploadedFiles := newFiles;
      data := data.(requirements := data.requirements.(attachments := newFiles));
    }

    /** `onSubmit(data)`. `generated` is the number `generateOrderNumber` of
        src/utils.ts returned (it is random); `storageWorks` is false when writing
        the completed order throws, which skips the rest of the `try`. */
    method OnSubmit(generated: string, storageWorks: bool)
      modifies this, store
      ensures !isSubmitting && orderNumber == generated
      ensures data == old(data) && uploadedFiles == old(uploadedFiles) && currentStep == old(currentStep)
      ensures var record := Object(JsonObject(ToRecord(data)["orderNumber" := Str(generated)]));
        storageWorks ==> store.items == old(store.items)[Utils.CompletedKey := record] - Utils.TempKeys()
      ensures !storageWorks ==> store.items == old(store.items)
      ensures storageWorks ==>
        && Utils.CompletedKey in store.items
        && store.items[Utils.CompletedKey] == Object(JsonObject(ToRecord(data)["orderNumber" := Str(generated)]))
        && forall k :: k in Utils.TempKeys() ==> k !in store.items
    {
      isSubmitting := true;
      orderNumber := generated;
      if storageWorks {
        Utils.SaveFormData(store, ToRecord(data)["orderNumber" := Str(generated)]);
        Utils.ClearTempData(store);
        Utils.ClearKeepsStep4AndCompleted();
      }
      isSubmitting := false;
    }
  }
}
