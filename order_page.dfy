/** The stand-alone order page (src/pages/OrderPage.tsx): a guarded step counter
    over steps 1..4, a record of three sections updated one field at a time, the
    scope checkboxes and the file picker. */
module OrderPage {
  import opened Text
  import opened Browser
  import opened OrderTypes
  import OrderWizard

  /** The initial `formData`: three sections, all text empty, no scope, no files. */
  function InitialFormData(): (r: map<string, map<string, Value>>)
    ensures r.Keys == {"customerInfo", "projectInfo", "requirements"}
    ensures "scope" in r["requirements"] && r["requirements"]["scope"] == Arr([])
    ensures "files" in r["requirements"] && r["requirements"]["files"] == Arr([])
  {
    map[
      "customerInfo" := map[
        "name" := Str(""), "company" := Str(""), "position" := Str(""),
        "phone" := Str(""), "email" := Str(""), "address" := Str("")],
      "projectInfo" := map[
        "title" := Str(""), "type" := Str(""), "description" := Str(""),
        "timeline" := Str(""), "budget" := Str("")],
      "requirements" := map[
        "scope" := Arr([]), "features" := Str(""), "files" := Arr([])]
    ]
  }

  /** The new scope list of a checkbox `onChange`: append when checked, filter every
      copy out when unchecked. */
  function ToggleScope(scope: seq<Value>, option: string, checked: bool): (r: seq<Value>)
    ensures checked ==> r == scope + [Str(option)]
    ensures !checked ==> Str(option) !in r && |r| <= |scope|
    ensures !checked ==> forall x :: x != Str(option) ==> multiset(r)[x] == multiset(scope)[x]
    ensures !checked ==> SubsequenceOf(r, scope)
  {
    if checked then scope + [Str(option)]
    else
      var r := Without(scope, Str(option));
      forall x | x != Str(option) ensures multiset(r)[x] == multiset(scope)[x] {
        WithoutKeepsOthers(scope, Str(option), x);
      }
      WithoutIsSubsequence(scope, Str(option));
      r
  }

  /** The box shows as checked (`scope.includes(option)`) exactly as it was last set. */
  lemma ToggleScopeShowsChecked(scope: seq<Value>, option: string, checked: bool)
    ensures (Str(option) in ToggleScope(scope, option, checked)) == checked
  {
    if checked {
      assert ToggleScope(scope, option, checked)[|scope|] == Str(option);
    }
  }

  /** Checking an unchecked option and unchecking it again restores the list. */
  lemma ToggleScopeRoundTrip(scope: seq<Value>, option: string)
    requires Str(option) !in scope
    ensures ToggleScope(ToggleScope(scope, option, true), option, false) == scope
  {
    WithoutConcat(scope, [Str(option)], Str(option));
    WithoutAbsent(scope, Str(option));
    assert Without([Str(option)], Str(option)) == [];
  }

  /** Which navigation buttons show: none on step 4; otherwise Prev above step 1,
      Next on steps 1 and 2, the submit button on step 3. */
  datatype Buttons = Buttons(prev: bool, next: bool, submit: bool)

  function ButtonsAt(step: FormStep): (b: Buttons)
    ensures b.prev <==> 1 < step < 4
    ensures b.next <==> step <= 2
    ensures b.submit <==> step == 3
    ensures step == 4 ==> !b.prev && !b.next && !b.submit
  {
    if step < 4 then Buttons(step > 1, step < 3, !(step < 3))
    else Buttons(false, false, false)
  }

  /** The page and the wizard side by side: the wizard always offers exactly one
      way forward, the page one on steps 1..3 and none on its confirmation step 4;
      the page submits from step 3, one step before the wizard does, and only the
      wizard lets the user go back from step 4. */
  lemma ForwardControls(step: FormStep)
    ensures OrderWizard.NavigationAt(step).next != OrderWizard.NavigationAt(step).submit
    ensures (ButtonsAt(step).next || ButtonsAt(step).submit) <==> step < 4
    ensures !(ButtonsAt(step).next && ButtonsAt(step).submit)
    ensures step < 4 ==> (ButtonsAt(step).submit <==> OrderWizard.NavigationAt(step + 1).submit)
    ensures ButtonsAt(step).prev ==> OrderWizard.NavigationAt(step).prevEnabled
    ensures step == 4 ==> OrderWizard.NavigationAt(step).prevEnabled && !ButtonsAt(step).prev
  {
  }

  /** The page's state slots. */
  class OrderPageState {
    var currentStep: FormStep
    var formData: map<string, map<string, Value>>
    var isSubmitting: bool

    constructor ()
      ensures currentStep == 1 && formData == InitialFormData() && !isSubmitting
    {
      currentStep := 1;
      formData := InitialFormData();
      isSubmitting := false;
    }

    /** `handleNext`: one step forward, only below step 4. */
    method HandleNext()
      modifies this
      ensures currentStep == if old(currentStep) < 4 then old(currentStep) + 1 else old(currentStep)
      ensures formData == old(formData) && isSubmitting == old(isSubmitting)
    {
      if currentStep < 4 {
        currentStep := currentStep + 1;
      }
    }

    /** `handlePrev`: one step back, only above step 1. */
    method HandlePrev()
      modifies this
      ensures currentStep == if old(currentStep) > 1 then old(currentStep) - 1 else old(currentStep)
      ensures formData == old(formData) && isSubmitting == old(isSubmitting)
    {
      if currentStep > 1 {
        currentStep := currentStep - 1;
      }
    }

    /** `handleSubmit`, first half: the button turns into a spinner. */
    method HandleSubmit()
      modifies this
      ensures isSubmitting
      ensures currentStep == old(currentStep) && formData == old(formData)
    {
      isSubmitting := true;
    }

    /** The 2-second timer `handleSubmit` starts: the page moves to the completion
        step and the spinner stops. */
    method SubmitTimerFires()
      modifies this
      ensures currentStep == 4 && !isSubmitting
      ensures formData == old(formData)
    {
      currentStep := 4;
      isSubmitting := false;
    }

    /** `updateFormData(section, field, value)`: that one field of that one section
        becomes `value`; every other field and section keeps its value. */
    method UpdateFormData(section: string, field: string, value: Value)
      requires section in formData
      modifies this
      ensures formData == old(formData)[section := old(formData)[section][field := value]]
      ensures formData.Keys == old(formData).Keys
      ensures formData[section].Keys == old(formData)[section].Keys + {field}
      ensures formData[section][field] == value
      ensures forall f :: f in old(formData)[section] && f != field ==>
        formData[section][f] == old(formData)[section][f]
      ensures forall s :: s in old(formData) && s != section ==> formData[s] == old(formData)[s]
      ensures currentStep == old(currentStep) && isSubmitting == old(isSubmitting)
    {
      formData := formData[section := formData[section][field := value]];
    }

    /** A scope checkbox's `onChange`. */
    method ToggleScopeOption(option: string, checked: bool)
      requires "requirements" in formData && "scope" in formData["requirements"]
      requires formData["requirements"]["scope"].Arr?
      modifies this
      ensures formData == old(formData)["requirements" := old(formData)["requirements"]["scope" :=
        Arr(ToggleScope(old(formData)["requirements"]["scope"].items, option, checked))]]
      ensures (Str(option) in formData["requirements"]["scope"].items) == checked
      ensures currentStep == old(currentStep) && isSubmitting == old(isSubmitting)
    {
      var newScope := ToggleScope(formData["requirements"]["scope"].items, option, checked);
      ToggleScopeShowsChecked(formData["requirements"]["scope"].items, option, checked);
      UpdateFormData("requirements", "scope", Arr(newScope));
    }

    /** The file input's `onChange`: a present selection replaces the list (it does not
        append); `None` stands for `e.target.files` being null. */
    method SelectFiles(selection: Option<seq<FileInfo>>)
      requires "requirements" in formData
      modifies this
      ensures selection.Some? ==>
        formData == old(formData)["requirements" := old(formData)["requirements"]["files" :=
          FileArray(selection.value)]]
      ensures selection.None? ==> formData == old(formData)
      ensures currentStep == old(currentStep) && isSubmitting == old(isSubmitting)
    {
      if selection.Some? {
        UpdateFormData("requirements", "files", FileArray(selection.value));
      }
    }
  }
}
