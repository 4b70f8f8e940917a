/** `src/utils.ts`: the helpers the order wizard imports. Under TypeScript's and
    Vite's resolution `'../utils'` names this file, not the `utils/` directory, so
    this is the variant the wizard runs. */
module Utils {
  import opened Text
  import opened Browser
  import opened Patterns

  // ----- formatPhoneNumber: the first match of /(\d{3})(\d{4})(\d{4})/ -----

  /** Eleven consecutive decimal digits start at `i`. */
  predicate RunAt(s: string, i: int) {
    0 <= i && i + 11 <= |s| && AllDigits(s[i..i + 11])
  }

  /** Where a left-to-right regex search that starts at `from` finds its first match. */
  function LeftmostRun(s: string, from: nat): (r: Option<nat>)
    ensures r.Some? ==> from <= r.value && RunAt(s, r.value)
    ensures r.Some? ==> forall j :: from <= j < r.value ==> !RunAt(s, j)
    ensures r.None? ==> forall j :: from <= j ==> !RunAt(s, j)
    decreases |s| - from
  {
    if from + 11 > |s| then None
    else if AllDigits(s[from..from + 11]) then Some(from)
    else LeftmostRun(s, from + 1)
  }

  /** `phone.replace(/(\d{3})(\d{4})(\d{4})/, '$1-$2-$3')`: a dash after the third
      and after the seventh digit of the leftmost run of eleven digits. */
  function FormatPhoneNumber(phone: string): (r: string)
    ensures LeftmostRun(phone, 0).None? ==> r == phone
    ensures LeftmostRun(phone, 0).Some? ==>
      var i := LeftmostRun(phone, 0).value;
      && |r| == |phone| + 2
      && r[..i] == phone[..i]
      && r[i + 3] == '-' && r[i + 8] == '-'
      && r[..i + 3] + r[i + 4..i + 8] + r[i + 9..] == phone
  {
    match LeftmostRun(phone, 0)
    case None => phone
    case Some(i) =>
      var r := phone[..i + 3] + "-" + phone[i + 3..i + 7] + "-" + phone[i + 7..];
      assert r[..i + 3] == phone[..i + 3];
      assert r[i + 4..i + 8] == phone[i + 3..i + 7];
      assert r[i + 9..] == phone[i + 7..];
      assert phone == phone[..i + 3] + phone[i + 3..i + 7] + phone[i + 7..];
      r
  }

  /** A string with no run of eleven digits is returned as it is. */
  lemma FormatPhoneNumberNoRun(phone: string)
    requires forall i :: !RunAt(phone, i)
    ensures FormatPhoneNumber(phone) == phone
  {
  }

  /** On eleven bare digits the dashes split them 3-4-4. */
  lemma FormatElevenDigits(d: string)
    requires |d| == 11 && AllDigits(d)
    ensures FormatPhoneNumber(d) == d[..3] + "-" + d[3..7] + "-" + d[7..]
  {
    assert d[0..11] == d;
  }

  /** Dashes contribute no digits. */
  lemma DigitsOnlyDashed(a: string, b: string, c: string)
    ensures DigitsOnly(a + "-" + b + "-" + c) == DigitsOnly(a) + DigitsOnly(b) + DigitsOnly(c)
  {
    var dash: string := "-";
    assert DigitsOnly(dash) == [] by {
      assert !IsDigit(dash[0]) && dash[1..] == [];
    }
    var x1 := a + dash;
    DigitsOnlyConcat(a, dash);
    assert DigitsOnly(x1) == DigitsOnly(a);
    var x2 := x1 + b;
    DigitsOnlyConcat(x1, b);
    var x3 := x2 + dash;
    DigitsOnlyConcat(x2, dash);
    assert DigitsOnly(x3) == DigitsOnly(a) + DigitsOnly(b);
    DigitsOnlyConcat(x3, c);
  }

  /** Formatting inserts dashes only: the digits are those of the input, in order. */
  lemma FormatPhoneNumberKeepsDigits(phone: string)
    ensures DigitsOnly(FormatPhoneNumber(phone)) == DigitsOnly(phone)
  {
    if LeftmostRun(phone, 0).Some? {
      var i := LeftmostRun(phone, 0).value;
      var a, b, c := phone[..i + 3], phone[i + 3..i + 7], phone[i + 7..];
      assert phone == a + b + c;
      assert FormatPhoneNumber(phone) == a + "-" + b + "-" + c;
      DigitsOnlyDashed(a, b, c);
      DigitsOnlyConcat(a + b, c);
      DigitsOnlyConcat(a, b);
    }
  }

  // ----- validatePhone: /^010-\d{4}-\d{4}$/ -----

  /** `/^010-\d{4}-\d{4}$/.test(phone)`. */
  predicate ValidatePhone(phone: string) {
    && |phone| == 13
    && phone[..4] == "010-"
    && AllDigits(phone[4..8])
    && phone[8] == '-'
    && AllDigits(phone[9..])
  }

  /** The accepted strings are exactly the formatted forms of eleven digits starting
      with 010: the digits of the input formatted again give the input back. */
  lemma ValidatePhoneIsFormatted(phone: string)
    ensures ValidatePhone(phone) <==>
      var d := DigitsOnly(phone);
      |d| == 11 && d[..3] == "010" && FormatPhoneNumber(d) == phone
  {
    var d := DigitsOnly(phone);
    if ValidatePhone(phone) {
      ValidPhoneDigits(phone);
    }
    if |d| == 11 && d[..3] == "010" && FormatPhoneNumber(d) == phone {
      FormattedPhoneValid(d);
    }
  }

  lemma ValidPhoneDigits(phone: string)
    requires ValidatePhone(phone)
    ensures var d := DigitsOnly(phone);
      |d| == 11 && d[..3] == "010" && FormatPhoneNumber(d) == phone
  {
    var a, b, c := phone[..3], phone[4..8], phone[9..];
    assert a == "010" by {
      assert a == phone[..4][..3];
    }
    assert phone == a + "-" + b + "-" + c;
    DigitsOnlyDashed(a, b, c);
    var d := DigitsOnly(phone);
    assert DigitsOnly(a) == a && DigitsOnly(b) == b && DigitsOnly(c) == c;
    assert d == a + b + c;
    assert d[..3] == a && d[3..7] == b && d[7..] == c;
    FormatElevenDigits(d);
  }

  lemma FormattedPhoneValid(d: string)
    requires |d| == 11 && AllDigits(d) && d[..3] == "010"
    ensures ValidatePhone(FormatPhoneNumber(d))
  {
    FormatElevenDigits(d);
    var phone := FormatPhoneNumber(d);
    assert phone[..4] == d[..3] + "-";
    assert phone[4..8] == d[3..7];
    assert phone[9..] == d[7..];
  }

  /** Whatever this validator accepts, the order form's mobile-number rule accepts. */
  lemma ValidatePhoneWithinMobilePattern(phone: string)
    requires ValidatePhone(phone)
    ensures MobilePattern(phone)
  {
    assert phone[..3] == "010";
    assert phone[4..8] == phone[3 + 1..3 + 1 + 4];
    MobileSplitMatches(phone, 1, 4, 1);
  }

  /** ... but not the other way round: other carriers' prefixes and dash-free input
      pass the form and fail here. */
  lemma ValidatePhoneStricterThanMobilePattern()
    ensures MobilePattern("011-123-4567") && !ValidatePhone("011-123-4567")
    ensures MobilePattern("01012345678") && !ValidatePhone("01012345678")
  {
    OtherCarrierPasses();
    DashFreePasses();
  }

  lemma OtherCarrierPasses()
    ensures MobilePattern("011-123-4567")
  {
    var s := "011-123-4567";
    assert s[..3] == "011" && s[3] == '-' && s[4..7] == "123" && s[7] == '-' && s[8..] == "4567";
    MobileSplitMatches(s, 1, 3, 1);
  }

  lemma DashFreePasses()
    ensures MobilePattern("01012345678")
  {
    var t := "01012345678";
    assert t[..3] == "010" && t[3..7] == "1234" && t[7..] == "5678";
    MobileSplitMatches(t, 0, 4, 0);
  }

  // ----- validateBusinessNumber: /^\d{3}-\d{2}-\d{5}$/ -----

  /** `/^\d{3}-\d{2}-\d{5}$/.test(businessNumber)`. */
  predicate ValidateBusinessNumber(s: string) {
    && |s| == 12
    && AllDigits(s[..3]) && s[3] == '-'
    && AllDigits(s[4..6]) && s[6] == '-'
    && AllDigits(s[7..])
  }

  /** The accepted strings are exactly ten digits grouped 3-2-5 by dashes. */
  lemma ValidateBusinessNumberIsGrouped(s: string)
    ensures ValidateBusinessNumber(s) <==>
      exists d :: |d| == 10 && AllDigits(d) && s == d[..3] + "-" + d[3..5] + "-" + d[5..]
  {
    if ValidateBusinessNumber(s) {
      var d := s[..3] + s[4..6] + s[7..];
      assert d[..3] == s[..3] && d[3..5] == s[4..6] && d[5..] == s[7..];
      assert s == d[..3] + "-" + d[3..5] + "-" + d[5..];
    }
    if exists d :: |d| == 10 && AllDigits(d) && s == d[..3] + "-" + d[3..5] + "-" + d[5..] {
      var d :| |d| == 10 && AllDigits(d) && s == d[..3] + "-" + d[3..5] + "-" + d[5..];
      assert s[..3] == d[..3] && s[4..6] == d[3..5] && s[7..] == d[5..];
    }
  }

  // ----- truncateText: text.substring(0, maxLength) + '...' -----

  /** `truncateText(text, maxLength)`. `substring` clamps a negative end to 0, so a
      negative limit leaves only the ellipsis. */
  function TruncateText(text: string, maxLength: int): (r: string)
    ensures |text| <= maxLength ==> r == text
    ensures |text| > maxLength ==>
      var kept := if maxLength < 0 then 0 else maxLength;
      && |r| == kept + 3
      && EndsWith(r, "...")
      && StartsWith(text, r[..kept])
  {
    if |text| <= maxLength then text
    else
      var kept := if maxLength < 0 then 0 else maxLength;
      text[..kept] + "..."
  }

  // ----- orderFormUtils.validateStep -----

  /** The fields `validateStep` requires to be truthy at each step (none beyond 3). */
  function LegacyStepFields(step: int): seq<string> {
    if step == 1 then ["companyName", "contactName", "phone", "email"]
    else if step == 2 then ["serviceType", "projectScale"]
    else if step == 3 then ["budget", "timeline"]
    else []
  }

  /** `validateStep(step, data)`: the `!!(a && b && ...)` of the step's fields. */
  predicate ValidateStep(step: int, data: map<string, Value>) {
    match step
    case 1 =>
      Truthy(Get(data, "companyName")) && Truthy(Get(data, "contactName"))
      && Truthy(Get(data, "phone")) && Truthy(Get(data, "email"))
    case 2 => Truthy(Get(data, "serviceType")) && Truthy(Get(data, "projectScale"))
    case 3 => Truthy(Get(data, "budget")) && Truthy(Get(data, "timeline"))
    case _ => false
  }

  /** False beyond steps 1..3; there, true iff every listed field is truthy. */
  lemma ValidateStepMeansFields(step: int, data: map<string, Value>)
    ensures ValidateStep(step, data) <==>
      && 1 <= step <= 3
      && forall k :: 0 <= k < |LegacyStepFields(step)| ==> Truthy(Get(data, LegacyStepFields(step)[k]))
  {
    var f := LegacyStepFields(step);
    if 1 <= step <= 3 && forall k :: 0 <= k < |f| ==> Truthy(Get(data, f[k])) {
      assert Truthy(Get(data, f[0])) && Truthy(Get(data, f[1]));
      if step == 1 {
        assert Truthy(Get(data, f[2])) && Truthy(Get(data, f[3]));
      }
    }
  }

  // ----- orderFormUtils.calculateEstimate -----

  /** The base price by `serviceType` (strict equality with the three named services). */
  function BasePrice(serviceType: Value): int {
    if serviceType == Str("시스템 통합") then 5000000
    else if serviceType == Str("데이터 솔루션") then 3000000
    else if serviceType == Str("기술 컨설팅") then 2000000
    else 1000000
  }

  /** Twice the multiplier by `projectScale`: x2 for 'large', x1.5 for 'medium'. */
  function DoubledScaleFactor(projectScale: Value): int {
    if projectScale == Str("large") then 4
    else if projectScale == Str("medium") then 3
    else 2
  }

  /** `calculateEstimate(data)`. Every base price is even, so the x1.5 step stays integral. */
  method CalculateEstimate(data: map<string, Value>) returns (basePrice: int)
    ensures 2 * basePrice == BasePrice(Get(data, "serviceType")) * DoubledScaleFactor(Get(data, "projectScale"))
    ensures 1000000 <= basePrice <= 10000000
  {
    basePrice := 1000000;
    var serviceType := Get(data, "serviceType");
    if serviceType == Str("시스템 통합") {
      basePrice := 5000000;
    } else if serviceType == Str("데이터 솔루션") {
      basePrice := 3000000;
    } else if serviceType == Str("기술 컨설팅") {
      basePrice := 2000000;
    }
    var projectScale := Get(data, "projectScale");
    if projectScale == Str("large") {
      basePrice := basePrice * 2;
    } else if projectScale == Str("medium") {
      basePrice := basePrice * 3 / 2;
    }
  }

  // ----- orderFormUtils step drafts in localStorage -----

  /** `orderForm_step${step}`. */
  function DraftKey(step: int): string {
    "orderForm_step" + IntToString(step)
  }

  const CompletedKey: string := "completedOrderForm"

  /** Different steps never share a draft key: the number after the prefix reads back. */
  lemma DraftKeyInjective(i: int, j: int)
    requires DraftKey(i) == DraftKey(j)
    ensures i == j
  {
    var p := "orderForm_step";
    assert IntToString(i) == DraftKey(i)[|p|..];
    assert IntToString(j) == DraftKey(j)[|p|..];
    ParseIntOfIntToString(i);
    ParseIntOfIntToString(j);
  }

  /** A field holding `undefined` is not written to the draft, so it cannot hide
      the value an earlier step's draft gave it when the drafts are merged. */
  lemma SavedDraftSkipsUndefined(items: map<string, Slot>, step: int, data: map<string, Value>, k: string)
    requires k in data && data[k].Undefined?
    ensures k !in Draft(items[DraftKey(step) := Object(JsonObject(data))], step)
  {
  }

  /** The completed order is never stored under a draft key. */
  lemma CompletedKeyIsNoDraftKey(step: int)
    ensures DraftKey(step) != CompletedKey
  {
    assert DraftKey(step)[0] == 'o' && CompletedKey[0] == 'c';
  }

  /** `saveStepData(step, data)`: stores `JSON.stringify(data)` under the step's key;
      reading it back gives `JsonObject(data)`. */
  method SaveStepData(store: LocalStorage, step: int, data: map<string, Value>)
    modifies store
    ensures store.items == old(store.items)[DraftKey(step) := Object(JsonObject(data))]
  {
    store.SetItem(DraftKey(step), Object(JsonObject(data)));
  }

  /** The record a draft key holds, or the empty record when there is none. */
  function Draft(items: map<string, Slot>, step: int): map<string, Value> {
    if DraftKey(step) in items && items[DraftKey(step)].Object? then items[DraftKey(step)].fields
    else map[]
  }

  /** `Object.assign` of the drafts of steps 1..n, in ascending order. */
  function MergeDrafts(items: map<string, Slot>, n: nat): map<string, Value> {
    if n == 0 then map[] else MergeDrafts(items, n - 1) + Draft(items, n)
  }

  /** A field is in the merge iff some merged step has it ... */
  lemma {:induction false} MergeDraftsKeys(items: map<string, Slot>, n: nat, k: string)
    ensures k in MergeDrafts(items, n) <==> exists i :: 1 <= i <= n && k in Draft(items, i)
  {
    if n > 0 {
      MergeDraftsKeys(items, n - 1, k);
      if k in Draft(items, n) {
        assert 1 <= n <= n && k in Draft(items, n);
      }
      if exists i :: 1 <= i <= n && k in Draft(items, i) {
        var i :| 1 <= i <= n && k in Draft(items, i);
        if i < n {
          assert 1 <= i <= n - 1 && k in Draft(items, i);
        }
      }
    }
  }

  /** ... and its value comes from the last step that has it: later steps win. */
  lemma {:induction false} MergeDraftsLaterWins(items: map<string, Slot>, n: nat, i: nat, k: string)
    requires 1 <= i <= n && k in Draft(items, i)
    requires forall j :: i < j <= n ==> k !in Draft(items, j)
    ensures k in MergeDrafts(items, n) && MergeDrafts(items, n)[k] == Draft(items, i)[k]
  {
    if n > i {
      MergeDraftsLaterWins(items, n - 1, i, k);
      assert k !in Draft(items, n);
    }
  }

  /** `loadFormData()`: merges the drafts of steps 1..3 into one record. */
  method LoadFormData(store: LocalStorage) returns (allData: map<string, Value>)
    ensures allData == MergeDrafts(store.items, 3)
  {
    allData := map[];
    var i := 1;
    while i <= 3
      invariant 1 <= i <= 4
      invariant allData == MergeDrafts(store.items, i - 1)
    {
      var key := DraftKey(i);
      if key in store.items && store.items[key].Object? {
        allData := allData + store.items[key].fields;
      }
      i := i + 1;
    }
  }

  /** The draft saved at step 4 never reaches the merged record. */
  lemma LoadIgnoresStep4(items: map<string, Slot>, v: Slot)
    ensures MergeDrafts(items[DraftKey(4) := v], 3) == MergeDrafts(items, 3)
  {
    var items' := items[DraftKey(4) := v];
    forall i | 1 <= i <= 3 ensures Draft(items', i) == Draft(items, i) {
      if DraftKey(i) == DraftKey(4) {
        DraftKeyInjective(i, 4);
      }
    }
    assert MergeDrafts(items', 1) == MergeDrafts(items, 1);
    assert MergeDrafts(items', 2) == MergeDrafts(items, 2);
  }

  /** `saveFormData(data)`: stores the completed order. */
  method SaveFormData(store: LocalStorage, data: map<string, Value>)
    modifies store
    ensures store.items == old(store.items)[CompletedKey := Object(JsonObject(data))]
  {
    store.SetItem(CompletedKey, Object(JsonObject(data)));
  }

  /** The keys `clearTempData` removes. */
  function TempKeys(): set<string> {
    {DraftKey(1), DraftKey(2), DraftKey(3)}
  }

  /** `clearTempData()`: removes the drafts of steps 1..3. */
  method ClearTempData(store: LocalStorage)
    modifies store
    ensures store.items == old(store.items) - TempKeys()
  {
    var i := 1;
    while i <= 3
      invariant 1 <= i <= 4
      invariant store.items == old(store.items) - set j | 1 <= j < i :: DraftKey(j)
    {
      store.RemoveItem(DraftKey(i));
      i := i + 1;
    }
    assert (set j | 1 <= j < 4 :: DraftKey(j)) == TempKeys();
  }

  /** The step-4 draft and the completed order survive `clearTempData`. */
  lemma ClearKeepsStep4AndCompleted()
    ensures DraftKey(4) !in TempKeys() && CompletedKey !in TempKeys()
  {
    forall i | 1 <= i <= 3 ensures DraftKey(i) != DraftKey(4) && DraftKey(i) != CompletedKey {
      if DraftKey(i) == DraftKey(4) {
        DraftKeyInjective(i, 4);
      }
      CompletedKeyIsNoDraftKey(i);
    }
  }

  // ----- orderFormUtils.validateFileSize / validateFileType -----

  const DefaultMaxSizeMB: int := 10

  /** `validateFileSize(file, maxSizeMB)`: at most `maxSizeMB` mebibytes. */
  predicate ValidateFileSize(file: FileInfo, maxSizeMB: int) {
    file.size <= maxSizeMB * 1024 * 1024
  }

  /** The default limit of 10 MB admits files up to 10,485,760 bytes, and a larger
      limit admits every file a smaller one does. */
  lemma FileSizeLimit(file: FileInfo, smaller: int, larger: int)
    requires smaller <= larger
    ensures ValidateFileSize(file, 10) <==> file.size <= 10_485_760
    ensures ValidateFileSize(file, smaller) ==> ValidateFileSize(file, larger)
  {
  }

  const DefaultAllowedTypes: seq<string> := ["image/*", "application/pdf", ".doc", ".docx"]

  /** `type.replace('*', '')`: the first '*' removed. */
  function RemoveFirstStar(t: string): (r: string)
    ensures '*' in t ==> |r| == |t| - 1
    ensures '*' !in t ==> r == t
  {
    var k := IndexOf(t, '*');
    if k == |t| then t else t[..k] + t[k + 1..]
  }

  /** One entry of `allowedTypes`: with a '*', a prefix of the MIME type; otherwise a
      suffix of the lower-cased file name. */
  predicate EntryAccepts(file: FileInfo, t: string) {
    if '*' in t then StartsWith(file.mime, RemoveFirstStar(t))
    else EndsWith(ToLower(file.name), t)
  }

  /** `allowedTypes.some(...)`, scanning the list left to right. */
  function ValidateFileType(file: FileInfo, allowedTypes: seq<string>): (ok: bool)
    ensures ok <==> exists k :: 0 <= k < |allowedTypes| && EntryAccepts(file, allowedTypes[k])
  {
    if allowedTypes == [] then false
    else if EntryAccepts(file, allowedTypes[0]) then true
    else
      var ok := ValidateFileType(file, allowedTypes[1..]);
      assert forall k :: 1 <= k < |allowedTypes| ==> allowedTypes[k] == allowedTypes[1..][k - 1];
      ok
  }

  /** With the default list every image type and every .doc/.docx name passes ... */
  lemma DefaultTypesAcceptImagesAndWord(file: FileInfo)
    requires StartsWith(file.mime, "image/") || EndsWith(ToLower(file.name), ".doc")
      || EndsWith(ToLower(file.name), ".docx")
    ensures ValidateFileType(file, DefaultAllowedTypes)
  {
    var types := DefaultAllowedTypes;
    DefaultEntries();
    if StartsWith(file.mime, "image/") {
      assert EntryAccepts(file, types[0]);
    } else if EndsWith(ToLower(file.name), ".doc") {
      assert EntryAccepts(file, types[2]);
    } else {
      assert EntryAccepts(file, types[3]);
    }
  }

  /** How each default entry is read: only the image entry has a '*'. */
  lemma DefaultEntries()
    ensures '*' in DefaultAllowedTypes[0] && RemoveFirstStar(DefaultAllowedTypes[0]) == "image/"
    ensures DefaultAllowedTypes[2] == ".doc" && '*' !in DefaultAllowedTypes[2]
    ensures DefaultAllowedTypes[3] == ".docx" && '*' !in DefaultAllowedTypes[3]
  {
    var t := DefaultAllowedTypes[0];
    assert t[6] == '*';
    assert IndexOf(t, '*') == 6;
    assert t[..6] == "image/" && t[7..] == [];
  }

  /** ... but 'application/pdf' has no '*', so it is compared with the end of the
      file NAME: an ordinary PDF upload is refused. */
  lemma DefaultTypesRejectPdf(file: FileInfo)
    requires file.mime == "application/pdf" && EndsWith(ToLower(file.name), ".pdf")
    ensures !ValidateFileType(file, DefaultAllowedTypes)
  {
    var types := DefaultAllowedTypes;
    var n := ToLower(file.name);
    PdfNotImage(file);
    PdfNameSuffix(n, types[1]);
    PdfNameSuffix(n, types[2]);
    PdfNameSuffix(n, types[3]);
    forall k | 0 <= k < |types| ensures !EntryAccepts(file, types[k]) {
      if k == 0 {
      } else if k == 1 {
      } else if k == 2 {
      } else {
        assert k == 3;
      }
    }
  }

  lemma PdfNotImage(file: FileInfo)
    requires file.mime == "application/pdf"
    ensures !EntryAccepts(file, DefaultAllowedTypes[0])
  {
    DefaultEntries();
    assert file.mime[0] != "image/"[0];
  }

  lemma PdfNameSuffix(n: string, t: string)
    requires EndsWith(n, ".pdf")
    requires t == "application/pdf" || t == ".doc" || t == ".docx"
    ensures '*' !in t && !EndsWith(n, t)
  {
    assert n[|n| - 4] == '.' && n[|n| - 1] == 'f' by {
      assert n[|n| - 4..][0] == '.' && n[|n| - 4..][3] == 'f';
    }
  }
}
