/** `src/utils/index.ts`: a second utilities file that shares names with
    `src/utils.ts` but differs in its phone rule, its checksum, its storage keys and
    its file-type rule. */
module UtilsIndex {
  import opened Text
  import opened Browser
  import opened Patterns
  import Utils

  // ----- formatPhoneNumber -----

  /** `formatPhoneNumber(phone)`: the digits regrouped 3-4-4 when there are eleven,
      3-3-4 when there are ten; any other input comes back untouched. */
  function FormatPhoneNumber(phone: string): (r: string)
    ensures var d := DigitsOnly(phone);
      && (|d| != 10 && |d| != 11 ==> r == phone)
      && (|d| == 10 || |d| == 11 ==>
            |r| == |d| + 2 && r[3] == '-' && r[|r| - 5] == '-' && DigitsOnly(r) == d)
  {
    var cleaned := DigitsOnly(phone);
    if |cleaned| == 11 then
      // the same replace as formatPhoneNumber in src/utils.ts
      ElevenDigitsDashed(cleaned);
      Utils.FormatPhoneNumber(cleaned)
    else if |cleaned| == 10 then
      // /(\d{3})(\d{3})(\d{4})/ matches ten bare digits at position 0
      TenDigitsDashed(cleaned);
      cleaned[..3] + "-" + cleaned[3..6] + "-" + cleaned[6..]
    else phone
  }

  lemma ElevenDigitsDashed(d: string)
    requires |d| == 11 && AllDigits(d)
    ensures var r := Utils.FormatPhoneNumber(d);
      |r| == 13 && r[3] == '-' && r[8] == '-' && DigitsOnly(r) == d
  {
    Utils.FormatElevenDigits(d);
    Utils.FormatPhoneNumberKeepsDigits(d);
  }

  lemma TenDigitsDashed(d: string)
    requires |d| == 10 && AllDigits(d)
    ensures var r := d[..3] + "-" + d[3..6] + "-" + d[6..];
      |r| == 12 && r[3] == '-' && r[7] == '-' && DigitsOnly(r) == d
  {
    Utils.DigitsOnlyDashed(d[..3], d[3..6], d[6..]);
    assert AllDigits(d[..3]) && AllDigits(d[3..6]) && AllDigits(d[6..]);
    assert d[..3] + d[3..6] + d[6..] == d;
  }

  /** Formatting an already formatted number changes nothing. */
  lemma FormatPhoneNumberIdempotent(phone: string)
    ensures FormatPhoneNumber(FormatPhoneNumber(phone)) == FormatPhoneNumber(phone)
  {
  }

  // ----- formatBusinessNumber -----

  /** `formatBusinessNumber(number)`: ten digits regrouped 3-2-5, anything else untouched. */
  function FormatBusinessNumber(number: string): (r: string)
    ensures var d := DigitsOnly(number);
      && (|d| != 10 ==> r == number)
      && (|d| == 10 ==> |r| == 12 && DigitsOnly(r) == d)
  {
    var cleaned := DigitsOnly(number);
    if |cleaned| == 10 then
      DashedDigitsOnly(cleaned);
      cleaned[..3] + "-" + cleaned[3..5] + "-" + cleaned[5..]
    else number
  }

  /** A formatted business number is exactly what the `src/utils.ts` validator
      accepts: formatting succeeds iff there are ten digits. */
  lemma FormatBusinessNumberValidates(number: string)
    ensures Utils.ValidateBusinessNumber(FormatBusinessNumber(number)) <==>
      |DigitsOnly(number)| == 10 || Utils.ValidateBusinessNumber(number)
  {
    var d := DigitsOnly(number);
    var r := FormatBusinessNumber(number);
    Utils.ValidateBusinessNumberIsGrouped(r);
    if |d| == 10 {
      assert r == d[..3] + "-" + d[3..5] + "-" + d[5..];
    }
    if Utils.ValidateBusinessNumber(number) {
      var a, b, c := number[..3], number[4..6], number[7..];
      assert number == a + "-" + b + "-" + c;
      Utils.DigitsOnlyDashed(a, b, c);
    }
  }

  // ----- validatePhone -----

  /** `validatePhone(phone)`: strip non-digits, dash the first eleven-digit run, then
      test the mobile pattern. */
  predicate ValidatePhone(phone: string) {
    MobilePattern(Utils.FormatPhoneNumber(DigitsOnly(phone)))
  }

  /** A mobile split of a string of bare digits uses no dashes. */
  lemma DigitSplitHasNoDashes(s: string, d1: int, m: int, d2: int)
    requires AllDigits(s) && MobileSplit(s, d1, m, d2)
    ensures d1 == 0 && d2 == 0 && |s| == 7 + m
  {
    assert IsDigit(s[3]) && IsDigit(s[3 + d1 + m]);
  }

  /** The digits, whatever the separators, number ten or eleven and start with a
      mobile carrier prefix. */
  lemma ValidatePhoneMeans(phone: string)
    ensures ValidatePhone(phone) <==>
      var d := DigitsOnly(phone);
      (|d| == 10 || |d| == 11) && d[..3] in MobilePrefixes
  {
    var d := DigitsOnly(phone);
    var f := Utils.FormatPhoneNumber(d);
    if |d| >= 11 {
      assert Utils.RunAt(d, 0) by { assert d[0..11] == d[..11]; }
      var g := d[..3] + "-" + d[3..7] + "-" + d[7..];
      assert f == g;
      assert f[..3] == d[..3];
      if |d| == 11 && d[..3] in MobilePrefixes {
        assert f[4..8] == d[3..7] && f[9..] == d[7..];
        MobileSplitMatches(f, 1, 4, 1);
      }
      if MobilePattern(f) {
        MobilePatternHasSplit(f);
        var d1, m, d2 :| MobileSplit(f, d1, m, d2);
        assert |f| <= 13;
      }
    } else {
      assert f == d;
      if |d| == 10 && d[..3] in MobilePrefixes {
        MobileSplitMatches(d, 0, 3, 0);
      }
      if MobilePattern(d) {
        MobilePatternHasSplit(d);
        var d1, m, d2 :| MobileSplit(d, d1, m, d2);
        DigitSplitHasNoDashes(d, d1, m, d2);
      }
    }
  }

  /** Separators do not matter: a number and its formatted form validate alike. */
  lemma ValidatePhoneIgnoresFormatting(phone: string)
    ensures ValidatePhone(FormatPhoneNumber(phone)) == ValidatePhone(phone)
  {
    ValidatePhoneMeans(phone);
    ValidatePhoneMeans(FormatPhoneNumber(phone));
  }

  // ----- validateBusinessNumber: the weighted checksum -----

  const Weights: seq<int> := [1, 3, 7, 1, 3, 7, 1, 3, 5]

  /** `sum` after the loop has run over the first `n` digits. */
  function WeightedSum(d: string, n: nat): int
    requires n <= 9 && n <= |d| && AllDigits(d)
  {
    if n == 0 then 0 else WeightedSum(d, n - 1) + DigitValue(d[n - 1]) * Weights[n - 1]
  }

  /** The check as `validateBusinessNumber` computes it, in real numbers: the term
      `parseInt(cleaned[8]) * 5 / 10` is a half-integer when the ninth digit is odd,
      and `%` on a non-negative number keeps the fraction. */
  function ChecksumAsWritten(d: string): bool
    requires |d| == 10 && AllDigits(d)
  {
    var sum: real := WeightedSum(d, 9) as real + (DigitValue(d[8]) * 5) as real / 10.0;
    var remainder := sum - 10.0 * ((sum / 10.0).Floor as real);
    var checkDigit := if remainder == 0.0 then 0.0 else 10.0 - remainder;
    checkDigit == DigitValue(d[9]) as real
  }

  /** The same check on doubled integers: twice the sum is `2 * sum + d8`. */
  lemma ChecksumDoubled(d: string)
    requires |d| == 10 && AllDigits(d)
    ensures var sum2 := 2 * WeightedSum(d, 9) + DigitValue(d[8]);
      var check2 := if sum2 % 20 == 0 then 0 else 20 - sum2 % 20;
      ChecksumAsWritten(d) <==> check2 == 2 * DigitValue(d[9])
  {
    var s := WeightedSum(d, 9);
    var d8 := DigitValue(d[8]);
    var sum2 := 2 * s + d8;
    var q, r2 := sum2 / 20, sum2 % 20;
    var sum: real := s as real + (d8 * 5) as real / 10.0;
    assert sum == sum2 as real / 2.0;
    assert sum2 == 20 * q + r2;
    assert sum / 10.0 == q as real + r2 as real / 20.0;
    assert (sum / 10.0).Floor == q;
    var remainder := sum - 10.0 * ((sum / 10.0).Floor as real);
    assert remainder == r2 as real / 2.0;
  }

  /** `validateBusinessNumber(number)`. */
  method ValidateBusinessNumber(number: string) returns (ok: bool)
    ensures ok <==> var d := DigitsOnly(number); |d| == 10 && ChecksumAsWritten(d)
  {
    var cleaned := DigitsOnly(number);
    if |cleaned| != 10 {
      return false;
    }
    var sum := 0;
    var i := 0;
    while i < 9
      invariant 0 <= i <= 9
      invariant sum == WeightedSum(cleaned, i)
    {
      sum := sum + DigitValue(cleaned[i]) * Weights[i];
      i := i + 1;
    }
    // doubled: 2 * (sum + d8 * 5 / 10)
    var sum2 := 2 * sum + DigitValue(cleaned[8]);
    var remainder2 := sum2 % 20;
    var checkDigit2 := if remainder2 == 0 then 0 else 20 - remainder2;
    ChecksumDoubled(cleaned);
    ok := checkDigit2 == 2 * DigitValue(cleaned[9]);
  }

  /** An odd ninth digit makes the sum a half-integer: no tenth digit can match. */
  lemma OddNinthDigitRejected(d: string)
    requires |d| == 10 && AllDigits(d) && DigitValue(d[8]) % 2 == 1
    ensures !ChecksumAsWritten(d)
  {
    ChecksumDoubled(d);
  }

  /** With an even ninth digit exactly one tenth digit passes. */
  lemma EvenNinthDigitOneCheckDigit(d: string, c: char)
    requires |d| == 10 && AllDigits(d) && DigitValue(d[8]) % 2 == 0 && IsDigit(c)
    ensures var e := d[..9] + [c];
      var sum2 := 2 * WeightedSum(d, 9) + DigitValue(d[8]);
      ChecksumAsWritten(e) <==> 2 * DigitValue(c) == (if sum2 % 20 == 0 then 0 else 20 - sum2 % 20)
  {
    var e := d[..9] + [c];
    WeightedSumPrefix(d, e, 9);
    ChecksumDoubled(e);
  }

  /** The sum reads only the first nine digits. */
  lemma {:induction false} WeightedSumPrefix(d: string, e: string, n: nat)
    requires n <= 9 && n <= |d| && n <= |e| && AllDigits(d) && AllDigits(e)
    requires d[..n] == e[..n]
    ensures WeightedSum(d, n) == WeightedSum(e, n)
  {
    if n > 0 {
      assert d[..n - 1] == d[..n][..n - 1] && e[..n - 1] == e[..n][..n - 1];
      assert d[n - 1] == d[..n][n - 1] && e[n - 1] == e[..n][n - 1];
      WeightedSumPrefix(d, e, n - 1);
    }
  }

  /** The national check-digit rule that the loop follows, with the ninth-digit
      term floored: `(10 - sum % 10) % 10`. */
  function ChecksumFloored(d: string): bool
    requires |d| == 10 && AllDigits(d)
  {
    var sum := WeightedSum(d, 9) + DigitValue(d[8]) * 5 / 10;
    (10 - sum % 10) % 10 == DigitValue(d[9])
  }

  /** With the floor, every nine-digit prefix has exactly one check digit. */
  lemma ChecksumFlooredOneCheckDigit(d: string)
    requires |d| == 10 && AllDigits(d)
    ensures var sum := WeightedSum(d, 9) + DigitValue(d[8]) * 5 / 10;
      var c := DigitChar((10 - sum % 10) % 10);
      && ChecksumFloored(d[..9] + [c])
      && (ChecksumFloored(d) <==> d[9] == c)
  {
    var sum := WeightedSum(d, 9) + DigitValue(d[8]) * 5 / 10;
    var c := DigitChar((10 - sum % 10) % 10);
    var e := d[..9] + [c];
    assert e[..9] == d[..9];
    WeightedSumPrefix(d, e, 9);
    assert e[8] == d[8] && e[9] == c;
  }

  /** `validateBusinessNumber` with the floored term, the national check-digit
      rule it evidently means. */
  function ValidateBusinessNumberFloored(number: string): (ok: bool)
    ensures ok ==> |DigitsOnly(number)| == 10
  {
    var d := DigitsOnly(number);
    |d| == 10 && ChecksumFloored(d)
  }

  /** A ten-digit number that the floored rule accepts and `validateBusinessNumber`
      rejects: its ninth digit is odd. */
  lemma OddNinthDigitDisagreement()
    ensures ChecksumFloored("1234567815") && !ChecksumAsWritten("1234567815")
  {
    var d := "1234567815";
    assert WeightedSum(d, 3) == 1 + 6 + 21;
    assert WeightedSum(d, 6) == 28 + 4 + 15 + 42;
    assert WeightedSum(d, 9) == 89 + 7 + 24 + 5;
    assert DigitValue(d[8]) == 1 && DigitValue(d[9]) == 5;
    OddNinthDigitRejected(d);
  }

  /** ... written the way a user types it. */
  lemma BusinessNumberOddNinthDigit()
    ensures ValidateBusinessNumberFloored("123-45-67815")
    ensures DigitsOnly("123-45-67815") == "1234567815"
  {
    DashedBusinessDigits();
    OddNinthDigitDisagreement();
  }

  lemma DashedBusinessDigits()
    ensures DigitsOnly("123-45-67815") == "1234567815"
  {
    var d := "1234567815";
    DashedDigitsOnly(d);
    assert d[..3] == "123" && d[3..5] == "45" && d[5..] == "67815";
    assert "123" + "-" + "45" + "-" + "67815" == "123-45-67815";
  }

  /** Stripping the dashes of the 3-2-5 form gives the ten digits back. */
  lemma DashedDigitsOnly(d: string)
    requires |d| == 10 && AllDigits(d)
    ensures DigitsOnly(d[..3] + "-" + d[3..5] + "-" + d[5..]) == d
  {
    Utils.DigitsOnlyDashed(d[..3], d[3..5], d[5..]);
    assert AllDigits(d[..3]) && AllDigits(d[3..5]) && AllDigits(d[5..]);
    assert d[..3] + d[3..5] + d[5..] == d;
  }

  // ----- generateOrderNumber: the per-day counter -----

  /** `${year}${month}${day}` with month and day padded to two digits; `month` is
      `getMonth() + 1`. */
  function DateStamp(year: int, month: int, day: int): string {
    IntToString(year) + PadStart(IntToString(month), 2, '0') + PadStart(IntToString(day), 2, '0')
  }

  function CounterKey(today: string): string {
    "order_count_" + today
  }

  /** `String(n)` for the values the counter can take. */
  function NumberToString(n: Number): string {
    match n
    case NaN => "NaN"
    case Int(i) => IntToString(i)
  }

  /** `localStorage.getItem(key) || '0'`. A record written as JSON starts with '{',
      which is all `parseInt` looks at. */
  function StoredCount(items: map<string, Slot>, key: string): string {
    if key !in items then "0"
    else match items[key]
      case Text(t) => if t == "" then "0" else t
      case Object(_) => "{}"
  }

  /** `parseInt(...) + 1`: NaN stays NaN. */
  function NextCount(items: map<string, Slot>, key: string): Number {
    match ParseInt(StoredCount(items, key))
    case NaN => NaN
    case Int(c) => Int(c + 1)
  }

  /** `generateOrderNumber()` on the date (year, month, day). */
  method GenerateOrderNumber(store: LocalStorage, year: int, month: int, day: int)
    returns (orderNumber: string)
    modifies store
    ensures var key := CounterKey(DateStamp(year, month, day));
      var next := NextCount(old(store.items), key);
      && store.items == old(store.items)[key := Text(NumberToString(next))]
      && orderNumber == "MS-" + DateStamp(year, month, day) + "-" + PadStart(NumberToString(next), 3, '0')
  {
    var today := DateStamp(year, month, day);
    var storageKey := CounterKey(today);
    var currentCount := ParseInt(StoredCount(store.items, storageKey));
    var nextCount := match currentCount
      case NaN => NaN
      case Int(c) => Int(c + 1);
    assert nextCount == NextCount(store.items, storageKey);
    var shown := NumberToString(nextCount);
    store.SetItem(storageKey, Text(shown));
    orderNumber := "MS-" + today + "-" + PadStart(shown, 3, '0');
  }

  /** The first order of a day is number 1. */
  lemma FirstOrderOfTheDay(items: map<string, Slot>, key: string)
    requires key !in items
    ensures NextCount(items, key) == Int(1)
  {
    ParseIntOfIntToString(0);
  }

  /** After a call has stored count n, the next call on the same day gets n + 1:
      the counter strictly increases while it stays a safe integer. */
  lemma CounterIncreases(items: map<string, Slot>, key: string, n: int)
    requires -MaxSafeInteger <= n <= MaxSafeInteger
    ensures NextCount(items[key := Text(NumberToString(Int(n)))], key) == Int(n + 1)
  {
    ParseIntOfIntToString(n);
  }

  /** Once the stored text is not a number the counter stays NaN. */
  lemma CounterStuckAtNaN(items: map<string, Slot>, key: string)
    ensures NextCount(items[key := Text(NumberToString(NaN))], key) == NaN
  {
    var s := "NaN";
    assert TrimLeadingWhitespace(s) == s;
    assert DigitRunLength(s) == 0;
  }

  // ----- truncateText: text.slice(0, maxLength) + '...' -----

  /** `truncateText(text, maxLength)` with `slice`: a negative end counts from the
      end of the text. */
  function TruncateText(text: string, maxLength: int): (r: string)
    ensures |text| <= maxLength ==> r == text
    ensures |text| > maxLength ==>
      var kept := if maxLength >= 0 then maxLength
        else if |text| + maxLength > 0 then |text| + maxLength else 0;
      && |r| == kept + 3
      && EndsWith(r, "...")
      && StartsWith(text, r[..kept])
  {
    if |text| <= maxLength then text
    else
      var kept := if maxLength >= 0 then maxLength
        else if |text| + maxLength > 0 then |text| + maxLength else 0;
      text[..kept] + "..."
  }

  /** The two `truncateText`s agree on every limit that is not negative ... */
  lemma TruncateVariantsAgree(text: string, maxLength: int)
    requires maxLength >= 0
    ensures TruncateText(text, maxLength) == Utils.TruncateText(text, maxLength)
  {
  }

  /** ... and part on negative ones. */
  lemma TruncateVariantsDiffer()
    ensures Utils.TruncateText("abc", -1) == "..." && TruncateText("abc", -1) == "ab..."
  {
  }

  // ----- orderFormUtils draft keys and clearTempData -----

  /** `order_form_step_${step}`. */
  function StepKey(step: int): string {
    "order_form_step_" + IntToString(step)
  }

  /** This file's draft keys never collide with those of `src/utils.ts`, so neither
      variant's `clearTempData` removes the other's drafts. */
  lemma StepKeysDifferFromDraftKeys(i: int, j: int)
    ensures StepKey(i) != Utils.DraftKey(j)
  {
    assert StepKey(i)[5] == '_' && Utils.DraftKey(j)[5] == 'F';
  }

  function StepKeys(): set<string> {
    {StepKey(1), StepKey(2), StepKey(3), StepKey(4)}
  }

  /** `clearTempData()`: removes the drafts of steps 1..4. */
  method ClearTempData(store: LocalStorage)
    modifies store
    ensures store.items == old(store.items) - StepKeys()
  {
    var i := 1;
    while i <= 4
      invariant 1 <= i <= 5
      invariant store.items == old(store.items) - set j | 1 <= j < i :: StepKey(j)
    {
      store.RemoveItem(StepKey(i));
      i := i + 1;
    }
    assert (set j | 1 <= j < 5 :: StepKey(j)) == StepKeys();
  }

  // ----- orderFormUtils.validateFileType -----

  /** `name.split('.').pop()`: the text after the last '.', the whole name when it
      has none. */
  function Extension(name: string): (e: string)
    ensures '.' !in e && EndsWith(name, e)
    ensures |e| < |name| ==> name[|name| - |e| - 1] == '.'
  {
    if name == [] then []
    else if name[|name| - 1] == '.' then []
    else
      var init, last := name[..|name| - 1], name[|name| - 1];
      var e0 := Extension(init);
      var e := e0 + [last];
      assert name[|name| - |e|..] == init[|init| - |e0|..] + [last];
      assert |e| < |name| ==> name[|name| - |e| - 1] == init[|init| - |e0| - 1];
      e
  }

  const DefaultExtensions: seq<string> := ["pdf", "doc", "docx", "jpg", "png", "zip"]

  /** `validateFileType(file, allowedTypes)`: a non-empty lower-cased extension that
      is on the list. */
  predicate ValidateFileType(file: FileInfo, allowedTypes: seq<string>) {
    var extension := ToLower(Extension(file.name));
    extension != "" && extension in allowedTypes
  }

  /** The extension of `stem.ext` is `ext` when `ext` has no '.'. */
  lemma {:induction false} ExtensionAfterDot(stem: string, ext: string)
    requires '.' !in ext
    ensures Extension(stem + "." + ext) == ext
  {
    var name := stem + "." + ext;
    if ext != [] {
      var init := stem + "." + ext[..|ext| - 1];
      assert name[..|name| - 1] == init;
      assert name[|name| - 1] == ext[|ext| - 1];
      ExtensionAfterDot(stem, ext[..|ext| - 1]);
      assert ext == ext[..|ext| - 1] + [ext[|ext| - 1]];
    }
  }

  /** Unlike the `src/utils.ts` rule, this one accepts a PDF by its name, in either case. */
  lemma DefaultExtensionsAcceptPdf(file: FileInfo, stem: string)
    requires file.name == stem + ".PDF" || file.name == stem + ".pdf"
    ensures ValidateFileType(file, DefaultExtensions)
  {
    var ext := file.name[|file.name| - 3..];
    assert file.name == stem + "." + ext;
    assert ext == "PDF" || ext == "pdf";
    ExtensionAfterDot(stem, ext);
    assert ToLower(ext) == "pdf";
    assert DefaultExtensions[0] == "pdf";
  }

  /** A name that ends in '.' has an empty extension and is refused. */
  lemma TrailingDotRejected(file: FileInfo, allowedTypes: seq<string>)
    requires file.name != [] && file.name[|file.name| - 1] == '.'
    ensures !ValidateFileType(file, allowedTypes)
  {
  }
}
