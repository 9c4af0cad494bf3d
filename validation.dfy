/**
 * The browser-side form checks (resources/js/utils/validation.js): the rule functions, the
 * first-error fold over a field's rules, and the form-wide pass over a schema. Values are
 * the strings the form inputs hold, or absent for a key the form data lacks.
 */
module Validation {
  import opened Wrappers
  import opened Text

  datatype FieldValue = Missing | Entered(s: string)

  /** JavaScript truthiness of a form value: every string but the empty one. */
  predicate JsTruthy(v: FieldValue) {
    v.Entered? && v.s != ""
  }

  /** The characters `String.prototype.trim` removes and the regex class `\s` matches. */
  predicate IsJsSpace(c: char) {
    || c == '\t' || c == '\n' || c == 11 as char || c == 12 as char || c == '\r' || c == ' '
    || c == 0xA0 as char || c == 0x1680 as char || (0x2000 as char <= c <= 0x200A as char)
    || c == 0x2028 as char || c == 0x2029 as char || c == 0x202F as char || c == 0x205F as char
    || c == 0x3000 as char || c == 0xFEFF as char
  }

  predicate Blank(s: string) {
    forall i :: 0 <= i < |s| ==> IsJsSpace(s[i])
  }

  function TrimStart(s: string): (r: string)
    ensures |r| <= |s| && r == s[|s| - |r|..]
    ensures Blank(s[..|s| - |r|])
    ensures r != [] ==> !IsJsSpace(r[0])
  {
    if s != [] && IsJsSpace(s[0]) then TrimStart(s[1..]) else s
  }

  function TrimEnd(s: string): (r: string)
    ensures |r| <= |s| && r == s[..|r|]
    ensures Blank(s[|r|..])
    ensures r != [] ==> !IsJsSpace(r[|r| - 1])
  {
    if s != [] && IsJsSpace(s[|s| - 1]) then TrimEnd(s[..|s| - 1]) else s
  }

  /** `String.prototype.trim`: the stretch of `s` left once whitespace is cut from both ends. */
  function Trim(s: string): (t: string)
    ensures |t| <= |s|
    ensures t != [] ==> !IsJsSpace(t[0]) && !IsJsSpace(t[|t| - 1])
    ensures Blank(s) ==> t == []
  {
    TrimEnd(TrimStart(s))
  }

  /** Trimming leaves nothing exactly when the string is all whitespace. */
  lemma TrimEmptyIffBlank(s: string)
    ensures Trim(s) == [] <==> Blank(s)
  {
    var t := TrimStart(s);
    var cut := |s| - |t|;
    if Trim(s) == [] {
      assert t[0..] == t;
      forall i | 0 <= i < |s|
        ensures IsJsSpace(s[i])
      {
        assert s[i] == s[..cut][i];
      }
    }
  }

  /** A string that starts and ends with visible characters is its own trim. */
  lemma TrimOfTrimmed(s: string)
    requires s != [] && !IsJsSpace(s[0]) && !IsJsSpace(s[|s| - 1])
    ensures Trim(s) == s
  {
  }

  /** `value.replace(/\s/g, "")`. */
  function StripSpaces(s: string): (r: string)
    ensures |r| <= |s|
    ensures forall i :: 0 <= i < |r| ==> !IsJsSpace(r[i])
  {
    if s == [] then []
    else if IsJsSpace(s[0]) then StripSpaces(s[1..])
    else [s[0]] + StripSpaces(s[1..])
  }

  /** Only whitespace is removed: a string with none is unchanged, and stripping is idempotent. */
  lemma {:induction false} StripSpacesKeepsVisible(s: string)
    ensures (forall i :: 0 <= i < |s| ==> !IsJsSpace(s[i])) ==> StripSpaces(s) == s
    ensures StripSpaces(StripSpaces(s)) == StripSpaces(s)
  {
    if s != [] {
      StripSpacesKeepsVisible(s[1..]);
      var rest := StripSpaces(s[1..]);
      if !IsJsSpace(s[0]) {
        assert ([s[0]] + rest)[1..] == rest;
      }
    }
  }

  // ---------------------------------------------------------------------------------------
  // `Number(value)`

  /** Position of the first '.', or -1. */
  function IndexOfDot(s: string): (k: int)
    ensures -1 <= k < |s|
    ensures k >= 0 ==> s[k] == '.' && forall i :: 0 <= i < k ==> s[i] != '.'
    ensures k == -1 ==> forall i :: 0 <= i < |s| ==> s[i] != '.'
  {
    if s == [] then -1
    else if s[0] == '.' then 0
    else
      var k := IndexOfDot(s[1..]);
      if k == -1 then -1 else k + 1
  }

  /** A decimal literal without sign: digits, optionally a '.', optionally more digits; at least one digit. */
  function ParseUnsigned(b: string): Option<real> {
    var k := IndexOfDot(b);
    if k == -1 then
      if b != [] && AllDigits(b) then Some(DigitsValue(b) as real) else None
    else
      var whole, fraction := b[..k], b[k + 1..];
      if AllDigits(whole) && AllDigits(fraction) && |whole| + |fraction| >= 1
      then Some(DigitsValue(whole) as real + DigitsValue(fraction) as real / Pow10(|fraction|) as real)
      else None
  }

  /**
   * `Number(s)` for a string, `None` standing for NaN: surrounding whitespace is ignored, the
   * empty string is 0, and a sign may precede the decimal literal.
   */
  function JsNumber(s: string): (r: Option<real>)
    ensures Blank(s) ==> r == Some(0.0)
  {
    var t := Trim(s);
    TrimEmptyIffBlank(s);
    if t == [] then Some(0.0)
    else if t[0] == '-' then
      match ParseUnsigned(t[1..]) case None => None case Some(x) => Some(-x)
    else if t[0] == '+' then ParseUnsigned(t[1..])
    else ParseUnsigned(t)
  }

  /** The decimal rendering of a whole number is read back as that number. */
  lemma JsNumberOfNatToString(n: nat)
    ensures JsNumber(NatToString(n)) == Some(n as real)
  {
    var s := NatToString(n);
    TrimOfTrimmed(s);
    DigitsValueOfNatToString(n);
    assert IndexOfDot(s) == -1;
  }

  // ---------------------------------------------------------------------------------------
  // The patterns

  /** A run of one or more characters that are neither whitespace nor '@'. */
  predicate EmailPart(s: string) {
    s != [] && forall i :: 0 <= i < |s| ==> !IsJsSpace(s[i]) && s[i] != '@'
  }

  /** The string matches `^[^\s@]+@[^\s@]+\.[^\s@]+$`: some split realises the pattern. */
  predicate MatchesEmail(s: string)
    ensures MatchesEmail(s) ==> |s| >= 5
  {
    exists i, j | 0 <= i < j < |s| ::
      EmailPart(s[..i]) && s[i] == '@' && EmailPart(s[i + 1..j]) && s[j] == '.' && EmailPart(s[j + 1..])
  }

  /** A matching address has no whitespace, exactly one '@' that is not first, and at least 5 characters. */
  lemma EmailShape(s: string)
    requires MatchesEmail(s)
    ensures |s| >= 5
    ensures forall k :: 0 <= k < |s| ==> !IsJsSpace(s[k])
    ensures exists i :: 0 < i < |s| && s[i] == '@' && forall k :: 0 <= k < |s| && k != i ==> s[k] != '@'
  {
    var i, j :| 0 <= i < j < |s| &&
      EmailPart(s[..i]) && s[i] == '@' && EmailPart(s[i + 1..j]) && s[j] == '.' && EmailPart(s[j + 1..]);
    forall k | 0 <= k < |s| && k != i
      ensures !IsJsSpace(s[k]) && s[k] != '@'
    {
      if k < i {
        assert s[k] == s[..i][k];
      } else if k < j {
        assert s[k] == s[i + 1..j][k - i - 1];
      } else if k > j {
        assert s[k] == s[j + 1..][k - j - 1];
      }
    }
  }

  lemma EmailAccepted()
    ensures MatchesEmail("a@b.c")
  {
    var s := "a@b.c";
    assert s[..1] == "a" && s[2..3] == "b" && s[4..] == "c";
    assert EmailPart(s[..1]) && s[1] == '@' && EmailPart(s[2..3]) && s[3] == '.' && EmailPart(s[4..]);
  }

  /** An address with two '@' signs never matches. */
  lemma EmailTwoAtRefused(s: string, p: nat, q: nat)
    requires p < q < |s| && s[p] == '@' && s[q] == '@'
    ensures !MatchesEmail(s)
  {
    if MatchesEmail(s) {
      EmailShape(s);
    }
  }

  /** Nor does one that starts with '@'. */
  lemma EmailLeadingAtRefused(s: string)
    requires |s| > 0 && s[0] == '@'
    ensures !MatchesEmail(s)
  {
    if MatchesEmail(s) {
      EmailShape(s);
    }
  }

  lemma EmailExamples()
    ensures MatchesEmail("a@b.c")
    ensures !MatchesEmail("a@b@c.d")
  {
    EmailAccepted();
    EmailTwoAtRefused("a@b@c.d", 1, 3);
  }

  predicate PhonePrefix(p: string) {
    p == "+62" || p == "62" || p == "0"
  }

  /** The string matches `^(\+62|62|0)[0-9]{9,12}$`. */
  predicate MatchesPhone(t: string)
    ensures MatchesPhone(t) ==> 10 <= |t| <= 15
  {
    exists k | 1 <= k <= 3 && k <= |t| ::
      PhonePrefix(t[..k]) && AllDigits(t[k..]) && 9 <= |t| - k <= 12
  }

  /** A matching number has 10 to 15 characters, all digits after an optional leading '+'. */
  lemma PhoneShape(t: string)
    requires MatchesPhone(t)
    ensures 10 <= |t| <= 15
    ensures forall i :: 1 <= i < |t| ==> IsDigit(t[i])
    ensures IsDigit(t[0]) || t[0] == '+'
  {
    var k :| 1 <= k <= 3 && k <= |t| && PhonePrefix(t[..k]) && AllDigits(t[k..]) && 9 <= |t| - k <= 12;
    forall i | 1 <= i < |t|
      ensures IsDigit(t[i])
    {
      if i >= k {
        assert t[i] == t[k..][i - k];
      } else {
        assert t[i] == t[..k][i];
      }
    }
    assert t[0] == t[..k][0];
  }

  /** `^[0-9]{5}$`. */
  /** Five digits; such a code also reads as the number it spells. */
  predicate MatchesPostalCode(s: string)
    ensures MatchesPostalCode(s) ==> AllDigits(s) && JsNumber(s) == Some(DigitsValue(s) as real)
  {
    if |s| == 5 && AllDigits(s) then
      TrimOfTrimmed(s);
      assert IndexOfDot(s) == -1;
      true
    else false
  }

  // ---------------------------------------------------------------------------------------
  // The rules

  datatype Rule =
    | Required
    | Email
    | Phone
    | MinLength(least: nat)
    | MaxLength(most: nat)
    | Numeric
    | Weight
    | Dimensions
    | PostalCode

  /**
   * A JavaScript string's `length`: UTF-16 code units, so a character outside the Basic
   * Multilingual Plane counts twice.
   */
  function Utf16Length(s: string): (n: nat)
    ensures |s| <= n <= 2 * |s|
  {
    if s == [] then 0 else (if s[0] as int >= 0x1_0000 then 2 else 1) + Utf16Length(s[1..])
  }

  /** The JavaScript length equals the number of characters exactly when every character is in the BMP. */
  lemma {:induction false} Utf16LengthOfBmp(s: string)
    ensures Utf16Length(s) == |s| <==> forall i :: 0 <= i < |s| ==> (s[i] as int) < 0x1_0000
  {
    if s != [] {
      Utf16LengthOfBmp(s[1..]);
      assert forall i :: 1 <= i < |s| ==> s[i] == s[1..][i - 1];
    }
  }

  /** A number (not NaN) in the half-open range (0, most]. */
  predicate PositiveUpTo(x: Option<real>, most: real) {
    x.Some? && 0.0 < x.value <= most
  }

  /** One validator applied to one value: `None` for `null`, otherwise the message. */
  function Check(rule: Rule, v: FieldValue): (r: Option<string>)
    ensures r.Some? ==> r.value != ""
    ensures rule != Required && !JsTruthy(v) ==> r.None?
  {
    if rule == Required then
      if !JsTruthy(v) || Trim(v.s) == "" then Some("This field is required") else None
    else if !JsTruthy(v) then None
    else
      var s := v.s;
      match rule
      case Email =>
        if !MatchesEmail(s) then Some("Please enter a valid email address") else None
      case Phone =>
        if !MatchesPhone(StripSpaces(s)) then Some("Please enter a valid Indonesian phone number") else None
      case MinLength(least) =>
        if Utf16Length(s) < least then Some("This field must be at least " + NatToString(least) + " characters long") else None
      case MaxLength(most) =>
        if Utf16Length(s) > most then Some("This field must not exceed " + NatToString(most) + " characters") else None
      case Numeric =>
        var x := JsNumber(s);
        if x.None? || x.value < 0.0 then Some("Please enter a valid positive number") else None
      case Weight =>
        if !PositiveUpTo(JsNumber(s), 30000.0) then Some("Weight must be between 1g and 30kg (30000g)") else None
      case Dimensions =>
        if !PositiveUpTo(JsNumber(s), 1000.0) then Some("Dimension must be between 1cm and 1000cm") else None
      case PostalCode =>
        if !MatchesPostalCode(s) then Some("Please enter a valid 5-digit postal code") else None
  }

  /** `required` passes exactly for a string with a visible character. */
  lemma RequiredRule(v: FieldValue)
    ensures Check(Required, v).None? <==> v.Entered? && !Blank(v.s)
  {
    if v.Entered? {
      TrimEmptyIffBlank(v.s);
    }
  }

  /** Every other rule lets an empty field through, so a field is mandatory only with `required`. */
  lemma OtherRulesAcceptEmpty(rule: Rule)
    requires rule != Required
    ensures Check(rule, Missing).None? && Check(rule, Entered("")).None?
  {
  }

  /** The three numeric rules read a non-empty entry through `Number`. */
  lemma NumberRules(s: string)
    requires s != ""
    ensures Check(Numeric, Entered(s)).None? <==> JsNumber(s).Some? && JsNumber(s).value >= 0.0
    ensures Check(Weight, Entered(s)).None? <==> PositiveUpTo(JsNumber(s), 30000.0)
    ensures Check(Dimensions, Entered(s)).None? <==> PositiveUpTo(JsNumber(s), 1000.0)
  {
  }

  /** A whole number of grams passes `weight` exactly when it lies in 1..30000. */
  lemma WeightRule(n: nat)
    ensures Check(Weight, Entered(NatToString(n))).None? <==> 1 <= n <= 30000
  {
    JsNumberOfNatToString(n);
    NumberRules(NatToString(n));
  }

  /** The server's bound on `package_weight` (StoreOrderRequest): an integer in 1..50000. */
  predicate ServerAcceptsWeight(n: int) {
    1 <= n <= 50000
  }

  /**
   * The two sides disagree: a weight between 30001 and 50000 grams is refused in the browser
   * although the server would take it; the converse never happens for whole numbers.
   */
  lemma WeightBoundsDisagree(n: nat)
    ensures Check(Weight, Entered(NatToString(n))).None? ==> ServerAcceptsWeight(n)
    ensures 30000 < n <= 50000 ==> ServerAcceptsWeight(n) && Check(Weight, Entered(NatToString(n))).Some?
  {
    WeightRule(n);
  }

  lemma DimensionsRule(n: nat)
    ensures Check(Dimensions, Entered(NatToString(n))).None? <==> 1 <= n <= 1000
  {
    JsNumberOfNatToString(n);
    NumberRules(NatToString(n));
  }

  /** `numeric` accepts every whole number, since none is negative. */
  lemma NumericAcceptsNaturals(n: nat)
    ensures Check(Numeric, Entered(NatToString(n))).None?
  {
    JsNumberOfNatToString(n);
    NumberRules(NatToString(n));
  }

  /** `postalCode` passes an entered string exactly when it is empty or five digits. */
  lemma PostalCodeRule(s: string)
    ensures Check(PostalCode, Entered(s)).None? <==> s == "" || MatchesPostalCode(s)
  {
  }

  /** The length rules compare the UTF-16 length with the bound, and only for a non-empty entry. */
  lemma LengthRules(s: string, k: nat)
    ensures Check(MinLength(k), Entered(s)).Some? <==> s != "" && Utf16Length(s) < k
    ensures Check(MaxLength(k), Entered(s)).Some? <==> s != "" && Utf16Length(s) > k
  {
  }

  /** U+1F600, a character outside the Basic Multilingual Plane. */
  const GrinningFace: char := 0x1F600 as char

  /** A single emoji is one character but two code units, so a one-character maximum refuses it. */
  lemma LengthCountsCodeUnits()
    ensures Check(MaxLength(1), Entered([GrinningFace])).Some?
    ensures Check(MinLength(2), Entered([GrinningFace])).None?
  {
    assert Utf16Length([GrinningFace]) == 2;
  }

  /** The pattern rules pass a non-empty entry exactly when it matches (phone: once whitespace is removed). */
  lemma PatternRules(s: string)
    requires s != ""
    ensures Check(Email, Entered(s)).None? <==> MatchesEmail(s)
    ensures Check(Phone, Entered(s)).None? <==> MatchesPhone(StripSpaces(s))
    ensures Check(PostalCode, Entered(s)).None? <==> MatchesPostalCode(s)
  {
  }

  /** Spaces inside a phone number are ignored. */
  lemma PhoneIgnoresSpaces(s: string)
    requires JsTruthy(Entered(s)) && JsTruthy(Entered(StripSpaces(s)))
    ensures Check(Phone, Entered(s)) == Check(Phone, Entered(StripSpaces(s)))
  {
    StripSpacesKeepsVisible(s);
  }

  // ---------------------------------------------------------------------------------------
  // Fields and forms

  /** A field's rules: one validator, or an array of them. */
  datatype FieldRules = Single(rule: Rule) | Several(rules: seq<Rule>)

  function RuleList(spec: FieldRules): seq<Rule> {
    match spec
    case Single(rule) => [rule]
    case Several(rules) => rules
  }

  /** The message of the first rule that fails, if any. */
  function FirstError(v: FieldValue, rules: seq<Rule>): (r: Option<string>)
    ensures r.None? <==> forall k :: 0 <= k < |rules| ==> Check(rules[k], v).None?
    ensures r.Some? ==>
              exists k :: 0 <= k < |rules| && Check(rules[k], v) == r
                          && forall j :: 0 <= j < k ==> Check(rules[j], v).None?
  {
    if rules == [] then None
    else if Check(rules[0], v).Some? then Check(rules[0], v)
    else
      FirstError(v, rules[1..])
  }

  /** When every rule before position `i` passes and rule `i` fails, its message is the field's error. */
  lemma {:induction false} FirstErrorAt(v: FieldValue, rules: seq<Rule>, i: nat)
    requires i < |rules|
    requires forall j :: 0 <= j < i ==> Check(rules[j], v).None?
    requires Check(rules[i], v).Some?
    ensures FirstError(v, rules) == Check(rules[i], v)
    decreases i
  {
    if i > 0 {
      FirstErrorAt(v, rules[1..], i - 1);
    }
  }

  /** `validateField`: run the rules in order and stop at the first message. */
  method ValidateField(v: FieldValue, spec: FieldRules) returns (error: Option<string>)
    ensures error == FirstError(v, RuleList(spec))
  {
    var rules := RuleList(spec);
    var i := 0;
    while i < |rules|
      invariant 0 <= i <= |rules|
      invariant forall j :: 0 <= j < i ==> Check(rules[j], v).None?
    {
      var e := Check(rules[i], v);
      if e.Some? {
        FirstErrorAt(v, rules, i);
        return e;
      }
      i := i + 1;
    }
    return None;
  }

  /** `formData[field]`, undefined when the key is absent. */
  function FieldValueIn(formData: map<string, FieldValue>, field: string): FieldValue {
    if field in formData then formData[field] else Missing
  }

  /** One entry of a validation schema: a field name and its rules, in the object's key order. */
  datatype FieldSpec = FieldSpec(name: string, rules: FieldRules)

  /** The error of one schema entry. */
  function FieldError(formData: map<string, FieldValue>, spec: FieldSpec): Option<string> {
    FirstError(FieldValueIn(formData, spec.name), RuleList(spec.rules))
  }

  /** Each schema entry's name with its error, in the schema's order. */
  function Outcomes(formData: map<string, FieldValue>, schema: seq<FieldSpec>): (r: seq<(string, Option<string>)>)
    ensures |r| == |schema|
    ensures forall i :: 0 <= i < |schema| ==> r[i] == (schema[i].name, FieldError(formData, schema[i]))
  {
    seq(|schema|, i requires 0 <= i < |schema| => (schema[i].name, FieldError(formData, schema[i])))
  }

  /** The `errors` object the loop builds: each failing entry sets its field's message. */
  function Collect(outcomes: seq<(string, Option<string>)>): map<string, string> {
    if outcomes == [] then map[]
    else
      var before := Collect(outcomes[..|outcomes| - 1]);
      var (name, error) := outcomes[|outcomes| - 1];
      if error.Some? then before[name := error.value] else before
  }

  /** The `errors` object of `validateForm`: messages only, and only under the schema's field names. */
  function FormErrors(formData: map<string, FieldValue>, schema: seq<FieldSpec>): (errors: map<string, string>)
    ensures forall f :: f in errors ==> exists i :: 0 <= i < |schema| && schema[i].name == f
  {
    var outcomes := Outcomes(formData, schema);
    CollectWithin(outcomes);
    Collect(outcomes)
  }

  /** Every key of the collected errors is the name of some entry. */
  lemma {:induction false} CollectWithin(outcomes: seq<(string, Option<string>)>)
    ensures forall f :: f in Collect(outcomes) ==> exists i :: 0 <= i < |outcomes| && outcomes[i].0 == f
    decreases |outcomes|
  {
    if outcomes != [] {
      var init := outcomes[..|outcomes| - 1];
      CollectWithin(init);
      forall f | f in Collect(outcomes)
        ensures exists i :: 0 <= i < |outcomes| && outcomes[i].0 == f
      {
        if f != outcomes[|outcomes| - 1].0 {
          assert f in Collect(init);
          var i :| 0 <= i < |init| && init[i].0 == f;
          assert outcomes[i].0 == f;
        }
      }
    }
  }

  /** A field has a message exactly when some entry of that name failed. */
  lemma {:induction false} CollectKeys(outcomes: seq<(string, Option<string>)>, f: string)
    ensures f in Collect(outcomes) <==> exists i :: 0 <= i < |outcomes| && outcomes[i].0 == f && outcomes[i].1.Some?
    decreases |outcomes|
  {
    if outcomes != [] {
      var init := outcomes[..|outcomes| - 1];
      CollectKeys(init, f);
      if exists i :: 0 <= i < |init| && init[i].0 == f && init[i].1.Some? {
        var i :| 0 <= i < |init| && init[i].0 == f && init[i].1.Some?;
        assert outcomes[i] == init[i];
      }
      if exists i :: 0 <= i < |outcomes| && outcomes[i].0 == f && outcomes[i].1.Some? {
        var i :| 0 <= i < |outcomes| && outcomes[i].0 == f && outcomes[i].1.Some?;
        if i < |init| {
          assert init[i] == outcomes[i];
        }
      }
    }
  }

  /** The form is valid exactly when every field of the schema passes all its rules. */
  lemma FormValidIffEveryFieldPasses(formData: map<string, FieldValue>, schema: seq<FieldSpec>)
    ensures FormErrors(formData, schema) == map[] <==>
              forall i :: 0 <= i < |schema| ==> FieldError(formData, schema[i]).None?
  {
    var outcomes := Outcomes(formData, schema);
    if FormErrors(formData, schema) != map[] {
      var f :| f in Collect(outcomes);
      CollectKeys(outcomes, f);
    } else {
      forall i | 0 <= i < |schema|
        ensures FieldError(formData, schema[i]).None?
      {
        CollectKeys(outcomes, schema[i].name);
      }
    }
  }

  /** A field named by no schema entry never has a message. */
  lemma FormErrorsOnlySchemaFields(formData: map<string, FieldValue>, schema: seq<FieldSpec>, f: string)
    requires forall i :: 0 <= i < |schema| ==> schema[i].name != f
    ensures f !in FormErrors(formData, schema)
  {
    CollectKeys(Outcomes(formData, schema), f);
  }

  /** Only the schema's fields are looked at: other keys of the form data do not matter. */
  lemma FormErrorsIgnoreExtraData(a: map<string, FieldValue>, b: map<string, FieldValue>, schema: seq<FieldSpec>)
    requires forall i :: 0 <= i < |schema| ==> FieldValueIn(a, schema[i].name) == FieldValueIn(b, schema[i].name)
    ensures FormErrors(a, schema) == FormErrors(b, schema)
  {
    assert Outcomes(a, schema) == Outcomes(b, schema);
  }

  /** Extending the outcomes by one entry adds that entry's message, if it has one. */
  lemma CollectStep(outcomes: seq<(string, Option<string>)>, i: nat)
    requires i < |outcomes|
    ensures Collect(outcomes[..i + 1]) ==
              if outcomes[i].1.Some? then Collect(outcomes[..i])[outcomes[i].0 := outcomes[i].1.value]
              else Collect(outcomes[..i])
  {
    assert outcomes[..i + 1][..i] == outcomes[..i];
  }

  /** `validateForm`: check every field of the schema in order and collect the messages. */
  method ValidateForm(formData: map<string, FieldValue>, schema: seq<FieldSpec>)
    returns (isValid: bool, errors: map<string, string>)
    ensures errors == FormErrors(formData, schema)
    ensures isValid <==> errors == map[]
  {
    ghost var outcomes := Outcomes(formData, schema);
    errors := map[];
    isValid := true;
    for i := 0 to |schema|
      invariant errors == Collect(outcomes[..i])
      invariant isValid <==> errors == map[]
    {
      var name := schema[i].name;
      var e := ValidateField(FieldValueIn(formData, name), schema[i].rules);
      assert outcomes[i] == (name, e);
      CollectStep(outcomes, i);
      if e.Some? {
        errors := errors[name := e.value];
        assert name in errors;
        isValid := false;
      }
    }
    assert outcomes[..|schema|] == outcomes;
  }
}
