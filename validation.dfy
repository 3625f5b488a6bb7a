/**
 * The rule engine the route handlers use to validate request bodies: every
 * named field is examined once, a missing required field gets only the
 * "requis" message, a missing optional field is skipped, and otherwise each
 * check that fails overwrites the field's message, so the last failing check
 * wins.
 */
module Validation {

  import opened Wrappers
  import opened Js
  import opened Strings
  import opened ApiUtils

  /**
   * One entry of a rule table. `pattern` stands for a regular expression's
   * `test`; `custom` returns `true` for success, a message, or any other value
   * for the generic "invalide" message.
   */
  datatype Rule = Rule(
    required: bool,
    minLength: Option<int>,
    maxLength: Option<int>,
    pattern: Option<string -> bool>,
    isUUID: bool,
    enumValues: Option<seq<string>>,
    isDate: bool,
    custom: Option<Value -> Value>)

  /** The rule with no check at all; tables are written as updates of it. */
  const NoChecks := Rule(false, None, None, None, false, None, false, None)

  /** A value the engine treats as "not provided": undefined, null or ''. */
  predicate Blank(v: Value) {
    v == Undefined || v == Null || v == Str("")
  }

  /** `String.prototype.length`: characters outside the Basic Multilingual Plane count twice (UTF-16). */
  function JsLength(s: string): (n: nat)
    ensures n >= |s|
    ensures (forall i :: 0 <= i < |s| ==> (s[i] as int) < 0x10000) ==> n == |s|
  {
    if s == [] then 0 else JsLength(s[..|s| - 1]) + (if (s[|s| - 1] as int) >= 0x10000 then 2 else 1)
  }

  predicate IsHex(c: char) {
    '0' <= c <= '9' || 'a' <= c <= 'f' || 'A' <= c <= 'F'
  }

  /**
   * `/^[0-9a-f]{8}-[0-9a-f]{4}-[1-5][0-9a-f]{3}-[89ab][0-9a-f]{3}-[0-9a-f]{12}$/i`:
   * the RFC 4122 text form, with version digit 1-5 (section 4.1.3) and the
   * variant nibble 8, 9, a or b (section 4.1.1), letters in either case.
   */
  predicate IsUuid(s: string) {
    |s| == 36 &&
    (forall i :: 0 <= i < 36 && i !in {8, 13, 18, 23} ==> IsHex(s[i])) &&
    s[8] == '-' && s[13] == '-' && s[18] == '-' && s[23] == '-' &&
    '1' <= s[14] <= '5' &&
    s[19] in {'8', '9', 'a', 'b', 'A', 'B'}
  }

  // ------------------------------------------------------------- messages

  function RequiredMessage(field: string): string {
    "Le champ " + field + " est requis"
  }

  function MinLengthMessage(field: string, n: int): string {
    "Le champ " + field + " doit contenir au moins " + IntToString(n) + " caractères"
  }

  function MaxLengthMessage(field: string, n: int): string {
    "Le champ " + field + " doit contenir au maximum " + IntToString(n) + " caractères"
  }

  function PatternMessage(field: string): string {
    "Le champ " + field + " ne respecte pas le format attendu"
  }

  function UuidMessage(field: string): string {
    "Le champ " + field + " doit être un UUID valide"
  }

  function EnumMessage(field: string, values: seq<string>): string {
    "Le champ " + field + " doit être l'une des valeurs suivantes: " + Join(values, ", ")
  }

  function DateMessage(field: string): string {
    "Le champ " + field + " doit être une date valide"
  }

  function InvalidMessage(field: string): string {
    "Le champ " + field + " est invalide"
  }

  // ---------------------------------------------------------- the checks

  /*
   * Each check yields the message it writes, or nothing when it passes.
   * `validDate` stands for `!isNaN(new Date(value).getTime())`.
   */

  function MinCheck(field: string, v: Value, rule: Rule): seq<string> {
    if rule.minLength.Some? && v.Str? && JsLength(v.s) < rule.minLength.value
    then [MinLengthMessage(field, rule.minLength.value)] else []
  }

  function MaxCheck(field: string, v: Value, rule: Rule): seq<string> {
    if rule.maxLength.Some? && v.Str? && JsLength(v.s) > rule.maxLength.value
    then [MaxLengthMessage(field, rule.maxLength.value)] else []
  }

  function PatternCheck(field: string, v: Value, rule: Rule): seq<string> {
    if rule.pattern.Some? && v.Str? && !rule.pattern.value(v.s) then [PatternMessage(field)] else []
  }

  function UuidCheck(field: string, v: Value, rule: Rule): seq<string> {
    if rule.isUUID && v.Str? && !IsUuid(v.s) then [UuidMessage(field)] else []
  }

  /** `!rule.enum.includes(value)`: only a string equal to one of the listed values is accepted. */
  function EnumCheck(field: string, v: Value, rule: Rule): seq<string> {
    if rule.enumValues.Some? && !(v.Str? && v.s in rule.enumValues.value)
    then [EnumMessage(field, rule.enumValues.value)] else []
  }

  function DateCheck(field: string, v: Value, rule: Rule, validDate: Value -> bool): seq<string> {
    if rule.isDate && !validDate(v) then [DateMessage(field)] else []
  }

  function CustomCheck(field: string, v: Value, rule: Rule): seq<string> {
    if rule.custom.Some? && rule.custom.value(v) != Bool(true) then
      var res := rule.custom.value(v);
      [if res.Str? then res.s else InvalidMessage(field)]
    else []
  }

  /** The messages of the failing checks of a present value, in the order the checks run. */
  function Failures(field: string, v: Value, rule: Rule, validDate: Value -> bool): seq<string> {
    MinCheck(field, v, rule) + MaxCheck(field, v, rule) + PatternCheck(field, v, rule) +
    UuidCheck(field, v, rule) + EnumCheck(field, v, rule) + DateCheck(field, v, rule, validDate) +
    CustomCheck(field, v, rule)
  }

  /** The one message a field ends up with: "requis", nothing for a blank optional value, or the last failure. */
  function FieldError(field: string, v: Value, rule: Rule, validDate: Value -> bool): Option<string> {
    if rule.required && Blank(v) then Some(RequiredMessage(field))
    else if Blank(v) then None
    else
      var f := Failures(field, v, rule, validDate);
      if f == [] then None else Some(f[|f| - 1])
  }

  /**
   * Every condition a field must meet, stated check by check; the reference
   * against which `FieldError` is proved.
   */
  predicate Passes(v: Value, rule: Rule, validDate: Value -> bool) {
    !(rule.required && Blank(v)) &&
    (Blank(v) ||
      ((rule.minLength.Some? && v.Str? ==> JsLength(v.s) >= rule.minLength.value) &&
       (rule.maxLength.Some? && v.Str? ==> JsLength(v.s) <= rule.maxLength.value) &&
       (rule.pattern.Some? && v.Str? ==> rule.pattern.value(v.s)) &&
       (rule.isUUID && v.Str? ==> IsUuid(v.s)) &&
       (rule.enumValues.Some? ==> v.Str? && v.s in rule.enumValues.value) &&
       (rule.isDate ==> validDate(v)) &&
       (rule.custom.Some? ==> rule.custom.value(v) == Bool(true))))
  }

  /** A field has no message exactly when it passes every check its rule names. */
  lemma FieldErrorNoneIffPasses(field: string, v: Value, rule: Rule, validDate: Value -> bool)
    ensures FieldError(field, v, rule, validDate).None? <==> Passes(v, rule, validDate)
  {
    if !Blank(v) {
      var f := Failures(field, v, rule, validDate);
      assert f == [] <==> MinCheck(field, v, rule) == [] && MaxCheck(field, v, rule) == [] &&
                          PatternCheck(field, v, rule) == [] && UuidCheck(field, v, rule) == [] &&
                          EnumCheck(field, v, rule) == [] && DateCheck(field, v, rule, validDate) == [] &&
                          CustomCheck(field, v, rule) == [];
    }
  }

  /** A missing required field gets the "requis" message and nothing else is checked. */
  lemma RequiredBlankOnlyRequis(field: string, v: Value, rule: Rule, validDate: Value -> bool)
    requires rule.required && Blank(v)
    ensures FieldError(field, v, rule, validDate) == Some(RequiredMessage(field))
  {
  }

  /** A missing optional field never fails. */
  lemma OptionalBlankPasses(field: string, v: Value, rule: Rule, validDate: Value -> bool)
    requires !rule.required && Blank(v)
    ensures FieldError(field, v, rule, validDate).None?
  {
  }

  /** Length limits apply only to strings. */
  lemma LengthOnlyOnStrings(field: string, v: Value, rule: Rule)
    requires !v.Str?
    ensures MinCheck(field, v, rule) == [] && MaxCheck(field, v, rule) == []
  {
  }

  /** A present value that is not one of the listed strings always fails, whatever its type. */
  lemma EnumRejectsUnlisted(field: string, v: Value, rule: Rule, validDate: Value -> bool)
    requires !Blank(v) && rule.enumValues.Some?
    requires !(v.Str? && v.s in rule.enumValues.value)
    ensures FieldError(field, v, rule, validDate).Some?
  {
    FieldErrorNoneIffPasses(field, v, rule, validDate);
  }

  /** The last failing check wins: a failing custom check replaces every earlier message. */
  lemma CustomOverridesEarlier(field: string, v: Value, rule: Rule, validDate: Value -> bool)
    requires !Blank(v) && rule.custom.Some? && rule.custom.value(v) != Bool(true)
    ensures FieldError(field, v, rule, validDate) ==
              Some(if rule.custom.value(v).Str? then rule.custom.value(v).s else InvalidMessage(field))
  {
  }

  // ------------------------------------------------------------ the table

  /** The `errors` object after the rules have been examined in order; a later entry for a name overwrites. */
  function ErrorsOf(data: map<string, Value>, rules: seq<(string, Rule)>, validDate: Value -> bool): map<string, string>
    decreases |rules|
  {
    if rules == [] then map[]
    else
      var m := ErrorsOf(data, rules[..|rules| - 1], validDate);
      var (field, rule) := rules[|rules| - 1];
      match FieldError(field, Get(data, field), rule, validDate)
      case Some(msg) => m[field := msg]
      case None => m
  }

  predicate DistinctFields(rules: seq<(string, Rule)>) {
    forall i, j :: 0 <= i < j < |rules| ==> rules[i].0 != rules[j].0
  }

  /** Only fields named by the rules can carry a message. */
  lemma {:induction false} ErrorsOnlyNamedFields(data: map<string, Value>, rules: seq<(string, Rule)>, validDate: Value -> bool)
    ensures forall f :: f in ErrorsOf(data, rules, validDate) ==> exists i :: 0 <= i < |rules| && rules[i].0 == f
    decreases |rules|
  {
    if rules != [] {
      var init := rules[..|rules| - 1];
      ErrorsOnlyNamedFields(data, init, validDate);
      forall f | f in ErrorsOf(data, rules, validDate)
        ensures exists i :: 0 <= i < |rules| && rules[i].0 == f
      {
        if f != rules[|rules| - 1].0 {
          assert f in ErrorsOf(data, init, validDate);
          var i :| 0 <= i < |init| && init[i].0 == f;
          assert rules[i] == init[i];
        }
      }
    }
  }

  /**
   * With one rule per name (as in an object literal), a field carries a
   * message exactly when its own rule fails, and the message is that field's.
   */
  lemma ErrorsPerField(data: map<string, Value>, rules: seq<(string, Rule)>, validDate: Value -> bool)
    requires DistinctFields(rules)
    ensures forall i :: 0 <= i < |rules| ==>
              var e := FieldError(rules[i].0, Get(data, rules[i].0), rules[i].1, validDate);
              (rules[i].0 in ErrorsOf(data, rules, validDate) <==> e.Some?) &&
              (e.Some? ==> ErrorsOf(data, rules, validDate)[rules[i].0] == e.value)
  {
    forall i | 0 <= i < |rules|
      ensures var e := FieldError(rules[i].0, Get(data, rules[i].0), rules[i].1, validDate);
              (rules[i].0 in ErrorsOf(data, rules, validDate) <==> e.Some?) &&
              (e.Some? ==> ErrorsOf(data, rules, validDate)[rules[i].0] == e.value)
    {
      ErrorsAtField(data, rules, validDate, i);
    }
  }

  /** The entry of the field of rule `i` is that rule's own message, when its field is named once. */
  lemma {:induction false} ErrorsAtField(data: map<string, Value>, rules: seq<(string, Rule)>, validDate: Value -> bool, i: nat)
    requires DistinctFields(rules) && i < |rules|
    ensures var e := FieldError(rules[i].0, Get(data, rules[i].0), rules[i].1, validDate);
            (rules[i].0 in ErrorsOf(data, rules, validDate) <==> e.Some?) &&
            (e.Some? ==> ErrorsOf(data, rules, validDate)[rules[i].0] == e.value)
    decreases |rules|
  {
    var init := rules[..|rules| - 1];
    var last := rules[|rules| - 1].0;
    if i == |rules| - 1 {
      ErrorsOnlyNamedFields(data, init, validDate);
      forall k | 0 <= k < |init| ensures init[k].0 != last {
        assert init[k] == rules[k];
      }
    } else {
      forall a, b | 0 <= a < b < |init| ensures init[a].0 != init[b].0 {
        assert init[a] == rules[a] && init[b] == rules[b];
      }
      assert rules[i] == init[i];
      ErrorsAtField(data, init, validDate, i);
    }
  }

  /** Data fields that no rule names never influence the outcome. */
  lemma {:induction false} ExtraFieldsIgnored(data: map<string, Value>, data': map<string, Value>,
                                              rules: seq<(string, Rule)>, validDate: Value -> bool)
    requires forall i :: 0 <= i < |rules| ==> Get(data, rules[i].0) == Get(data', rules[i].0)
    ensures ErrorsOf(data, rules, validDate) == ErrorsOf(data', rules, validDate)
    decreases |rules|
  {
    if rules != [] {
      var init := rules[..|rules| - 1];
      forall i | 0 <= i < |init| ensures Get(data, init[i].0) == Get(data', init[i].0) {
        assert init[i] == rules[i];
      }
      ExtraFieldsIgnored(data, data', init, validDate);
    }
  }

  /** The date parser is consulted only by rules that ask for a date. */
  lemma {:induction false} DateParserIrrelevant(data: map<string, Value>, rules: seq<(string, Rule)>,
                                                p: Value -> bool, q: Value -> bool)
    requires forall i :: 0 <= i < |rules| ==> !rules[i].1.isDate
    ensures ErrorsOf(data, rules, p) == ErrorsOf(data, rules, q)
    decreases |rules|
  {
    if rules != [] {
      var init := rules[..|rules| - 1];
      forall i | 0 <= i < |init| ensures !init[i].1.isDate {
        assert init[i] == rules[i];
      }
      DateParserIrrelevant(data, init, p, q);
    }
  }

  /** A date parser for tables that have no date rule (see `DateParserIrrelevant`). */
  const NoDates: Value -> bool := (v: Value) => true

  /** `Object.keys(errors).length > 0 ? errors : null`. */
  function Outcome(errors: map<string, string>): (r: Option<map<string, string>>)
    ensures r.None? <==> errors == map[]
    ensures r.Some? ==> r.value == errors
  {
    if |errors| > 0 then Some(errors) else None
  }

  /**
   * `validateData`: walks the rules in order and writes `errors[field]` as
   * each check fails, skipping to the next field after a missing value.
   */
  method ValidateData(data: map<string, Value>, rules: seq<(string, Rule)>, validDate: Value -> bool)
    returns (result: Option<map<string, string>>)
    ensures result == Outcome(ErrorsOf(data, rules, validDate))
  {
    var errors: map<string, string> := map[];
    for i := 0 to |rules|
      invariant errors == ErrorsOf(data, rules[..i], validDate)
    {
      assert rules[..i + 1][..i] == rules[..i];
      var (field, rule) := rules[i];
      var value := Get(data, field);

      if rule.required && Blank(value) {
        errors := errors[field := RequiredMessage(field)];
        continue;
      }
      if Blank(value) && !rule.required {
        continue;
      }

      errors := ApplyChecks(errors, field, value, rule, validDate);
    }
    assert rules[..|rules|] == rules;
    result := if |errors| > 0 then Some(errors) else None;
  }

  /** The checks of `validateData` for a present value: each failing check overwrites `errors[field]`. */
  method ApplyChecks(errors0: map<string, string>, field: string, value: Value, rule: Rule, validDate: Value -> bool)
    returns (errors: map<string, string>)
    ensures errors == Overwritten(errors0, field, Failures(field, value, rule, validDate))
  {
    var e4 := ApplyFormatChecks(errors0, field, value, rule);
    errors := ApplyValueChecks(e4, field, value, rule, validDate);
    ChecksInSequence(errors0, field, value, rule, validDate);
  }

  /** The length, pattern and UUID checks, which look only at strings. */
  method ApplyFormatChecks(errors0: map<string, string>, field: string, value: Value, rule: Rule)
    returns (errors: map<string, string>)
    ensures errors == Overwritten(Overwritten(Overwritten(Overwritten(errors0,
                        field, MinCheck(field, value, rule)), field, MaxCheck(field, value, rule)),
                        field, PatternCheck(field, value, rule)), field, UuidCheck(field, value, rule))
  {
    errors := errors0;
    if rule.minLength.Some? && value.Str? && JsLength(value.s) < rule.minLength.value {
      errors := errors[field := MinLengthMessage(field, rule.minLength.value)];
    }
    ghost var e1 := errors;
    assert e1 == Overwritten(errors0, field, MinCheck(field, value, rule));
    if rule.maxLength.Some? && value.Str? && JsLength(value.s) > rule.maxLength.value {
      errors := errors[field := MaxLengthMessage(field, rule.maxLength.value)];
    }
    ghost var e2 := errors;
    assert e2 == Overwritten(e1, field, MaxCheck(field, value, rule));
    if rule.pattern.Some? && value.Str? && !rule.pattern.value(value.s) {
      errors := errors[field := PatternMessage(field)];
    }
    ghost var e3 := errors;
    assert e3 == Overwritten(e2, field, PatternCheck(field, value, rule));
    if rule.isUUID && value.Str? && !IsUuid(value.s) {
      errors := errors[field := UuidMessage(field)];
    }
    assert errors == Overwritten(e3, field, UuidCheck(field, value, rule));
  }

  /** The enum, date and custom checks, which apply to values of any type. */
  method ApplyValueChecks(errors0: map<string, string>, field: string, value: Value, rule: Rule, validDate: Value -> bool)
    returns (errors: map<string, string>)
    ensures errors == Overwritten(Overwritten(Overwritten(errors0,
                        field, EnumCheck(field, value, rule)), field, DateCheck(field, value, rule, validDate)),
                        field, CustomCheck(field, value, rule))
  {
    errors := errors0;
    if rule.enumValues.Some? && !(value.Str? && value.s in rule.enumValues.value) {
      errors := errors[field := EnumMessage(field, rule.enumValues.value)];
    }
    ghost var e5 := errors;
    assert e5 == Overwritten(errors0, field, EnumCheck(field, value, rule));
    if rule.isDate {
      if !validDate(value) {
        errors := errors[field := DateMessage(field)];
      }
    }
    ghost var e6 := errors;
    assert e6 == Overwritten(e5, field, DateCheck(field, value, rule, validDate));
    if rule.custom.Some? {
      var res := rule.custom.value(value);
      if res != Bool(true) {
        errors := errors[field := if res.Str? then res.s else InvalidMessage(field)];
      }
    }
    assert errors == Overwritten(e6, field, CustomCheck(field, value, rule));
  }

  /** Running the seven checks one after the other writes the last failure, as `Failures` lists them. */
  lemma ChecksInSequence(m: map<string, string>, field: string, v: Value, rule: Rule, validDate: Value -> bool)
    ensures Overwritten(Overwritten(Overwritten(Overwritten(Overwritten(Overwritten(Overwritten(m, field,
              MinCheck(field, v, rule)), field, MaxCheck(field, v, rule)), field, PatternCheck(field, v, rule)),
              field, UuidCheck(field, v, rule)), field, EnumCheck(field, v, rule)),
              field, DateCheck(field, v, rule, validDate)), field, CustomCheck(field, v, rule))
            == Overwritten(m, field, Failures(field, v, rule, validDate))
  {
    var a := MinCheck(field, v, rule);
    var b := MaxCheck(field, v, rule);
    var c := PatternCheck(field, v, rule);
    var d := UuidCheck(field, v, rule);
    var e := EnumCheck(field, v, rule);
    var f := DateCheck(field, v, rule, validDate);
    var g := CustomCheck(field, v, rule);
    OverwriteStep(m, field, a, b);
    OverwriteStep(m, field, a + b, c);
    OverwriteStep(m, field, a + b + c, d);
    OverwriteStep(m, field, a + b + c + d, e);
    OverwriteStep(m, field, a + b + c + d + e, f);
    OverwriteStep(m, field, a + b + c + d + e + f, g);
  }

  /** `m` after writing each of `msgs` into `m[field]` in turn. */
  function Overwritten(m: map<string, string>, field: string, msgs: seq<string>): map<string, string> {
    if msgs == [] then m else m[field := msgs[|msgs| - 1]]
  }

  lemma OverwriteStep(m: map<string, string>, field: string, msgs: seq<string>, next: seq<string>)
    requires |next| <= 1
    ensures Overwritten(Overwritten(m, field, msgs), field, next) == Overwritten(m, field, msgs + next)
  {
    if next == [] { assert msgs + next == msgs; }
  }

  const MSG_INVALID_DATA := "Les données fournies ne sont pas valides"

  /** The errors map as the JSON object placed in `details.errors`. */
  function ErrorsJson(errors: map<string, string>): (v: Value)
    ensures v.Obj? && v.fields.Keys == errors.Keys
    ensures forall f :: f in errors ==> v.fields[f] == Str(errors[f])
  {
    Obj(map f | f in errors :: Str(errors[f]))
  }

  /**
   * What `validateRequest` returns, as a function for the route handlers:
   * nothing when every field passes, otherwise a VALIDATION error with status
   * 400 whose details hold the errors.
   */
  function RequestCheck(data: map<string, Value>, rules: seq<(string, Rule)>, validDate: Value -> bool): (r: Option<Response>)
    ensures r.None? <==> ErrorsOf(data, rules, validDate) == map[]
    ensures r.Some? ==> r.value.status == 400 && r.value.body.Failure? &&
                        r.value.body.code == ERR_VALIDATION && r.value.body.message == MSG_INVALID_DATA &&
                        r.value.body.details == Some(Obj(map["errors" := ErrorsJson(ErrorsOf(data, rules, validDate))]))
  {
    var errors := ErrorsOf(data, rules, validDate);
    match Outcome(errors)
    case None => None
    case Some(e) => Some(ApiError(MSG_INVALID_DATA, ERR_VALIDATION, 400, Obj(map["errors" := ErrorsJson(e)])))
  }

  /** `validateRequest`: runs `validateData` and wraps a non-null result in the error response. */
  method ValidateRequest(data: map<string, Value>, rules: seq<(string, Rule)>, validDate: Value -> bool)
    returns (r: Option<Response>)
    ensures r == RequestCheck(data, rules, validDate)
  {
    var errors := ValidateData(data, rules, validDate);
    if errors.Some? {
      return Some(ApiError(MSG_INVALID_DATA, ERR_VALIDATION, 400, Obj(map["errors" := ErrorsJson(errors.value)])));
    }
    return None;
  }

  /** `validateRequest` passes a request exactly when every named field passes its rule (one rule per name). */
  lemma RequestPassesIffAllFieldsPass(data: map<string, Value>, rules: seq<(string, Rule)>, validDate: Value -> bool)
    requires DistinctFields(rules)
    ensures RequestCheck(data, rules, validDate).None? <==>
            forall i :: 0 <= i < |rules| ==> Passes(Get(data, rules[i].0), rules[i].1, validDate)
  {
    ErrorsPerField(data, rules, validDate);
    ErrorsOnlyNamedFields(data, rules, validDate);
    forall i | 0 <= i < |rules|
      ensures FieldError(rules[i].0, Get(data, rules[i].0), rules[i].1, validDate).None? <==>
              Passes(Get(data, rules[i].0), rules[i].1, validDate)
    {
      FieldErrorNoneIffPasses(rules[i].0, Get(data, rules[i].0), rules[i].1, validDate);
    }
    if ErrorsOf(data, rules, validDate) != map[] {
      var f :| f in ErrorsOf(data, rules, validDate);
    }
  }
}
