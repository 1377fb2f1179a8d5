/**
 * The field-rule checker every builder calls before it reads its input.
 *
 * A rule table maps a (possibly dotted) attribute path to a list of rules.
 * The checker follows the framework's own semantics for the rule kinds the
 * builders use:
 *  - `required` fails on an absent key, null, a blank string and an empty array;
 *  - every other rule is skipped when the key is absent or holds a blank
 *    string, and is applied to any other value, null included;
 *  - `max`/`min` compare a size: a string's length, an array's element count,
 *    the length of an integer's decimal form, 1 or 0 for a boolean, 0 for null;
 *  - `in` casts a scalar to a string and looks it up in the set (arrays fail).
 * DNS lookups (`active_url`), date parsing (`date`) and numeric-string
 * recognition (`numeric`) are supplied by the caller as an `Env`.
 */
module Validation {
  import opened Values

  /** Checks that need the outside world or PHP's parsers. */
  datatype Env = Env(activeUrl: string -> bool, date: string -> bool, numericText: string -> bool)

  datatype Rule =
    | Required
    | IsString
    | IsInteger
    | IsBoolean
    | IsArray
    | MaxSize(max: nat)
    | MinSize(min: nat)
    | InSet(values: set<string>)
    | UriScheme      // /^(http|https|line|tel):\/\/([A-Z0-9][A-Z0-9_-]*)?/i
    | SecureUrl      // /^https:\/\/([A-Z0-9][A-Z0-9_-]*(?:\.[A-Z0-9][A-Z0-9_-]*)+):?(\d+)?\/?/i
    | ActiveUrl
    | Date
    | Numeric
    | Unparsed       // a rule string naming no validator method: applying it throws

  /** One line of a rule table. */
  datatype FieldRule =
    | FieldRule(path: seq<string>, rules: seq<Rule>)
    | EachRule(list: seq<string>, path: seq<string>, rules: seq<Rule>)  // 'list.*.path'

  /** What the checker finds at an attribute path. */
  datatype Slot = Absent | Present(value: Json)

  /** Follows a dotted path through nested objects. */
  function Lookup(j: Json, path: seq<string>): Slot
    decreases |path|
  {
    if path == [] then Present(j)
    else if j.JObject? && path[0] in j.fields then Lookup(j.fields[path[0]], path[1..])
    else Absent
  }

  /** The characters PHP's trim() strips. */
  predicate IsSpace(c: char)
  {
    c == ' ' || c == '\t' || c == '\n' || c == '\r' || c == '\0' || c == '\U{B}'
  }

  predicate IsBlank(s: string)
  {
    forall k :: 0 <= k < |s| ==> IsSpace(s[k])
  }

  predicate IsBlankString(v: Json)
  {
    v.JString? && IsBlank(v.s)
  }

  /** The value satisfies `required`. */
  predicate Filled(v: Json)
  {
    match v
    case JNull => false
    case JString(s) => !IsBlank(s)
    case JList(items) => |items| > 0
    case JObject(fields) => |fields| > 0
    case _ => true
  }

  /** The size `max` and `min` compare. */
  function Size(v: Json): nat
  {
    match v
    case JNull => 0
    case JBool(b) => if b then 1 else 0
    case JInt(n) => |DecimalString(n)|
    case JString(s) => |s|
    case JList(items) => |items|
    case JObject(fields) => |fields|
  }

  /** PHP's (string) cast of a scalar; arrays have none. */
  function Stringify(v: Json): Option<string>
  {
    match v
    case JNull => Some("")
    case JBool(b) => Some(if b then "1" else "")
    case JInt(n) => Some(DecimalString(n))
    case JString(s) => Some(s)
    case _ => None
  }

  predicate IsDigit(c: char) { '0' <= c <= '9' }

  predicate AllDigits(s: string)
  {
    forall k :: 0 <= k < |s| ==> IsDigit(s[k])
  }

  /** The characters the integer filter trims before parsing: trim()'s set without NUL. */
  predicate IsFilterSpace(c: char)
  {
    c == ' ' || c == '\t' || c == '\n' || c == '\r' || c == '\U{B}'
  }

  function TrimStart(s: string): (r: string)
    ensures |r| <= |s| && r == s[|s| - |r|..]
    ensures r != [] ==> !IsFilterSpace(r[0])
  {
    if s != [] && IsFilterSpace(s[0]) then TrimStart(s[1..]) else s
  }

  function TrimEnd(s: string): (r: string)
    ensures |r| <= |s| && r == s[..|r|]
    ensures r != [] ==> !IsFilterSpace(r[|r| - 1])
  {
    if s != [] && IsFilterSpace(s[|s| - 1]) then TrimEnd(s[..|s| - 1]) else s
  }

  /** The value of a string of decimal digits. */
  function DigitsValue(s: string): nat
    requires AllDigits(s)
  {
    if s == [] then 0 else 10 * DigitsValue(s[..|s| - 1]) + (s[|s| - 1] as int - '0' as int)
  }

  /** Reading back the decimal digits of a natural number gives the number. */
  lemma {:induction false} DigitsValueOf(n: nat)
    ensures AllDigits(Digits(n)) && DigitsValue(Digits(n)) == n
  {
    if n >= 10 {
      DigitsValueOf(n / 10);
      var s := Digits(n);
      assert s[..|s| - 1] == Digits(n / 10);
    }
  }

  /** Only the integer 1040 and the string "1040" cast to "1040". */
  lemma CastTo1040(v: Json)
    requires Stringify(v) == Some("1040")
    ensures v == JInt(1040) || v == JString("1040")
  {
    if v.JInt? {
      assert DecimalString(v.n)[0] == '1';
      DigitsValueOf(v.n);
      var s := "1040";
      assert s[..3] == "104" && "104"[..2] == "10" && "10"[..1] == "1" && "1"[..0] == [];
      assert DigitsValue(s) == 1040;
    }
  }

  /** The range of a PHP integer on a 64-bit build. */
  const IntMin: int := -0x8000_0000_0000_0000
  const IntMax: int := 0x7FFF_FFFF_FFFF_FFFF

  /**
   * Text the integer filter accepts: surrounding whitespace trimmed, an
   * optional sign, then digits without a leading zero ("0", "+0" and "-0"
   * included), whose value fits a PHP integer.
   */
  predicate IntegerText(s: string)
  {
    var t := TrimEnd(TrimStart(s));
    var signed := |t| > 0 && (t[0] == '-' || t[0] == '+');
    var d := if signed then t[1..] else t;
    |d| > 0 && AllDigits(d) && (d[0] != '0' || |d| == 1) &&
    IntMin <= (if signed && t[0] == '-' then -(DigitsValue(d) as int) else DigitsValue(d) as int) <= IntMax
  }

  /**
   * A value the `integer` rule accepts: the integer filter runs on the
   * value's string form, so `true` passes as "1"; an integer outside the
   * 64-bit range would have been a float, whose string form never parses.
   */
  predicate IntegerValue(v: Json)
  {
    (v.JInt? && IntMin <= v.n <= IntMax) || v == JBool(true) || (v.JString? && IntegerText(v.s))
  }

  function Lower(c: char): char
  {
    if 'A' <= c <= 'Z' then (c as int + 32) as char else c
  }

  function LowerAll(s: string): (r: string)
    ensures |r| == |s|
  {
    if s == [] then [] else [Lower(s[0])] + LowerAll(s[1..])
  }

  /** Starts with `prefix`, ignoring ASCII case. */
  predicate StartsWithIgnoringCase(s: string, prefix: string)
  {
    |prefix| <= |s| && LowerAll(s[..|prefix|]) == prefix
  }

  /** The scheme pattern: only its anchored prefix constrains a match. */
  predicate UriSchemeText(s: string)
  {
    StartsWithIgnoringCase(s, "http://") || StartsWithIgnoringCase(s, "https://")
    || StartsWithIgnoringCase(s, "line://") || StartsWithIgnoringCase(s, "tel://")
  }

  predicate IsAlnum(c: char)
  {
    IsDigit(c) || 'a' <= c <= 'z' || 'A' <= c <= 'Z'
  }

  predicate IsLabelChar(c: char)
  {
    IsAlnum(c) || c == '_' || c == '-'
  }

  /** The length of the longest prefix made of host-label characters. */
  function LabelRun(s: string): (n: nat)
    ensures n <= |s|
    ensures forall k :: 0 <= k < n ==> IsLabelChar(s[k])
    ensures n < |s| ==> !IsLabelChar(s[n])
  {
    if s == [] || !IsLabelChar(s[0]) then 0 else 1 + LabelRun(s[1..])
  }

  /**
   * The secure-URL pattern: `https://`, then a host label starting with a
   * letter or digit, a dot, and a letter or digit. The port and path parts
   * of the pattern are optional and unanchored, so they constrain nothing.
   */
  predicate SecureUrlText(s: string)
  {
    StartsWithIgnoringCase(s, "https://") &&
    var host := s[8..];
    var n := LabelRun(host);
    0 < n && IsAlnum(host[0]) && n + 1 < |host| && host[n] == '.' && IsAlnum(host[n + 1])
  }

  /** A rule other than `required`, applied to a present, non-blank value. */
  predicate Check(env: Env, v: Json, rule: Rule)
  {
    match rule
    case Required => Filled(v)
    case IsString => v.JString?
    case IsInteger => IntegerValue(v)
    case IsBoolean => v.JBool? || v == JInt(0) || v == JInt(1) || v == JString("0") || v == JString("1")
    case IsArray => v.IsArray()
    case MaxSize(max) => Size(v) <= max
    case MinSize(min) => Size(v) >= min
    case InSet(values) => Stringify(v).Some? && Stringify(v).value in values
    case UriScheme => v.JString? && UriSchemeText(v.s)
    case SecureUrl => v.JString? && SecureUrlText(v.s)
    case ActiveUrl => v.JString? && env.activeUrl(v.s)
    case Date => (v.JString? && env.date(v.s)) || (v.JInt? && env.date(DecimalString(v.n)))
    case Numeric => v.JInt? || (v.JString? && env.numericText(v.s))
    case Unparsed => false
  }

  /** `required` is implicit: it runs on absent and blank values; every other rule skips them. */
  predicate RulePasses(env: Env, slot: Slot, rule: Rule)
  {
    if rule == Required then slot.Present? && Filled(slot.value)
    else slot.Absent? || IsBlankString(slot.value) || Check(env, slot.value, rule)
  }

  predicate RulesPass(env: Env, slot: Slot, rules: seq<Rule>)
  {
    forall i :: 0 <= i < |rules| ==> RulePasses(env, slot, rules[i])
  }

  /** One line of the table holds of the input. */
  predicate Holds(env: Env, props: Json, line: FieldRule)
  {
    match line
    case FieldRule(path, rules) => RulesPass(env, Lookup(props, path), rules)
    case EachRule(list, path, rules) =>
      match Lookup(props, list)
      case Present(JList(items)) =>
        forall k :: 0 <= k < |items| ==> RulesPass(env, Lookup(items[k], path), rules)
      case Present(JObject(fields)) =>
        forall key :: key in fields ==> RulesPass(env, Lookup(fields[key], path), rules)
      case _ => true
  }

  /** The attribute a failing line reports. */
  function Attribute(line: FieldRule): seq<string>
  {
    match line
    case FieldRule(path, _) => path
    case EachRule(list, path, _) => list + ["*"] + path
  }

  /** Line `k` is the first line of the table that does not hold. */
  predicate FailsFirstAt(env: Env, props: Json, table: seq<FieldRule>, k: int)
  {
    0 <= k < |table| && !Holds(env, props, table[k]) && forall j :: 0 <= j < k ==> Holds(env, props, table[j])
  }

  /** The first line of the table that does not hold, reported by its attribute. */
  function FirstFailure(env: Env, props: Json, table: seq<FieldRule>): (r: Outcome)
    ensures r.Fail? ==> r.error.Invalid?
    ensures r.Fail? ==> exists k :: FailsFirstAt(env, props, table, k) && r.error.attribute == Attribute(table[k])
  {
    if table == [] then Pass
    else if !Holds(env, props, table[0]) then Fail(Invalid(Attribute(table[0])))
    else FirstFailure(env, props, table[1..])
  }

  /**
   * Checks `props` against a rule table; the validator accepts arrays only.
   * The framework runs every line and reports all failures in one exception;
   * the model reports the attribute of the first line that fails.
   */
  function Validate(env: Env, props: Json, table: seq<FieldRule>): (r: Outcome)
    ensures r.Fail? && r.error == NotAnArray <==> !props.IsArray()
    ensures r.Fail? ==> r.error.Invalid? || r.error == NotAnArray
    ensures r.Fail? && r.error.Invalid? ==>
      exists k :: FailsFirstAt(env, props, table, k) && r.error.attribute == Attribute(table[k])
  {
    if !props.IsArray() then Fail(NotAnArray) else FirstFailure(env, props, table)
  }

  /** Validation passes exactly when the input is an array and every line of the table holds. */
  lemma {:induction false} ValidateOk(env: Env, props: Json, table: seq<FieldRule>)
    ensures Validate(env, props, table).Pass? <==>
              props.IsArray() && forall k :: 0 <= k < |table| ==> Holds(env, props, table[k])
  {
    FirstFailureOk(env, props, table);
  }

  /** A one-line table, read line by line. */
  lemma ValidateOne(env: Env, props: Json, a: FieldRule)
    ensures Validate(env, props, [a]).Pass? <==> props.IsArray() && Holds(env, props, a)
  {
    var t := [a];
    ValidateOk(env, props, t);
    assert t[0] == a;
  }

  /** A two-line table, read line by line. */
  lemma ValidateTwo(env: Env, props: Json, a: FieldRule, b: FieldRule)
    ensures Validate(env, props, [a, b]).Pass? <==> props.IsArray() && Holds(env, props, a) && Holds(env, props, b)
  {
    var t := [a, b];
    ValidateOk(env, props, t);
    assert t[0] == a && t[1] == b;
  }

  /** A three-line table, read line by line. */
  lemma ValidateThree(env: Env, props: Json, a: FieldRule, b: FieldRule, c: FieldRule)
    ensures Validate(env, props, [a, b, c]).Pass? <==> props.IsArray() && Holds(env, props, a) && Holds(env, props, b) && Holds(env, props, c)
  {
    var t := [a, b, c];
    ValidateOk(env, props, t);
    assert t[0] == a && t[1] == b && t[2] == c;
  }

  /** A four-line table, read line by line. */
  lemma ValidateFour(env: Env, props: Json, a: FieldRule, b: FieldRule, c: FieldRule, d: FieldRule)
    ensures Validate(env, props, [a, b, c, d]).Pass? <==> props.IsArray() && Holds(env, props, a) && Holds(env, props, b) && Holds(env, props, c) && Holds(env, props, d)
  {
    var t := [a, b, c, d];
    ValidateOk(env, props, t);
    assert t[0] == a && t[1] == b && t[2] == c && t[3] == d;
  }

  /** A five-line table, read line by line. */
  lemma ValidateFive(env: Env, props: Json, a: FieldRule, b: FieldRule, c: FieldRule, d: FieldRule, e: FieldRule)
    ensures Validate(env, props, [a, b, c, d, e]).Pass? <==> props.IsArray() && Holds(env, props, a) && Holds(env, props, b) && Holds(env, props, c) && Holds(env, props, d) && Holds(env, props, e)
  {
    var t := [a, b, c, d, e];
    ValidateOk(env, props, t);
    assert t[0] == a && t[1] == b && t[2] == c && t[3] == d && t[4] == e;
  }

  /** A six-line table, read line by line. */
  lemma ValidateSix(env: Env, props: Json, a: FieldRule, b: FieldRule, c: FieldRule, d: FieldRule, e: FieldRule, f: FieldRule)
    ensures Validate(env, props, [a, b, c, d, e, f]).Pass? <==> props.IsArray() && Holds(env, props, a) && Holds(env, props, b) && Holds(env, props, c) && Holds(env, props, d) && Holds(env, props, e) && Holds(env, props, f)
  {
    var t := [a, b, c, d, e, f];
    ValidateOk(env, props, t);
    assert t[0] == a && t[1] == b && t[2] == c && t[3] == d && t[4] == e && t[5] == f;
  }

  lemma {:induction false} FirstFailureOk(env: Env, props: Json, table: seq<FieldRule>)
    ensures FirstFailure(env, props, table).Pass? <==> forall k :: 0 <= k < |table| ==> Holds(env, props, table[k])
  {
    if table != [] {
      FirstFailureOk(env, props, table[1..]);
      if forall k :: 0 <= k < |table| ==> Holds(env, props, table[k]) {
        forall k | 0 <= k < |table[1..]|
          ensures Holds(env, props, table[1..][k])
        {
          assert table[1..][k] == table[k + 1];
        }
      }
      if FirstFailure(env, props, table).Pass? {
        forall k | 0 <= k < |table|
          ensures Holds(env, props, table[k])
        {
          if k > 0 {
            assert table[k] == table[1..][k - 1];
          }
        }
      }
    }
  }

  /** A line of a table that validated holds. */
  lemma Validated(env: Env, props: Json, table: seq<FieldRule>, k: nat)
    requires Validate(env, props, table).Pass?
    requires k < |table|
    ensures props.IsArray() && Holds(env, props, table[k])
  {
    ValidateOk(env, props, table);
  }

  /** A failing line makes validation fail. */
  lemma Rejected(env: Env, props: Json, table: seq<FieldRule>, k: nat)
    requires k < |table| && !Holds(env, props, table[k])
    ensures Validate(env, props, table).Fail?
  {
    ValidateOk(env, props, table);
  }

  // Readable forms of the single-key rules the builders use.

  /** The key passes `required`. */
  predicate Given(j: Json, key: string)
  {
    j.JObject? && key in j.fields && Filled(j.fields[key])
  }

  /** Non-implicit rules on this key are skipped. */
  predicate Skipped(j: Json, key: string)
  {
    !(j.JObject? && key in j.fields) || IsBlankString(j.fields[key])
  }

  /** The key passes `max:n`. */
  predicate AtMost(j: Json, key: string, n: nat)
  {
    Skipped(j, key) || Size(j.fields[key]) <= n
  }

  /** The key passes `in:values`. */
  predicate OneOf(j: Json, key: string, values: set<string>)
  {
    Skipped(j, key) || (Stringify(j.fields[key]).Some? && Stringify(j.fields[key]).value in values)
  }

  /** The cast of a non-string scalar is empty or starts with a sign or a digit. */
  lemma CastNotWord(v: Json)
    requires !v.JString? && Stringify(v).Some?
    ensures var s := Stringify(v).value; s == [] || s[0] == '-' || IsDigit(s[0])
  {
    if v.JBool? && v.b {
      assert Stringify(v).value[0] == '1';
    }
  }

  /** Only a string can be cast into a set of words (non-empty, not starting with a sign or a digit). */
  lemma WordsOnlyFromStrings(v: Json, values: set<string>)
    requires forall w :: w in values ==> |w| > 0 && !IsDigit(w[0]) && w[0] != '-'
    requires Stringify(v).Some? && Stringify(v).value in values
    ensures v.JString? && v.s in values
  {
    if !v.JString? {
      CastNotWord(v);
    }
  }

  /** A path of one key looks the key up. */
  lemma LookupKey(j: Json, key: string)
    ensures Lookup(j, [key]) == if j.JObject? && key in j.fields then Present(j.fields[key]) else Absent
  {
    assert [key][0] == key && [key][1..] == [];
  }

  /** A key validated as `required|in:...` over a set of words holds one of those words as a string. */
  lemma RequiredWord(env: Env, props: Json, key: string, values: set<string>)
    requires forall w :: w in values ==> |w| > 0 && !IsDigit(w[0]) && w[0] != '-'
    requires RulesPass(env, Lookup(props, [key]), [Required, InSet(values)])
    ensures props.JObject? && key in props.fields
    ensures props.fields[key].JString? && props.fields[key].s in values
  {
    var slot := Lookup(props, [key]);
    LookupKey(props, key);
    assert RulePasses(env, slot, [Required, InSet(values)][0]);
    assert RulePasses(env, slot, [Required, InSet(values)][1]);
    WordsOnlyFromStrings(props.fields[key], values);
  }

  /** A line requiring one of a set of words holds only of a string among them. */
  lemma RequiredWordLine(env: Env, props: Json, key: string, values: set<string>)
    requires forall w :: w in values ==> |w| > 0 && !IsDigit(w[0]) && w[0] != '-'
    requires Holds(env, props, FieldRule([key], [Required, InSet(values)]))
    ensures props.JObject? && key in props.fields && props.fields[key].JString?
    ensures HasString(props, key, props.fields[key].s) && props.fields[key].s in values
  {
    RequiredWord(env, props, key, values);
  }

  /** The key passes a rule other than `required`. */
  predicate Conforms(env: Env, j: Json, key: string, rule: Rule)
  {
    Skipped(j, key) || Check(env, j.fields[key], rule)
  }

  /** A rule on a single key, read in terms of the key's value. */
  lemma KeyRule(env: Env, j: Json, key: string, rule: Rule)
    ensures rule == Required ==> (RulePasses(env, Lookup(j, [key]), rule) <==> Given(j, key))
    ensures rule != Required ==> (RulePasses(env, Lookup(j, [key]), rule) <==> Conforms(env, j, key, rule))
  {
    LookupKey(j, key);
  }

  /** A rule on a key of a nested object. */
  lemma NestedKeyRule(env: Env, j: Json, outer: string, key: string, rule: Rule)
    ensures Lookup(j, [outer, key]) ==
      if j.JObject? && outer in j.fields then Lookup(j.fields[outer], [key]) else Absent
    ensures j.JObject? && outer in j.fields ==>
      (rule == Required ==> (RulePasses(env, Lookup(j, [outer, key]), rule) <==> Given(j.fields[outer], key))) &&
      (rule != Required ==> (RulePasses(env, Lookup(j, [outer, key]), rule) <==> Conforms(env, j.fields[outer], key, rule)))
  {
    assert [outer, key][0] == outer && [outer, key][1..] == [key];
    if j.JObject? && outer in j.fields {
      KeyRule(env, j.fields[outer], key, rule);
    }
  }

  lemma PassOne(env: Env, slot: Slot, a: Rule)
    ensures RulesPass(env, slot, [a]) <==> RulePasses(env, slot, a)
  {
    assert [a][0] == a;
  }

  lemma PassTwo(env: Env, slot: Slot, a: Rule, b: Rule)
    ensures RulesPass(env, slot, [a, b]) <==> RulePasses(env, slot, a) && RulePasses(env, slot, b)
  {
    assert [a, b][0] == a && [a, b][1] == b;
  }

  lemma PassThree(env: Env, slot: Slot, a: Rule, b: Rule, c: Rule)
    ensures RulesPass(env, slot, [a, b, c]) <==>
      RulePasses(env, slot, a) && RulePasses(env, slot, b) && RulePasses(env, slot, c)
  {
    assert [a, b, c][0] == a && [a, b, c][1] == b && [a, b, c][2] == c;
  }

  lemma PassFour(env: Env, slot: Slot, a: Rule, b: Rule, c: Rule, d: Rule)
    ensures RulesPass(env, slot, [a, b, c, d]) <==>
      RulePasses(env, slot, a) && RulePasses(env, slot, b) && RulePasses(env, slot, c) && RulePasses(env, slot, d)
  {
    assert [a, b, c, d][0] == a && [a, b, c, d][1] == b && [a, b, c, d][2] == c && [a, b, c, d][3] == d;
  }

  // One line of a rule table on a top-level key, read in terms of the key's value.

  lemma RuleLine(env: Env, j: Json, key: string, rule: Rule)
    requires rule != Required
    ensures Holds(env, j, FieldRule([key], [rule])) <==> Conforms(env, j, key, rule)
  {
    PassOne(env, Lookup(j, [key]), rule);
    KeyRule(env, j, key, rule);
  }

  lemma RequiredLine(env: Env, j: Json, key: string, rule: Rule)
    requires rule != Required
    ensures Holds(env, j, FieldRule([key], [Required, rule])) <==> Given(j, key) && Conforms(env, j, key, rule)
  {
    PassTwo(env, Lookup(j, [key]), Required, rule);
    KeyRule(env, j, key, Required);
    KeyRule(env, j, key, rule);
  }

  lemma TwoRuleLine(env: Env, j: Json, key: string, a: Rule, b: Rule)
    requires a != Required && b != Required
    ensures Holds(env, j, FieldRule([key], [a, b])) <==> Conforms(env, j, key, a) && Conforms(env, j, key, b)
  {
    PassTwo(env, Lookup(j, [key]), a, b);
    KeyRule(env, j, key, a);
    KeyRule(env, j, key, b);
  }

  lemma RequiredTwoLine(env: Env, j: Json, key: string, a: Rule, b: Rule)
    requires a != Required && b != Required
    ensures Holds(env, j, FieldRule([key], [Required, a, b])) <==>
      Given(j, key) && Conforms(env, j, key, a) && Conforms(env, j, key, b)
  {
    PassThree(env, Lookup(j, [key]), Required, a, b);
    KeyRule(env, j, key, Required);
    KeyRule(env, j, key, a);
    KeyRule(env, j, key, b);
  }

  lemma ThreeRuleLine(env: Env, j: Json, key: string, a: Rule, b: Rule, c: Rule)
    requires a != Required && b != Required && c != Required
    ensures Holds(env, j, FieldRule([key], [a, b, c])) <==>
      Conforms(env, j, key, a) && Conforms(env, j, key, b) && Conforms(env, j, key, c)
  {
    PassThree(env, Lookup(j, [key]), a, b, c);
    KeyRule(env, j, key, a);
    KeyRule(env, j, key, b);
    KeyRule(env, j, key, c);
  }

  lemma RequiredThreeLine(env: Env, j: Json, key: string, a: Rule, b: Rule, c: Rule)
    requires a != Required && b != Required && c != Required
    ensures Holds(env, j, FieldRule([key], [Required, a, b, c])) <==>
      Given(j, key) && Conforms(env, j, key, a) && Conforms(env, j, key, b) && Conforms(env, j, key, c)
  {
    PassFour(env, Lookup(j, [key]), Required, a, b, c);
    KeyRule(env, j, key, Required);
    KeyRule(env, j, key, a);
    KeyRule(env, j, key, b);
    KeyRule(env, j, key, c);
  }

  lemma ThreeRuleNestedLine(env: Env, j: Json, outer: string, key: string, a: Rule, b: Rule, c: Rule)
    requires a != Required && b != Required && c != Required
    ensures Holds(env, j, FieldRule([outer, key], [a, b, c])) <==>
      !(j.JObject? && outer in j.fields) ||
      (Conforms(env, j.fields[outer], key, a) && Conforms(env, j.fields[outer], key, b) && Conforms(env, j.fields[outer], key, c))
  {
    PassThree(env, Lookup(j, [outer, key]), a, b, c);
    NestedKeyRule(env, j, outer, key, a);
    NestedKeyRule(env, j, outer, key, b);
    NestedKeyRule(env, j, outer, key, c);
  }

  lemma RequiredNestedLine(env: Env, j: Json, outer: string, key: string, rule: Rule)
    requires rule != Required
    ensures Holds(env, j, FieldRule([outer, key], [Required, rule])) <==>
      j.JObject? && outer in j.fields && Given(j.fields[outer], key) && Conforms(env, j.fields[outer], key, rule)
  {
    PassTwo(env, Lookup(j, [outer, key]), Required, rule);
    NestedKeyRule(env, j, outer, key, Required);
    NestedKeyRule(env, j, outer, key, rule);
  }

  lemma RuleNestedLine(env: Env, j: Json, outer: string, key: string, rule: Rule)
    requires rule != Required
    ensures Holds(env, j, FieldRule([outer, key], [rule])) <==>
      !(j.JObject? && outer in j.fields) || Conforms(env, j.fields[outer], key, rule)
  {
    PassOne(env, Lookup(j, [outer, key]), rule);
    NestedKeyRule(env, j, outer, key, rule);
  }

  /** A key holding a word that is not blank passes `required` and casts to that word. */
  lemma WordGiven(j: Json, key: string, w: string)
    requires |w| > 0 && !IsSpace(w[0])
    requires HasString(j, key, w)
    ensures Given(j, key) && Stringify(j.fields[key]) == Some(w)
  {
    assert !IsSpace(j.fields[key].s[0]);
  }

  /** A table made of two parts passes exactly when both parts do. */
  lemma ValidateAppend(env: Env, props: Json, t1: seq<FieldRule>, t2: seq<FieldRule>)
    ensures Validate(env, props, t1 + t2).Pass? <==> Validate(env, props, t1).Pass? && Validate(env, props, t2).Pass?
  {
    var t := t1 + t2;
    ValidateOk(env, props, t);
    ValidateOk(env, props, t1);
    ValidateOk(env, props, t2);
    assert forall k :: 0 <= k < |t1| ==> t[k] == t1[k];
    assert forall k :: 0 <= k < |t2| ==> t[|t1| + k] == t2[k];
    if (forall k :: 0 <= k < |t1| ==> Holds(env, props, t1[k])) && (forall k :: 0 <= k < |t2| ==> Holds(env, props, t2[k])) {
      forall k | 0 <= k < |t|
        ensures Holds(env, props, t[k])
      {
        if k >= |t1| {
          assert t[k] == t2[k - |t1|];
        }
      }
    }
  }

  /** A URL an image may carry: a string, reachable, and https with a dotted host. */
  predicate SecureImageUrl(env: Env, v: Json)
  {
    v.JString? && env.activeUrl(v.s) && SecureUrlText(v.s)
  }

  /** The line `key => required|string|active_url|regex:https...`. */
  lemma SecureUrlLine(env: Env, props: Json, key: string)
    ensures Holds(env, props, FieldRule([key], [Required, IsString, ActiveUrl, SecureUrl])) <==>
      Given(props, key) && SecureImageUrl(env, props.fields[key])
  {
    RequiredThreeLine(env, props, key, IsString, ActiveUrl, SecureUrl);
  }

  /** The line `key => required`. */
  lemma RequiredOnlyLine(env: Env, j: Json, key: string)
    ensures Holds(env, j, FieldRule([key], [Required])) <==> Given(j, key)
  {
    PassOne(env, Lookup(j, [key]), Required);
    KeyRule(env, j, key, Required);
  }

  /** `outer.key => required|a|b` read in terms of the nested key. */
  lemma RequiredThreeNested(env: Env, j: Json, outer: string, key: string, a: Rule, b: Rule)
    requires a != Required && b != Required
    ensures Holds(env, j, FieldRule([outer, key], [Required, a, b])) <==>
      j.JObject? && outer in j.fields && Given(j.fields[outer], key) &&
      Conforms(env, j.fields[outer], key, a) && Conforms(env, j.fields[outer], key, b)
  {
    PassThree(env, Lookup(j, [outer, key]), Required, a, b);
    NestedKeyRule(env, j, outer, key, Required);
    NestedKeyRule(env, j, outer, key, a);
    NestedKeyRule(env, j, outer, key, b);
  }

  /** A nested key validated as `required|integer|in:1040` holds the integer 1040 or the string "1040". */
  lemma NestedWidth1040(env: Env, j: Json, outer: string, key: string)
    requires Holds(env, j, FieldRule([outer, key], [Required, IsInteger, InSet({"1040"})]))
    ensures j.JObject? && outer in j.fields && Given(j.fields[outer], key)
    ensures j.fields[outer].fields[key] in {JInt(1040), JString("1040")}
  {
    RequiredThreeNested(env, j, outer, key, IsInteger, InSet({"1040"}));
    CastTo1040(j.fields[outer].fields[key]);
  }

  /** A nested key validated as `required|in:...` over a set of words holds one of those words as a string. */
  lemma RequiredNestedWord(env: Env, j: Json, outer: string, key: string, values: set<string>)
    requires forall w :: w in values ==> |w| > 0 && !IsDigit(w[0]) && w[0] != '-'
    requires Holds(env, j, FieldRule([outer, key], [Required, InSet(values)]))
    ensures j.JObject? && outer in j.fields && j.fields[outer].JObject? && key in j.fields[outer].fields
    ensures j.fields[outer].fields[key].JString? && j.fields[outer].fields[key].s in values
  {
    RequiredNestedLine(env, j, outer, key, InSet(values));
    WordsOnlyFromStrings(j.fields[outer].fields[key], values);
  }
}
