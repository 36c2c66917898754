/** backend/middleware/mentorValidation.middleware.js: the onboarding
    validator. It walks the eleven required fields in order and reports the
    first one missing, then checks the e-mail and the phone number against
    their patterns; only a body passing all three reaches the handler. */
module Onboarding {
  import opened Common

  /** The JSON values a request body field can hold. Numbers are integers
      here. */
  datatype JsValue = Undefined | Null | Bool(b: bool) | Num(n: int) | Str(s: string) | Arr(items: seq<string>)

  /** The test the loop applies: falsy (`undefined`, `null`, `false`, `0`,
      `""`) or an empty array. */
  predicate Missing(v: JsValue)
  {
    match v
    case Undefined => true
    case Null => true
    case Bool(b) => !b
    case Num(n) => n == 0
    case Str(s) => s == ""
    case Arr(items) => items == []
  }

  /** The required fields, in the order the loop visits them. */
  const RequiredFields: seq<string> := ["fullName", "email", "phone", "gender", "organization",
    "role", "experience", "headline", "bio", "languages", "mentoringAreas"]

  function Get(body: map<string, JsValue>, key: string): JsValue
  {
    if key in body then body[key] else Undefined
  }

  /** `field.charAt(0).toUpperCase() + field.slice(1)` for an ASCII name. */
  function Capitalized(field: string): (c: string)
    ensures |c| == |field| && (field != [] ==> c[1..] == field[1..])
  {
    if field == [] then []
    else
      var h := field[0];
      [if 'a' <= h <= 'z' then (h as int - 32) as char else h] + field[1..]
  }

  /** The index of the first missing field, or `None` when all are present. */
  function FirstMissing(body: map<string, JsValue>, fields: seq<string>): (r: Option<nat>)
    ensures r.Some? ==> (r.value < |fields| && Missing(Get(body, fields[r.value])) &&
      forall j :: 0 <= j < r.value ==> !Missing(Get(body, fields[j])))
    ensures r.None? ==> forall j :: 0 <= j < |fields| ==> !Missing(Get(body, fields[j]))
  {
    if fields == [] then None
    else if Missing(Get(body, fields[0])) then Some(0)
    else
      match FirstMissing(body, fields[1..])
      case None => None
      case Some(k) => Some(k + 1)
  }

  /** JavaScript's `\s`: the ASCII whitespace characters, no-break space,
      the Unicode space separators, the line and paragraph separators and
      the byte-order mark. */
  predicate IsJsSpace(c: char)
  {
    c == '\t' || c == '\n' || c as int == 0x0B || c as int == 0x0C || c == '\r' || c == ' ' ||
    c as int == 0xA0 || c as int == 0x1680 || 0x2000 <= c as int <= 0x200A ||
    c as int == 0x2028 || c as int == 0x2029 || c as int == 0x202F || c as int == 0x205F ||
    c as int == 0x3000 || c as int == 0xFEFF
  }

  /** `[^\s@]+` */
  predicate Plain(s: string)
  {
    |s| > 0 && forall i :: 0 <= i < |s| ==> !IsJsSpace(s[i]) && s[i] != '@'
  }

  /** `^[^\s@]+@[^\s@]+\.[^\s@]+$`: the string splits at an '@' (index `k`)
      and a later '.' (index `p`) into three plain parts. */
  predicate EmailOk(s: string)
  {
    exists k, p :: 0 < k && k + 1 < p < |s| - 1 && s[k] == '@' && s[p] == '.' &&
      Plain(s[..k]) && Plain(s[k + 1..p]) && Plain(s[p + 1..])
  }

  /** The pattern read as plain conditions: no whitespace, exactly one '@',
      which is not first, and a '.' in the domain that is neither its first
      nor the last character. */
  predicate EmailShape(s: string)
  {
    (forall i :: 0 <= i < |s| ==> !IsJsSpace(s[i])) &&
    exists k :: 0 < k < |s| && s[k] == '@' && (forall j :: 0 <= j < |s| && j != k ==> s[j] != '@') &&
      exists p :: k + 1 < p < |s| - 1 && s[p] == '.'
  }

  lemma EmailOkHasShape(s: string)
    requires EmailOk(s)
    ensures EmailShape(s)
  {
    var k, p :| 0 < k && k + 1 < p < |s| - 1 && s[k] == '@' && s[p] == '.' &&
      Plain(s[..k]) && Plain(s[k + 1..p]) && Plain(s[p + 1..]);
    forall i | 0 <= i < |s|
      ensures !IsJsSpace(s[i]) && (i != k ==> s[i] != '@')
    {
      if i < k {
        assert s[i] == s[..k][i];
      } else if k < i < p {
        assert s[i] == s[k + 1..p][i - k - 1];
      } else if i > p {
        assert s[i] == s[p + 1..][i - p - 1];
      }
    }
  }

  lemma ShapeIsEmailOk(s: string)
    requires EmailShape(s)
    ensures EmailOk(s)
  {
    var k :| 0 < k < |s| && s[k] == '@' && (forall j :: 0 <= j < |s| && j != k ==> s[j] != '@') &&
      exists p :: k + 1 < p < |s| - 1 && s[p] == '.';
    var p :| k + 1 < p < |s| - 1 && s[p] == '.';
    assert Plain(s[..k]);
    assert Plain(s[k + 1..p]);
    assert Plain(s[p + 1..]);
  }

  /** The e-mail pattern holds exactly when the plain conditions do. */
  lemma {:induction false} EmailOkExactly(s: string)
    ensures EmailOk(s) <==> EmailShape(s)
  {
    if EmailOk(s) {
      EmailOkHasShape(s);
    }
    if EmailShape(s) {
      ShapeIsEmailOk(s);
    }
  }

  /** `^\d{10}$` */
  predicate PhoneOk(s: string)
  {
    |s| == 10 && forall i :: 0 <= i < 10 ==> IsDigit(s[i])
  }

  /** Decimal digits of a natural number, without leading zeros. */
  function NatText(n: nat): (s: string)
    ensures |s| >= 1 && forall i :: 0 <= i < |s| ==> IsDigit(s[i])
  {
    if n < 10 then [DigitChar(n)] else NatText(n / 10) + [DigitChar(n % 10)]
  }

  function Pow10(k: nat): nat
  {
    if k == 0 then 1 else 10 * Pow10(k - 1)
  }

  /** A number with `k + 1` digits is written with `k + 1` characters. */
  lemma {:induction false} NatTextLength(n: nat, k: nat)
    requires Pow10(k) <= n < Pow10(k + 1)
    ensures |NatText(n)| == k + 1
  {
    if k > 0 {
      assert Pow10(k) == 10 * Pow10(k - 1);
      assert Pow10(k + 1) == 10 * Pow10(k);
      assert Pow10(k - 1) <= n / 10 < Pow10(k);
      NatTextLength(n / 10, k - 1);
    } else {
      assert n < 10;
    }
  }

  /** `String(v)`, which the pattern tests apply to what they are given. */
  function Text(v: JsValue): string
  {
    match v
    case Undefined => "undefined"
    case Null => "null"
    case Bool(b) => if b then "true" else "false"
    case Num(n) => if n < 0 then "-" + NatText(-n) else NatText(n)
    case Str(s) => s
    case Arr(items) => Join(items)
  }

  /** `items.join(",")` */
  function Join(items: seq<string>): string
  {
    if items == [] then ""
    else if |items| == 1 then items[0]
    else items[0] + "," + Join(items[1..])
  }

  /** A phone number sent as a JSON number with ten digits passes the
      phone check, because the pattern is tested against its decimal text. */
  lemma {:induction false} NumericPhonePasses(n: int)
    requires Pow10(9) <= n < Pow10(10)
    ensures PhoneOk(Text(Num(n)))
  {
    NatTextLength(n, 9);
  }

  /** The validator's answer: `None` calls the next handler, `Some(m)` is a
      400 reply with message `m`. */
  function OnboardingError(body: map<string, JsValue>): (r: Option<string>)
    ensures r.None? <==>
      (forall j :: 0 <= j < |RequiredFields| ==> !Missing(Get(body, RequiredFields[j]))) &&
      EmailOk(Text(Get(body, "email"))) && PhoneOk(Text(Get(body, "phone")))
  {
    match FirstMissing(body, RequiredFields)
    case Some(i) => Some(Capitalized(RequiredFields[i]) + " is required")
    case None =>
      if !EmailOk(Text(Get(body, "email"))) then Some("Invalid email format")
      else if !PhoneOk(Text(Get(body, "phone"))) then Some("Phone number must be 10 digits")
      else None
  }

  /** `validateMentorOnboarding`: the loop over the required fields, then the
      two pattern checks. */
  method Validate(body: map<string, JsValue>) returns (r: Option<string>)
    ensures r == OnboardingError(body)
    ensures forall i ::
      (0 <= i < |RequiredFields| && Missing(Get(body, RequiredFields[i])) &&
       forall j :: 0 <= j < i ==> !Missing(Get(body, RequiredFields[j]))) ==>
        r == Some(Capitalized(RequiredFields[i]) + " is required")
  {
    for i := 0 to |RequiredFields|
      invariant forall j :: 0 <= j < i ==> !Missing(Get(body, RequiredFields[j]))
    {
      var field := RequiredFields[i];
      if Missing(Get(body, field)) {
        return Some(Capitalized(field) + " is required");
      }
    }
    if !EmailOk(Text(Get(body, "email"))) {
      return Some("Invalid email format");
    }
    if !PhoneOk(Text(Get(body, "phone"))) {
      return Some("Phone number must be 10 digits");
    }
    r := None;
  }

  /** An experience of 0 is falsy, so a body complete up to it is told that
      experience is required. */
  lemma {:induction false} ZeroExperienceIsMissing(body: map<string, JsValue>)
    requires forall j :: 0 <= j < 6 ==> !Missing(Get(body, RequiredFields[j]))
    requires Get(body, "experience") == Num(0)
    ensures OnboardingError(body) == Some("Experience is required")
  {
    assert RequiredFields[6] == "experience";
    var r := FirstMissing(body, RequiredFields);
    assert r == Some(6);
    var c := Capitalized("experience");
    assert c[0] == 'E';
    assert c[1..] == "xperience";
    assert c == "Experience";
    assert c + " is required" == "Experience is required";
  }
}
