/** Vocabulary shared by every part of the model: document ids, optional values,
    HTTP replies and the few arithmetic and sequence helpers the handlers use. */
module Common {

  /** A MongoDB ObjectId, compared through its string form as the handlers do. */
  type Id = string

  datatype Option<T> = None | Some(value: T)

  datatype Weekday = Monday | Tuesday | Wednesday | Thursday | Friday | Saturday | Sunday

  /** What a route handler answers: a success status with a body, or an error
      status with the message the handler puts in its JSON reply. */
  datatype Reply<T> = Ok(code: int, value: T) | Err(code: int, message: string)

  /** `Math.ceil(a / b)` for a positive divisor. Dafny's `/` rounds down when
      `b > 0`, so the ceiling is the negated floor of the negated quotient. */
  function CeilDiv(a: int, b: int): (q: int)
    requires b > 0
    ensures (q - 1) * b < a <= q * b
  {
    var f := (-a) / b;
    assert f * b <= -a < f * b + b;
    -f
  }

  /** No value occurs twice. */
  predicate NoDuplicates<T(==)>(s: seq<T>)
  {
    forall i, j :: 0 <= i < j < |s| ==> s[i] != s[j]
  }

  /** `s.startsWith(p)` */
  predicate StartsWith(s: string, p: string)
  {
    |p| <= |s| && s[..|p|] == p
  }

  /** An ASCII decimal digit, the class `\d` and `[0-9]` match. */
  predicate IsDigit(c: char)
  {
    '0' <= c <= '9'
  }

  function DigitValue(c: char): int
  {
    c as int - '0' as int
  }

  function DigitChar(d: int): (c: char)
    requires 0 <= d <= 9
    ensures IsDigit(c) && DigitValue(c) == d
  {
    ('0' as int + d) as char
  }
}
