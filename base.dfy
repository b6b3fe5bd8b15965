/** Values shared by every route group: optional values, parsed request-body
    fields, the JSON reply shape, validator field errors, whitespace trimming,
    and the external capabilities (e-mail rules, password hashing). */
module Base {

  /** Row and user identifiers. */
  type Id = nat

  /** An abstract clock reading, passed in wherever the routes read the time. */
  type Instant = nat

  datatype Option<+T> = None | Some(value: T) {
    function GetOr(default: T): T {
      match this
      case Some(v) => v
      case None => default
    }
  }

  /** A request-body field that must parse as a number: absent, present but
      not a number of the required kind, or the parsed value. */
  datatype Field<+T> = Absent | Malformed | Given(value: T)

  /** One entry of the validator's error array: the field and its message. */
  datatype FieldError = FieldError(field: string, message: string)

  /** The message a validator reports when the chain gives none of its own. */
  const DEFAULT_MESSAGE := "Invalid value"

  /** The fields an error array names. */
  function ErrorFields(errs: seq<FieldError>): set<string> {
    if errs == [] then {} else {errs[0].field} + ErrorFields(errs[1..])
  }

  /** `{field}` when the check failed, else nothing. */
  function Flag(failed: bool, field: string): set<string> {
    if failed then {field} else {}
  }

  /** One validator of a chain: no error when `ok`, else one error for `field`. */
  function Check(ok: bool, field: string, message: string): (errs: seq<FieldError>)
    ensures errs == [] <==> ok
    ensures ErrorFields(errs) == Flag(!ok, field)
  {
    if ok then [] else [FieldError(field, message)]
  }

  /** The errors of two chains together name the fields either of them names. */
  lemma {:induction false} ErrorFieldsAppend(a: seq<FieldError>, b: seq<FieldError>)
    ensures ErrorFields(a + b) == ErrorFields(a) + ErrorFields(b)
  {
    if a != [] {
      ErrorFieldsAppend(a[1..], b);
      assert (a + b)[1..] == a[1..] + b;
    } else {
      assert a + b == b;
    }
  }

  /** A JSON reply: 200 with data, an error status with a message, or 400
      carrying the validator's error array. */
  datatype Reply<+T> = Ok(data: T) | Fail(status: int, message: string) | Invalid(errors: seq<FieldError>)

  /** E-mail syntax check and normalisation of the request validator; their
      library behaviour is not modelled, so every route takes them as given. */
  datatype EmailRules = EmailRules(isEmail: string -> bool, normalize: string -> string)

  /** The password-hashing capability: digest of a password, and whether a
      password matches a stored digest. */
  datatype Crypto = Crypto(hash: string -> string, verify: (string, string) -> bool)

  /** The characters a regular-expression `\s` matches, which `trim()` strips. */
  predicate IsSpace(c: char) {
    || c == ' ' || c == '\t' || c == '\n' || c == '\r' || c == '\U{B}' || c == '\U{C}'
    || c == '\U{A0}' || c == '\U{1680}' || ('\U{2000}' <= c <= '\U{200A}')
    || c == '\U{2028}' || c == '\U{2029}' || c == '\U{202F}' || c == '\U{205F}'
    || c == '\U{3000}' || c == '\U{FEFF}'
  }

  predicate IsBlank(s: string) {
    forall k :: 0 <= k < |s| ==> IsSpace(s[k])
  }

  /** `s` without its leading whitespace. */
  function DropLeading(s: string): (t: string)
    ensures |t| <= |s| && t == s[|s| - |t|..]
    ensures t != [] ==> !IsSpace(t[0])
    ensures forall k :: 0 <= k < |s| - |t| ==> IsSpace(s[k])
  {
    if s != [] && IsSpace(s[0]) then DropLeading(s[1..]) else s
  }

  /** `s` without its trailing whitespace. */
  function DropTrailing(s: string): (t: string)
    ensures |t| <= |s| && t == s[..|t|]
    ensures t != [] ==> !IsSpace(t[|t| - 1])
    ensures forall k :: |t| <= k < |s| ==> IsSpace(s[k])
  {
    if s != [] && IsSpace(s[|s| - 1]) then DropTrailing(s[..|s| - 1]) else s
  }

  /** `s[i..j]` is `s` with only whitespace cut off before and after it. */
  predicate Window(s: string, i: int, j: int) {
    && 0 <= i <= j <= |s|
    && (forall k :: 0 <= k < i ==> IsSpace(s[k]))
    && (forall k :: j <= k < |s| ==> IsSpace(s[k]))
  }

  /** Cutting a prefix whose characters satisfy `p`, then a suffix whose
      characters satisfy `p`, leaves a slice of the whole with only such
      characters around it. */
  lemma CutBothEnds(s: string, a: string, t: string, p: char -> bool)
    requires |a| <= |s| && a == s[|s| - |a|..] && forall k :: 0 <= k < |s| - |a| ==> p(s[k])
    requires |t| <= |a| && t == a[..|t|] && forall k :: |t| <= k < |a| ==> p(a[k])
    ensures t == s[|s| - |a|..|s| - |a| + |t|]
    ensures forall k :: |s| - |a| + |t| <= k < |s| ==> p(s[k])
  {
    forall k | |s| - |a| + |t| <= k < |s| ensures p(s[k]) {
      assert s[k] == a[k - (|s| - |a|)];
    }
    assert t == s[|s| - |a|..][..|t|];
  }

  /** A window with nothing in it means the whole value is whitespace. */
  lemma EmptyWindowIsBlank(s: string, i: int)
    requires Window(s, i, i)
    ensures IsBlank(s)
  {
    forall k | 0 <= k < |s| ensures IsSpace(s[k]) {
      if k >= i {
        assert IsSpace(s[k]);
      }
    }
  }

  /** The `trim()` sanitizer: strips whitespace at both ends. A field checked
      with `trim().notEmpty()` passes exactly when it is not blank. */
  function Trim(s: string): (t: string)
    ensures t == [] <==> IsBlank(s)
    ensures t != [] ==> !IsSpace(t[0]) && !IsSpace(t[|t| - 1])
    ensures exists i, j :: Window(s, i, j) && t == s[i..j]
  {
    var a := DropLeading(s);
    var t := DropTrailing(a);
    var i := |s| - |a|;
    CutBothEnds(s, a, t, IsSpace);
    if t == [] then
      EmptyWindowIsBlank(s, i);
      t
    else t
  }

  /** A value with no whitespace at either end is left as it is. */
  lemma {:induction false} TrimKeepsUnpadded(s: string)
    requires s == [] || (!IsSpace(s[0]) && !IsSpace(s[|s| - 1]))
    ensures Trim(s) == s
  {
    assert DropLeading(s) == s;
    assert DropTrailing(s) == s;
  }

  /** Trimming is idempotent: a value the validator already trimmed (as every
      stored name and comment is) is unchanged by trimming again. */
  lemma {:induction false} TrimIdempotent(s: string)
    ensures Trim(Trim(s)) == Trim(s)
  {
    TrimKeepsUnpadded(Trim(s));
  }
}
