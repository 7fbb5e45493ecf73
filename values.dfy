/** Configuration values and the emptiness predicate `empty_field` (utils.py:17-18). */
module ConfigValues {

  /** A value held under a key of a configuration document: what the TOML loader
      produces, or what a caller hands to `save_conf`. */
  datatype Value =
    | Str(s: string)
    | Bool(b: bool)
    | Num(n: int)
    | Null                               // Python's None
    | Other                              // a date, a time or any other truthy scalar
    | List(items: seq<Value>)            // a list or a tuple
    | Dict(entries: map<string, Value>)  // a nested table

  /** A configuration document: a table of keys. */
  type Doc = map<string, Value>

  /** Python's `str.isspace`: the characters `str.strip()` removes when given no argument. */
  predicate IsSpace(c: char) {
    var n := c as int;
    || 0x09 <= n <= 0x0D
    || 0x1C <= n <= 0x20
    || n == 0x85 || n == 0xA0 || n == 0x1680
    || 0x2000 <= n <= 0x200A
    || n == 0x2028 || n == 0x2029 || n == 0x202F || n == 0x205F || n == 0x3000
  }

  /** The number of whitespace characters at the front of `s`. */
  function LeadingSpaces(s: string): (n: nat)
    ensures n <= |s|
    ensures forall k :: 0 <= k < n ==> IsSpace(s[k])
    ensures n < |s| ==> !IsSpace(s[n])
  {
    if |s| > 0 && IsSpace(s[0]) then 1 + LeadingSpaces(s[1..]) else 0
  }

  /** The number of whitespace characters at the back of `s`. */
  function TrailingSpaces(s: string): (n: nat)
    ensures n <= |s|
    ensures forall k :: |s| - n <= k < |s| ==> IsSpace(s[k])
    ensures n < |s| ==> !IsSpace(s[|s| - 1 - n])
  {
    if |s| > 0 && IsSpace(s[|s| - 1]) then 1 + TrailingSpaces(s[..|s| - 1]) else 0
  }

  /** Python's `s.strip()`: `s` without its leading and trailing whitespace. */
  function Strip(s: string): (r: string)
    ensures r == [] <==> forall k :: 0 <= k < |s| ==> IsSpace(s[k])
    ensures r != [] ==> !IsSpace(r[0]) && !IsSpace(r[|r| - 1])
    ensures LeadingSpaces(s) + |r| <= |s|
    ensures r == s[LeadingSpaces(s)..LeadingSpaces(s) + |r|]
    ensures forall k :: LeadingSpaces(s) + |r| <= k < |s| ==> IsSpace(s[k])
  {
    var rest := s[LeadingSpaces(s)..];
    rest[..|rest| - TrailingSpaces(rest)]
  }

  /** Python's general truth value of a value (`bool(v)`). */
  predicate Truthy(v: Value) {
    match v
    case Str(s) => |s| > 0
    case Bool(b) => b
    case Num(n) => n != 0
    case Null => false
    case Other => true
    case List(xs) => |xs| > 0
    case Dict(m) => |m| > 0
  }

  /** `empty_field`: a string is tested after stripping it, a boolean stands in for
      `True`, and every other value is tested as it is. */
  predicate EmptyField(v: Value) {
    !Truthy(if v.Str? then Str(Strip(v.s)) else if v.Bool? then Bool(true) else v)
  }

  /** The three cases of `empty_field`, written out: a string is empty exactly when it
      is blank, a boolean never is, and any other value is empty exactly when it is
      `None`, `0`, `[]` or `{}`. */
  lemma EmptyFieldCases(v: Value)
    ensures v.Str? ==> (EmptyField(v) <==> forall k :: 0 <= k < |v.s| ==> IsSpace(v.s[k]))
    ensures v.Bool? ==> !EmptyField(v)
    ensures !v.Str? && !v.Bool? ==>
      (EmptyField(v) <==> v == Null || v == Num(0) || v == List([]) || v == Dict(map[]))
  {
  }
}
