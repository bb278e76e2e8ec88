/** Ruby values as they occur in a parsed ActivityPub (JSON-LD) document, and
    the two notions of "having a value" the service relies on: Ruby truthiness
    (used by `||`) and ActiveSupport's `present?`. */
module RubyValues {

  /** A Ruby value. JSON objects are Ruby hashes, which keep insertion order,
      so a hash is an ordered sequence of (key, value) entries. `Time` stands
      for a Ruby `Time` object (seconds since the epoch, UTC). */
  datatype Value =
    | Nil
    | Bool(b: bool)
    | Num(n: int)
    | Str(s: string)
    | List(items: seq<Value>)
    | Hash(entries: seq<(string, Value)>)
    | Time(epoch: int)

  /** Ruby truthiness: everything except `nil` and `false` is truthy. */
  predicate Truthy(v: Value) {
    v != Nil && v != Bool(false)
  }

  /** Ruby's `a || b`: `a` when it is truthy, otherwise `b`. */
  function Or(a: Value, b: Value): (r: Value)
    ensures Truthy(a) ==> r == a
    ensures !Truthy(a) ==> r == b
    ensures Truthy(r) <==> Truthy(a) || Truthy(b)
  {
    if Truthy(a) then a else b
  }

  /** A character of the POSIX class `[[:space:]]` on Unicode strings
      (the property White_Space). */
  predicate IsSpace(c: char) {
    || c == ' '
    || '\t' <= c <= '\r'
    || c == '\U{0085}' || c == '\U{00A0}' || c == '\U{1680}'
    || '\U{2000}' <= c <= '\U{200A}'
    || c == '\U{2028}' || c == '\U{2029}' || c == '\U{202F}'
    || c == '\U{205F}' || c == '\U{3000}'
  }

  /** `String#blank?`: empty, or matched by `/\A[[:space:]]*\z/`. */
  function AllSpace(s: string): (r: bool)
    ensures r <==> forall i :: 0 <= i < |s| ==> IsSpace(s[i])
  {
    if s == [] then true else IsSpace(s[0]) && AllSpace(s[1..])
  }

  /** `Object#blank?` as ActiveSupport defines it for each kind of value. */
  predicate Blank(v: Value) {
    match v
    case Nil => true
    case Bool(b) => !b
    case Num(_) => false
    case Str(s) => AllSpace(s)
    case List(items) => items == []
    case Hash(entries) => entries == []
    case Time(_) => false
  }

  /** `Object#present?`, the negation of `blank?`. A string is present exactly
      when it holds a non-whitespace character, an array or hash when it is
      non-empty; any other value (nil, booleans, numbers, times) exactly when
      it is truthy. */
  function Present(v: Value): (r: bool)
    ensures v.Str? ==> (r <==> exists i :: 0 <= i < |v.s| && !IsSpace(v.s[i]))
    ensures r ==> Truthy(v)
    ensures v.List? ==> (r <==> |v.items| > 0)
    ensures v.Hash? ==> (r <==> |v.entries| > 0)
    ensures !(v.Str? || v.List? || v.Hash?) ==> (r <==> Truthy(v))
  {
    !Blank(v)
  }
}
