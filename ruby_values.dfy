/** The few Ruby values and Hash operations the document loader relies on.
    A Ruby object is a `Value`; a Ruby Hash is a `map<Value, Value>`. */
module RubyValues {

  /** The kinds of Ruby object that reach the loader as options or handles.
      `Stream` stands for a StringIO, IO or Tempfile and carries what reading
      it to the end yields: its text, or the error `read` raises (a closed
      stream, say). */
  datatype Value =
    | Nil
    | Bool(b: bool)
    | Int(i: int)
    | Str(s: string)
    | Sym(name: string)
    | Stream(contents: Result<string>)

  /** Outcome of a call that may raise: the value, or the exception's message. */
  datatype Result<T> = Success(value: T) | Failure(error: string)

  datatype Option<T> = None | Some(value: T)

  /** Ruby truthiness: only `nil` and `false` count as "not set". */
  predicate Truthy(v: Value) {
    v != Nil && v != Bool(false)
  }

  /** `hash[key]` on a Hash without a default: `nil` for a missing key. */
  function Lookup(m: map<Value, Value>, key: Value): Value {
    if key in m then m[key] else Nil
  }

  /** In Ruby every object other than nil and false is truthy, including 0,
      the empty String and a Symbol. */
  lemma TruthyUnlessNilOrFalse(v: Value)
    ensures !Truthy(v) <==> v == Nil || v == Bool(false)
    ensures Truthy(Int(0)) && Truthy(Str("")) && Truthy(Bool(true))
  {
  }

  /** `hash[key]` cannot tell a missing key from a key stored with nil, and
      any other key of the Hash gives back its stored value. */
  lemma LookupMissingIsNil(m: map<Value, Value>, key: Value, other: Value)
    ensures Lookup(m[key := Nil], key) == Lookup(m - {key}, key) == Nil
    ensures other in m ==> Lookup(m, other) == m[other]
  {
  }

  /** `defaults.merge(given)`: a new Hash with every key of both, where the
      value given wins over the default. */
  function Merge(defaults: map<Value, Value>, given: map<Value, Value>): (m: map<Value, Value>)
    ensures m.Keys == defaults.Keys + given.Keys
    ensures forall k :: k in given ==> m[k] == given[k]
    ensures forall k :: k in defaults && k !in given ==> m[k] == defaults[k]
  {
    defaults + given
  }
}
