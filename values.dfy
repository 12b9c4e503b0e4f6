/**
 * JSON field values as the relay sees them after parsing a frame.
 * Only the shapes the handler distinguishes are kept: a field that is
 * missing (`undefined`), an explicit `null`, or a string.
 */
module Values {

  datatype Option<T> = None | Some(value: T)

  /** A field of a parsed frame, a stored record or a reply. */
  datatype Value = Absent | Null | Str(s: string)

  /** The `act` field of a request: a string, or anything else. */
  datatype ActField = NotAString | ActString(name: string)

  /** JavaScript truthiness of a field: only a non-empty string is truthy. */
  predicate Truthy(v: Value)
  {
    v.Str? && v.s != ""
  }

  /**
   * The property name JavaScript uses when a field value indexes an
   * object: `obj[undefined]` reads the key "undefined", `obj[null]` the
   * key "null".
   */
  function PropKey(v: Value): string
  {
    match v
    case Absent => "undefined"
    case Null => "null"
    case Str(s) => s
  }

  /**
   * Two field values index the same property exactly when they are equal,
   * or when one is `undefined` and the other the string "undefined", or
   * one is `null` and the other the string "null". In particular a session
   * without a uid writes its keys into the entries of the user named
   * "null", and `close()` as written deletes that user's connection entry.
   */
  lemma PropKeyShared(v: Value, w: Value)
    ensures PropKey(v) == PropKey(w) <==>
      || v == w
      || {v, w} == {Absent, Str("undefined")}
      || {v, w} == {Null, Str("null")}
  {
    if PropKey(v) == PropKey(w) && v != w {
      if v.Str? && w.Str? {
        assert false;
      } else if v == Absent || w == Absent {
        assert {v, w} == {Absent, Str("undefined")};
      } else {
        assert {v, w} == {Null, Str("null")};
      }
    }
  }

  /** A per-connection uid, `null` until identified, as a frame field. */
  function UidValue(uid: Option<string>): Value
  {
    if uid.Some? then Str(uid.value) else Null
  }

  /** Reading a key map: a key never written reads as `undefined`. */
  function Lookup(m: map<string, Value>, k: string): Value
  {
    if k in m then m[k] else Absent
  }
}
