/**
 * The generic configuration tree that `encoding/json` produces when it decodes into
 * `interface{}`, the text codec as an oracle, and the rules by which `json.Unmarshal`
 * fills the fields of a Go struct from such a tree.
 */
module Json {
  import opened Wrappers

  /**
   * A decoded JSON value: objects become maps, arrays sequences,
   * numbers reals (those the codec produces are float64 values).
   */
  datatype JSON =
    | JNull
    | JBool(b: bool)
    | JNum(n: real)
    | JStr(s: string)
    | JArr(items: seq<JSON>)
    | JObj(fields: map<string, JSON>)

  /**
   * `json.Marshal` of a decoded tree and `json.Unmarshal` of text into `interface{}`.
   * Both are supplied from outside; byte-level JSON is not modelled.
   */
  datatype Codec = Codec(marshal: JSON -> string, unmarshal: string -> Option<JSON>)

  /** Marshalling `j` and unmarshalling the text gives `j` back. */
  ghost predicate Reparses(c: Codec, j: JSON)
  {
    c.unmarshal(c.marshal(j)) == Some(j)
  }

  /**
   * What `encoding/json` guarantees and the resolver relies on: empty text is not JSON,
   * every tree that unmarshalling produces reparses, and so does every member and
   * element of a tree that reparses. Trees the codec never produces (numbers that are
   * not float64 values, say) are not constrained.
   */
  ghost predicate RoundTrips(c: Codec)
  {
    && c.unmarshal("") == None
    && (forall text :: c.unmarshal(text).Some? ==> Reparses(c, c.unmarshal(text).value))
    && (forall fields :: Reparses(c, JObj(fields)) ==> forall key :: key in fields ==> Reparses(c, fields[key]))
    && (forall items :: Reparses(c, JArr(items)) ==> forall i :: 0 <= i < |items| ==> Reparses(c, items[i]))
  }

  /** The text of a tree that reparses is never empty under a round-tripping codec. */
  lemma MarshalledTextIsNotEmpty(c: Codec, j: JSON)
    requires RoundTrips(c) && Reparses(c, j)
    ensures c.marshal(j) != ""
  {
  }

  /**
   * `RoundTrips` can be met: a codec that only knows `null` meets it, so lemmas that
   * assume it are not vacuous.
   */
  lemma RoundTripsCanHold()
    ensures exists c :: RoundTrips(c)
  {
    var c := Codec((j: JSON) => if j.JNull? then "null" else "?", (text: string) => if text == "null" then Some(JNull) else None);
    assert RoundTrips(c);
  }

  /**
   * `json.Unmarshal` of object member `key` into a Go `string` field: a missing member
   * or `null` leaves the zero value "", a string is taken, any other kind is a type
   * error (None).
   */
  function StringMember(fields: map<string, JSON>, key: string): (r: Option<string>)
    ensures r.Some? <==> key !in fields || fields[key].JNull? || fields[key].JStr?
    ensures r.Some? ==> r.value == (if key in fields && fields[key].JStr? then fields[key].s else "")
  {
    if key !in fields then Some("")
    else match fields[key]
      case JNull => Some("")
      case JStr(s) => Some(s)
      case _ => None
  }

  /**
   * `json.Unmarshal` of object member `key` into a Go `[]interface{}` field: a missing
   * member or `null` leaves a nil (empty) slice, an array is taken element by element,
   * any other kind is a type error (None).
   */
  function ArrayMember(fields: map<string, JSON>, key: string): (r: Option<seq<JSON>>)
    ensures r.Some? <==> key !in fields || fields[key].JNull? || fields[key].JArr?
    ensures r.Some? ==> r.value == (if key in fields && fields[key].JArr? then fields[key].items else [])
  {
    if key !in fields then Some([])
    else match fields[key]
      case JNull => Some([])
      case JArr(items) => Some(items)
      case _ => None
  }
}
