/**
 * The `Setting` model: a key with a nullable text value that holds either a
 * scalar as given or the JSON encoding of an array.
 */
module SettingModel {
  import opened Wrappers
  import opened PhpStrings

  /** The PHP values a setting can hold (floats and objects are not modelled). */
  datatype Value =
    | Null
    | Bool(b: bool)
    | Int(i: int)
    | Str(s: string)
    | Array(entries: seq<Entry>)   // an ordered PHP array; JSON-decoded objects become these

  datatype Entry = Entry(key: string, value: Value)

  /**
   * `json_encode` and `json_decode($text, true)`, taken as given: `decode`
   * answers `None` when `json_last_error()` would report an error.
   */
  datatype JsonCodec = JsonCodec(encode: Value -> string, decode: string -> Option<Value>)

  /** The JSON law the model relies on: decoding the encoding of an array gives the array back. */
  ghost predicate Lawful(codec: JsonCodec) {
    forall v: Value :: v.Array? ==> codec.decode(codec.encode(v)) == Some(v)
  }

  /**
   * The text the value column receives: arrays as JSON, scalars unchanged
   * (a bool or int is written as the text the database binding produces),
   * `null` as NULL.
   */
  function StoredForm(codec: JsonCodec, v: Value): (t: Option<string>)
    ensures v.Array? ==> t == Some(codec.encode(v))
    ensures v.Str? ==> t == Some(v.s)
    ensures t.None? <==> v.Null?
  {
    match v
    case Null => None
    case Bool(b) => Some(if b then "1" else "0")
    case Int(i) => Some(DecimalText(i))
    case Str(s) => Some(s)
    case Array(_) => Some(codec.encode(v))
  }

  /** Text read back from the column: the decoded JSON if it parses, the raw text otherwise. */
  function DecodeText(codec: JsonCodec, t: string): Value {
    match codec.decode(t)
    case Some(w) => w
    case None => Str(t)
  }

  /** The decoded value of a column that may be NULL. */
  function Decoded(codec: JsonCodec, stored: Option<string>): Value {
    match stored
    case None => Null
    case Some(t) => DecodeText(codec, t)
  }

  /** Decoding after assigning gives back any array, under a lawful codec. */
  lemma ArrayRoundTrip(codec: JsonCodec, v: Value)
    requires Lawful(codec) && v.Array?
    ensures Decoded(codec, StoredForm(codec, v)) == v
  {
  }

  /**
   * A string comes back as itself exactly when it is not valid JSON; a string
   * that parses (say "123" or "true") comes back decoded.
   */
  lemma StringRoundTrip(codec: JsonCodec, s: string)
    ensures codec.decode(s).None? ==> Decoded(codec, StoredForm(codec, Str(s))) == Str(s)
    ensures codec.decode(s).Some? ==> Decoded(codec, StoredForm(codec, Str(s))) == codec.decode(s).value
  {
  }

  /** One row of the settings table as an Eloquent model. */
  class Setting {
    var key: string
    var value: Option<string>

    constructor (key: string, value: Option<string>)
      ensures this.key == key && this.value == value
    {
      this.key, this.value := key, value;
    }

    /** `setValueAttribute`: arrays become their JSON encoding, scalars are kept. */
    method SetValue(codec: JsonCodec, v: Value)
      modifies this`value
      ensures value == StoredForm(codec, v)
      ensures v.Array? ==> value == Some(codec.encode(v))
      ensures v.Str? ==> value == Some(v.s)
    {
      value := StoredForm(codec, v);
    }

    /** `getDecodedValueAttribute`: NULL gives null, JSON gives its structure, anything else its text. */
    function DecodedValue(codec: JsonCodec): (r: Value)
      reads this
      ensures value.None? ==> r == Null
      ensures value.Some? && codec.decode(value.value).None? ==> r == Str(value.value)
      ensures value.Some? && codec.decode(value.value).Some? ==> r == codec.decode(value.value).value
    {
      Decoded(codec, value)
    }
  }
}
