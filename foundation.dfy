/** The parts of Apple's Foundation framework that the quiz relies on but whose
    implementation is not part of this model.  Each becomes a value the caller
    supplies, so that every statement about the quiz holds for any behaviour of them. */
module Foundation {
  import opened Wrappers

  /** Swift's `Data`: raw bytes. */
  type Data = seq<bv8>

  /** A point in time (`Date`), as seconds since an arbitrary epoch. */
  type Date = int

  /** A `Float` value: a finite number (kept exactly), an infinity or NaN. */
  datatype Float = Finite(value: real) | Infinite(negative: bool) | NaN

  /** `x > t` on a `Float` and a finite threshold: false for NaN, as IEEE 754
      ordered comparisons are. */
  predicate FloatGreater(x: Float, t: real) {
    match x
    case Finite(v) => v > t
    case Infinite(negative) => !negative
    case NaN => false
  }

  /** `x < t` on a `Float` and a finite threshold: false for NaN. */
  predicate FloatLess(x: Float, t: real) {
    match x
    case Finite(v) => v < t
    case Infinite(negative) => negative
    case NaN => false
  }

  /** A JSON document after lexing, the input to a `Decodable` initialiser. */
  datatype Json =
    | JString(text: string)
    | JNumber(number: real)
    | JBool(flag: bool)
    | JNull
    | JArray(elements: seq<Json>)
    | JObject(fields: map<string, Json>)

  /** The Foundation calls the quiz makes, as plain functions:
      - `parseJson`: the lexing half of `JSONDecoder.decode`;
      - `isValidURL`: whether `URL(string:)` accepts a string;
      - `parseFloat`: `Float(_: String)`, `None` when the text is not a number
        (texts such as "nan" and "inf" give `NaN` and `Infinite`);
      - `download`: `Data(contentsOf:)`, `None` when it throws. */
  datatype Platform = Platform(
    parseJson: Data -> Option<Json>,
    isValidURL: string -> bool,
    parseFloat: string -> Option<Float>,
    download: string -> Option<Data>)
}
