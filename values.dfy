/** The Python values and exceptions that the configuration store deals in. */
module Values {

  /** A value held as an attribute of a configuration object.
      `Other` stands for a JSON array or a nested JSON object: the store keeps
      it as it is, and the only thing the modelled code observes about it is
      its truth value (`nonEmpty`). */
  datatype Value =
    | Str(s: string)
    | Int(i: int)
    | Bool(b: bool)
    | Null
    | Other(nonEmpty: bool)

  /** The Python exceptions the modelled code raises or lets escape. */
  datatype Error =
    | NameError       // a call to a name that no module defines
    | TypeError       // setattr called with an attribute name that is not a str
    | AttributeError  // .lower() on a value without it, or getattr of a missing attribute
    | KeyError        // a configparser section that does not exist
    | ReadError       // configparser or json could not open or parse the file

  datatype Option<+T> = None | Some(value: T)

  datatype Result<+T> = Ok(value: T) | Err(error: Error)

  /** The outcome of a call that returns nothing but may raise. */
  datatype Outcome = Pass | Fail(error: Error)

  /** Python's `bool(v)`. */
  predicate Truthy(v: Value) {
    match v
    case Str(s) => s != []
    case Int(i) => i != 0
    case Bool(b) => b
    case Null => false
    case Other(nonEmpty) => nonEmpty
  }

  /** `str.lower` on one character, restricted to ASCII letters. */
  function LowerChar(c: char): char {
    if 'A' <= c <= 'Z' then (c as int + 32) as char else c
  }

  /** `str.lower`, restricted to ASCII letters. */
  function Lower(s: string): string {
    seq(|s|, i requires 0 <= i < |s| => LowerChar(s[i]))
  }

  /** Lower-casing twice is lower-casing once. */
  lemma LowerIdempotent(s: string)
    ensures Lower(Lower(s)) == Lower(s)
  {
  }
}
