/** Python values, exceptions and dicts, as far as the helper module relies on them. */
module PyValues {

  /** A value stored in a transaction dict or passed as an optional argument. */
  datatype Value = NoneValue | Int(i: int) | Str(s: string)

  /** Python truthiness: `None`, `0` and `''` are false, everything else is true. */
  predicate Truthy(v: Value) {
    match v
    case NoneValue => false
    case Int(i) => i != 0
    case Str(s) => s != ""
  }

  /** A transaction as the dict web3 builds and signs. Key order is not modelled. */
  type Transaction = map<string, Value>

  type Bytes = seq<bv8>

  datatype Option<T> = None | Some(value: T)

  /** The exceptions the helper raises or lets escape. */
  datatype Error =
    | Exception(message: string)   // `raise Exception("...")` with its message
    | KeyError(key: string)        // subscripting a dict at a missing key
    | AttributeError(name: string) // reading an attribute of `None`
    | EOFError                     // `input()` with no answer left
    | ValueError                   // a key file the library cannot decrypt

  datatype Result<T> = Ok(value: T) | Err(error: Error)

  /** A mutable Python dict that callers share by reference. */
  class Dict {
    var items: Transaction

    constructor (items: Transaction)
      ensures this.items == items
    {
      this.items := items;
    }
  }

  /** `str.lower()` on one character; only the ASCII letters are mapped. */
  function LowerChar(c: char): char {
    if 'A' <= c <= 'Z' then (c as int + 32) as char else c
  }

  /** `str.lower()`, character by character. */
  function Lower(s: string): (r: string)
    ensures |r| == |s|
  {
    if s == [] then [] else [LowerChar(s[0])] + Lower(s[1..])
  }

  /** A string lowers to the one lower-case letter `c` exactly when it is `c` or its capital. */
  lemma LowerIsLetter(a: string, c: char)
    requires 'a' <= c <= 'z'
    ensures Lower(a) == [c] <==> a == [c] || a == [(c as int - 32) as char]
  {
    if |a| == 1 {
      assert Lower(a) == [LowerChar(a[0])] + Lower(a[1..]);
      assert a[1..] == [];
      assert a == [a[0]];
    }
  }
}
