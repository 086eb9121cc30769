/** Shared vocabulary: optional values, Python-style failures and the two
    Python list/str helpers the controller relies on (`s[i:]` and `sep.join`). */
module Common {

  datatype Option<T> = None | Some(value: T)

  /** The exceptions the modelled Python code can raise. */
  datatype Error =
    | KeyError(key: string)              // dict lookup or `del` on a missing key
    | MessageTypeNotFound                // Exception("Message type not found.")
    | AttributeError(attribute: string)  // attribute read on None (lazy graph not built)
    | UnboundLocalError(name: string)    // local read before assignment
    | ModelFault                         // the language model gave no reply
    | ValidationError(field: string)     // a Product field is missing or mistyped
    | GraphRecursionError                // the compiled graph ran out of steps

  datatype Result<T> = Ok(value: T) | Err(error: Error)

  /** Completion of a procedure that returns None in Python. */
  datatype Outcome = Pass | Fail(error: Error)

  /** Python's `s[i:]` for an integer start that may be negative: always a
      suffix of `s`; a start `i >= 0` drops the first `i` elements (all of
      them past the end), a start `i < 0` keeps the last `-i` elements (all
      of them below `-len`). */
  function SliceFrom<T>(s: seq<T>, i: int): (r: seq<T>)
    ensures |r| <= |s| && r == s[|s| - |r|..]
    ensures 0 <= i ==> |r| == if i <= |s| then |s| - i else 0
    ensures i < 0 ==> |r| == if -i <= |s| then -i else |s|
  {
    if i < -|s| then s
    else if i < 0 then s[|s| + i..]
    else if i <= |s| then s[i..]
    else []
  }

  /** Python's `sep.join(parts)`. */
  function Join(sep: string, parts: seq<string>): string
  {
    if |parts| == 0 then ""
    else if |parts| == 1 then parts[0]
    else parts[0] + sep + Join(sep, parts[1..])
  }

  function TotalLength(parts: seq<string>): nat
  {
    if parts == [] then 0 else |parts[0]| + TotalLength(parts[1..])
  }

  /** The joined text is the parts plus one separator between each neighbour. */
  lemma {:induction false} JoinLength(sep: string, parts: seq<string>)
    requires |parts| > 0
    ensures |Join(sep, parts)| == TotalLength(parts) + |sep| * (|parts| - 1)
  {
    if |parts| > 1 {
      JoinLength(sep, parts[1..]);
    }
  }

  /** Joining starts with the first part and ends with the last one. */
  lemma {:induction false} JoinEnds(sep: string, parts: seq<string>)
    requires |parts| > 0
    ensures |Join(sep, parts)| >= |parts[0]| && Join(sep, parts)[..|parts[0]|] == parts[0]
    ensures |Join(sep, parts)| >= |parts[|parts| - 1]|
    ensures Join(sep, parts)[|Join(sep, parts)| - |parts[|parts| - 1]|..] == parts[|parts| - 1]
  {
    if |parts| > 1 {
      JoinEnds(sep, parts[1..]);
      var rest := Join(sep, parts[1..]);
      assert Join(sep, parts) == parts[0] + sep + rest;
      assert parts[1..][|parts[1..]| - 1] == parts[|parts| - 1];
    }
  }
}
