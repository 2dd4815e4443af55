/** Values shared by every layer: optional values, results carrying the
    exceptions the Python code raises, and the few string helpers the
    modelled f-strings need. */
module Common {

  datatype Option<+T> = None | Some(value: T)

  /** Every exception the modelled code can raise or catch. */
  datatype Error =
    | StoreUnavailable                       // the Redis or Qdrant server cannot be reached
    | InvalidExpireTime(ttl: int)            // Redis refuses SETEX with a non-positive expiry
    | EmbeddingFailed(text: string)          // the embedding model rejected the text
    | TypeError(reason: string)
    | KeyError(key: string)                  // the key as Python shows it: 'content', or 0
    | MissingBackend                         // CustomLLMProvider got none of its three bindings
    | ProviderNotFound(name: string, available: seq<string>)
    | Remote(message: string)                // raised by a generation backend
    | Wrapped(prefix: string, cause: Error)  // `raise Exception(prefix + str(cause))`
    | NonTextResponse                        // a generated reply that is not a string

  datatype Result<+T> = Ok(value: T) | Err(error: Error) {
    predicate IsFailure() { Err? }
    function PropagateFailure<U>(): Result<U> requires Err? { Err(error) }
    function Extract(): T requires Ok? { value }
  }

  /** The outcome of a Python call that returns None or raises. */
  datatype Outcome = Pass | Fail(error: Error)

  /** Python truthiness of an optional string: neither None nor "". */
  predicate Truthy(s: Option<string>) {
    s.Some? && s.value != ""
  }

  function Digit(d: nat): (c: char)
    requires d < 10
    ensures '0' <= c <= '9' && c as int - '0' as int == d
  {
    (48 + d) as char
  }

  /** `str(n)` for a non-negative integer. */
  function NatStr(n: nat): (s: string)
    ensures |s| >= 1
    ensures n < 10 <==> |s| == 1
    ensures forall i :: 0 <= i < |s| ==> '0' <= s[i] <= '9'
  {
    if n < 10 then [Digit(n)] else NatStr(n / 10) + [Digit(n % 10)]
  }

  /** Distinct numbers print differently: what keeps derived chunk ids apart. */
  lemma {:induction false} NatStrInjective(a: nat, b: nat)
    requires NatStr(a) == NatStr(b)
    ensures a == b
  {
    if a >= 10 && b >= 10 {
      var sa, sb := NatStr(a), NatStr(b);
      assert sa[..|sa| - 1] == NatStr(a / 10);
      assert sb[..|sb| - 1] == NatStr(b / 10);
      NatStrInjective(a / 10, b / 10);
      assert Digit(a % 10) == sa[|sa| - 1] == sb[|sb| - 1] == Digit(b % 10);
    } else if a < 10 && b < 10 {
      assert Digit(a) == NatStr(a)[0] == NatStr(b)[0] == Digit(b);
    }
  }

  /** `str(i)` for any integer. */
  function IntStr(i: int): string {
    if i < 0 then "-" + NatStr(-i) else NatStr(i)
  }

  /** `sep.join(parts)`. */
  function Join(parts: seq<string>, sep: string): string {
    if |parts| == 0 then ""
    else if |parts| == 1 then parts[0]
    else parts[0] + sep + Join(parts[1..], sep)
  }

  /** Python's substring test `sub in s`. */
  predicate Contains(s: string, sub: string)
    decreases |s|
  {
    if |s| < |sub| then false
    else s[..|sub|] == sub || (|s| > 0 && Contains(s[1..], sub))
  }

  /** A string contains itself wherever it occurs. */
  lemma {:induction false} ContainsInfix(a: string, sub: string, b: string)
    ensures Contains(a + sub + b, sub)
  {
    if |a| == 0 {
      assert (a + sub + b)[..|sub|] == sub;
    } else {
      ContainsInfix(a[1..], sub, b);
      assert (a + sub + b)[1..] == a[1..] + sub + b;
    }
  }

  /** Whatever a suffix contains, the whole string contains. */
  lemma {:induction false} ContainsSuffix(a: string, s: string, sub: string)
    requires Contains(s, sub)
    ensures Contains(a + s, sub)
  {
    if |a| > 0 {
      ContainsSuffix(a[1..], s, sub);
      assert (a + s)[1..] == a[1..] + s;
    } else {
      assert a + s == s;
    }
  }

  /** Every part occurs in the joined string. */
  lemma {:induction false} JoinContains(parts: seq<string>, sep: string, i: nat)
    requires i < |parts|
    ensures Contains(Join(parts, sep), parts[i])
  {
    if |parts| == 1 {
      ContainsInfix("", parts[0], "");
      assert "" + parts[0] + "" == parts[0];
    } else if i == 0 {
      ContainsInfix("", parts[0], sep + Join(parts[1..], sep));
      assert "" + parts[0] + (sep + Join(parts[1..], sep)) == Join(parts, sep);
    } else {
      JoinContains(parts[1..], sep, i - 1);
      ContainsSuffix(parts[0] + sep, Join(parts[1..], sep), parts[i]);
      assert parts[0] + sep + Join(parts[1..], sep) == Join(parts, sep);
    }
  }
}
