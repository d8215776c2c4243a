/** Optional values, the outcome of a call that may raise, raw bytes, and two facts about sequences. */
module Results {

  /** The contents of a file or an HTTP body. */
  type Bytes = seq<bv8>

  datatype Option<T> = None | Some(value: T)

  /** `Err` stands for a Python exception; its message is kept for the log line. */
  datatype Result<T> = Ok(value: T) | Err(error: string)

  /** Concatenation regroups freely; stated once so that large proofs need not rediscover it. */
  lemma ConcatAssoc<T>(a: seq<T>, b: seq<T>, c: seq<T>)
    ensures a + b + c == a + (b + c)
  {
  }

  /** A slice of `s` read through the suffix `s[p..]`. */
  lemma SliceOfSuffix<T>(s: seq<T>, p: nat, a: nat, b: nat)
    requires p <= a <= b <= |s|
    ensures s[a..b] == s[p..][a - p..b - p]
  {
  }
}
