/** Shared vocabulary of the model: optional values, the exceptions the two
    wrappers raise or swallow, results of calls that may throw, and the string
    operations the wrappers use on labels and names. */
module Common {

  /** A .NET reference that may be null. */
  datatype Option<+T> = None | Some(value: T)

  /** The exceptions that matter to the wrappers, by kind. */
  datatype Error =
    | NullReference          // a member called through a null reference
    | ArgumentError          // System.ArgumentException (also a duplicate dictionary key)
    | OutOfRange             // an index outside an array or a collection
    | SequenceNotSingle      // LINQ Single/SingleOrDefault on more than one element
    | CapeBadArgument        // ECapeBadArgumentException
    | CapeInvalidOperation   // ECapeInvalidOperationException
    | ProviderFailure        // whatever the external provider throws

  /** The value of a call that returns normally, or the exception it throws. */
  datatype Result<+T> = Ok(value: T) | Err(error: Error)

  /** Completion of a call that returns nothing. */
  datatype Outcome = Pass | Fail(error: Error)

  /** `Enumerable.SingleOrDefault` on a double[]: 0 for no element, the element
      for one, an exception for more. */
  function SingleOrDefault(a: seq<real>): (r: Result<real>)
    ensures r.Ok? <==> |a| <= 1
    ensures |a| == 1 ==> r == Ok(a[0])
    ensures |a| == 0 ==> r == Ok(0.0)
    ensures r.Err? ==> r.error == SequenceNotSingle
  {
    if |a| == 0 then Ok(0.0) else if |a| == 1 then Ok(a[0]) else Err(SequenceNotSingle)
  }

  /** A vector of `n` zeros, what `new double[n]` holds. */
  function Zeros(n: nat): (z: seq<real>)
    ensures |z| == n && forall i :: 0 <= i < n ==> z[i] == 0.0
  {
    seq(n, _ => 0.0)
  }

  // ---------------------------------------------------------------------------
  // Ordinal substring search (string.Contains)
  // ---------------------------------------------------------------------------

  predicate StartsWith(s: string, p: string) {
    |p| <= |s| && s[..|p|] == p
  }

  /** `s.Contains(p)`, case-sensitive and ordinal, by scanning start positions. */
  predicate Contains(s: string, p: string)
    decreases |s|
  {
    StartsWith(s, p) || (|s| > 0 && Contains(s[1..], p))
  }

  /** `p` occurs in `s` starting at offset `i`. */
  predicate OccursAt(s: string, p: string, i: int) {
    0 <= i && i + |p| <= |s| && s[i..i + |p|] == p
  }

  /** An occurrence at offset `i` is found by the scan. */
  lemma {:induction false} OccursImpliesContains(s: string, p: string, i: int)
    requires OccursAt(s, p, i)
    ensures Contains(s, p)
    decreases i
  {
    if i > 0 {
      assert s[1..][i - 1..i - 1 + |p|] == s[i..i + |p|];
      OccursImpliesContains(s[1..], p, i - 1);
    }
  }

  /** The scan succeeds only at a real occurrence. */
  lemma {:induction false} ContainsImpliesOccurs(s: string, p: string) returns (i: int)
    requires Contains(s, p)
    ensures OccursAt(s, p, i)
    decreases |s|
  {
    if StartsWith(s, p) {
      i := 0;
    } else {
      var j := ContainsImpliesOccurs(s[1..], p);
      assert s[1..][j..j + |p|] == s[j + 1..j + 1 + |p|];
      i := j + 1;
    }
  }

  /** A pattern whose first character does not occur in `s` is not contained in it. */
  lemma {:induction false} FirstCharAbsent(s: string, p: string)
    requires |p| > 0 && p[0] !in s
    ensures !Contains(s, p)
    decreases |s|
  {
    if |s| > 0 {
      assert s[0] in s;
      assert forall c :: c in s[1..] ==> c in s;
      FirstCharAbsent(s[1..], p);
    }
  }

  /** The scan finds `p` exactly when `p` occurs somewhere in `s`. */
  lemma ContainsIffOccurs(s: string, p: string)
    ensures Contains(s, p) <==> exists i :: OccursAt(s, p, i)
  {
    if Contains(s, p) {
      var i := ContainsImpliesOccurs(s, p);
    }
    forall i | OccursAt(s, p, i) ensures Contains(s, p) {
      OccursImpliesContains(s, p, i);
    }
  }

  // ---------------------------------------------------------------------------
  // Lower-casing (string.ToLower, restricted to ASCII letters)
  // ---------------------------------------------------------------------------

  function AsciiLower(c: char): char {
    if 'A' <= c <= 'Z' then (c as int + 32) as char else c
  }

  /** `s.ToLower()` on the ASCII letters; every other character is kept. */
  function Lower(s: string): (r: string)
    ensures |r| == |s|
    ensures forall i :: 0 <= i < |r| ==> !('A' <= r[i] <= 'Z')
    ensures forall i :: 0 <= i < |r| ==> r[i] == s[i] || ('A' <= s[i] <= 'Z' && r[i] as int == s[i] as int + 32)
  {
    seq(|s|, i requires 0 <= i < |s| => AsciiLower(s[i]))
  }

  /** Lower-casing twice is lower-casing once. */
  lemma LowerIdempotent(s: string)
    ensures Lower(Lower(s)) == Lower(s)
  {
    var l := Lower(s);
    assert forall i :: 0 <= i < |l| ==> AsciiLower(l[i]) == l[i];
  }
}
