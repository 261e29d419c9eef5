/**
 * Vocabulary shared by the cart, address-book and order models: optional
 * values, handler results carrying an HTTP failure, the optional string
 * fields of a JSON body, and sums over sequences.
 */
module Common {

  datatype Option<+T> = None | Some(value: T)

  /** A rejected request: the HTTP status code and the message sent back. */
  datatype Failure = Failure(status: nat, message: string)

  /** The outcome of a handler: the new value of the document, or a failure (no write). */
  datatype Result<+T> = Ok(value: T) | Err(failure: Failure)

  /** Document ids (ObjectId) are compared through their hexadecimal string form. */
  type Id = string

  /** An ISO-8601 timestamp; the clock is a parameter of every handler that reads it. */
  type Timestamp = string

  /** Amounts of money, in cents. */
  type Money = int

  /** An optional string field of a JSON body: absent, explicitly null, or a string (possibly empty). */
  datatype Attr = Absent | Null | Text(s: string)

  /** JavaScript truthiness of such a field. */
  predicate Truthy(a: Attr) {
    a.Text? && a.s != ""
  }

  /** `a || null`: absent, null and the empty string all become null. */
  function OrNull(a: Attr): (r: Option<string>)
    ensures r.Some? <==> Truthy(a)
    ensures r.Some? ==> a == Text(r.value) && r.value != ""
  {
    if Truthy(a) then Some(a.s) else None
  }

  /** `findIndex`: the first position whose element satisfies `p`, or `|s|` where JavaScript answers -1. */
  function FirstIndex<T>(s: seq<T>, p: T -> bool): (i: nat)
    ensures i <= |s|
    ensures i < |s| ==> p(s[i])
    ensures forall j :: 0 <= j < i ==> !p(s[j])
  {
    FirstIndexFrom(s, p, 0)
  }

  function FirstIndexFrom<T>(s: seq<T>, p: T -> bool, k: nat): (i: nat)
    requires k <= |s|
    ensures k <= i <= |s|
    ensures i < |s| ==> p(s[i])
    ensures forall j :: k <= j < i ==> !p(s[j])
    decreases |s| - k
  {
    if k == |s| then k
    else if p(s[k]) then k
    else FirstIndexFrom(s, p, k + 1)
  }

  /** The sum of `f` over the elements of `s`. */
  function SumOf<T>(s: seq<T>, f: T -> int): int {
    if s == [] then 0 else f(s[0]) + SumOf(s[1..], f)
  }

  lemma {:induction false} SumOfAppend<T>(a: seq<T>, b: seq<T>, f: T -> int)
    ensures SumOf(a + b, f) == SumOf(a, f) + SumOf(b, f)
  {
    if a == [] {
      assert a + b == b;
    } else {
      assert (a + b)[1..] == a[1..] + b;
      SumOfAppend(a[1..], b, f);
    }
  }

  lemma SumOfSnoc<T>(a: seq<T>, x: T, f: T -> int)
    ensures SumOf(a + [x], f) == SumOf(a, f) + f(x)
  {
    SumOfAppend(a, [x], f);
    assert [x][1..] == [];
  }

  lemma {:induction false} SumOfUpdate<T>(s: seq<T>, i: nat, x: T, f: T -> int)
    requires i < |s|
    ensures SumOf(s[i := x], f) == SumOf(s, f) - f(s[i]) + f(x)
  {
    if i == 0 {
      assert s[i := x][1..] == s[1..];
    } else {
      assert s[i := x][1..] == s[1..][i - 1 := x];
      SumOfUpdate(s[1..], i - 1, x, f);
    }
  }

  /** Two functions that agree on every element give the same sum. */
  lemma {:induction false} SumOfSame<T>(s: seq<T>, f: T -> int, g: T -> int)
    requires forall i :: 0 <= i < |s| ==> f(s[i]) == g(s[i])
    ensures SumOf(s, f) == SumOf(s, g)
  {
    if s != [] {
      SumOfSame(s[1..], f, g);
    }
  }

  /** A sum of non-negative terms bounds each of its terms. */
  lemma {:induction false} SumOfBoundsTerm<T>(s: seq<T>, i: nat, f: T -> int)
    requires i < |s|
    requires forall j :: 0 <= j < |s| ==> f(s[j]) >= 0
    ensures 0 <= f(s[i]) <= SumOf(s, f)
  {
    SumOfNonNegative(s[1..], f);
    if i > 0 {
      SumOfBoundsTerm(s[1..], i - 1, f);
    }
  }

  lemma {:induction false} SumOfNonNegative<T>(s: seq<T>, f: T -> int)
    requires forall j :: 0 <= j < |s| ==> f(s[j]) >= 0
    ensures SumOf(s, f) >= 0
  {
    if s != [] {
      SumOfNonNegative(s[1..], f);
    }
  }
}
