/** Values and string helpers shared by the popup and the results page. */
module Common {

  /** A value that may be absent: JavaScript's `undefined`/`null` next to a present value. */
  datatype Option<+T> = None | Some(value: T)

  /** The outcome of a check that either yields a value or a message for the user. */
  datatype Result<+T, +E> = Ok(value: T) | Err(error: E)

  /** What JavaScript's `+` makes of a string that may be `undefined`. */
  function OrUndefined(o: Option<string>): (s: string)
    ensures o.Some? ==> s == o.value
    ensures o.None? ==> s == "undefined"
  {
    match o
    case Some(v) => v
    case None => "undefined"
  }

  /** `t` occurs in `s` starting at index `i`. */
  predicate OccursAt(s: string, t: string, i: nat)
  {
    i + |t| <= |s| && s[i..i + |t|] == t
  }

  /** `t` occurs somewhere in `s`. */
  ghost predicate Contains(s: string, t: string)
  {
    exists i: nat :: OccursAt(s, t, i)
  }

  predicate EndsWith(s: string, t: string)
  {
    |t| <= |s| && s[|s| - |t|..] == t
  }

  /** Whatever surrounds it, a string occurs in a concatenation where it was put. */
  lemma Spliced(x: string, t: string, y: string)
    ensures OccursAt(x + t + y, t, |x|)
    ensures Contains(x + t + y, t)
  {
    assert (x + t + y)[|x|..|x| + |t|] == t;
    assert OccursAt(x + t + y, t, |x|);
  }

  /** An occurrence stays one, shifted, when something is put in front. */
  lemma OccursAfter(x: string, y: string, t: string, i: nat)
    requires OccursAt(y, t, i)
    ensures OccursAt(x + y, t, |x| + i)
  {
    assert (x + y)[|x| + i..|x| + i + |t|] == y[i..i + |t|];
  }

  /** An occurrence stays one when something is appended. */
  lemma OccursBefore(x: string, y: string, t: string, i: nat)
    requires OccursAt(x, t, i)
    ensures OccursAt(x + y, t, i)
  {
    assert (x + y)[i..i + |t|] == x[i..i + |t|];
  }

  /** A three-part join starts with its first part, and after it come the other two. */
  lemma Peeled(a: string, b: string, c: string)
    ensures a <= a + b + c
    ensures (a + b + c)[|a|..] == b + c
  {
    assert (a + b + c)[..|a|] == a;
  }

  /** A three-part join ends with its last part, and its middle part sits between the other two. */
  lemma Framed(a: string, m: string, b: string)
    ensures EndsWith(a + m + b, b)
    ensures (a + m + b)[|a|..|a| + |m|] == m
  {
    assert (a + m + b)[|a + m|..] == b;
  }

  /**
   * The part of `s` before the first `c`, and the rest of `s` from that `c` on;
   * `(s, "")` when `c` does not occur in `s`.
   */
  function SplitBefore(s: string, c: char): (r: (string, string))
    ensures s == r.0 + r.1
    ensures c !in r.0
    ensures r.1 == [] || r.1[0] == c
  {
    if s == [] || s[0] == c then ([], s)
    else
      var (a, b) := SplitBefore(s[1..], c);
      assert s == [s[0]] + s[1..];
      ([s[0]] + a, b)
  }

  /** Splitting before a separator that the first part does not contain recovers both parts. */
  lemma {:induction false} SplitBeforeJoin(a: string, c: char, b: string)
    requires c !in a
    requires b == [] || b[0] == c
    ensures SplitBefore(a + b, c) == (a, b)
  {
    if a != [] {
      assert (a + b)[0] == a[0] != c;
      assert (a + b)[1..] == a[1..] + b;
      SplitBeforeJoin(a[1..], c, b);
      assert [a[0]] + a[1..] == a;
    } else {
      assert a + b == b;
    }
  }
}
