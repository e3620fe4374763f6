/**
 * How JavaScript's loose equality `status == 1` reads a string: the string is
 * stripped of surrounding white space and converted to a number.
 */
module JsNumber {

  /** The characters JavaScript strips from both ends when it turns a string into a number. */
  predicate IsJsSpace(c: char)
  {
    || c == '\t' || c == '\n' || c == '\U{B}' || c == '\U{C}' || c == '\r' || c == ' '
    || c == '\U{A0}' || c == '\U{1680}' || ('\U{2000}' <= c <= '\U{200A}')
    || c == '\U{2028}' || c == '\U{2029}' || c == '\U{202F}' || c == '\U{205F}'
    || c == '\U{3000}' || c == '\U{FEFF}'
  }

  function TrimStart(s: string): (r: string)
    ensures |r| <= |s| && r == s[|s| - |r|..]
    ensures forall i :: 0 <= i < |s| - |r| ==> IsJsSpace(s[i])
    ensures r == [] || !IsJsSpace(r[0])
  {
    if s != [] && IsJsSpace(s[0]) then TrimStart(s[1..]) else s
  }

  function TrimEnd(s: string): (r: string)
    ensures |r| <= |s| && r == s[..|r|]
    ensures forall i :: |r| <= i < |s| ==> IsJsSpace(s[i])
    ensures r == [] || !IsJsSpace(r[|r| - 1])
  {
    if s != [] && IsJsSpace(s[|s| - 1]) then TrimEnd(s[..|s| - 1]) else s
  }

  /** Zeros, then '1', then nothing or a '.' followed only by zeros. */
  predicate UnsignedOne(u: string)
  {
    exists k :: 0 <= k < |u| && OneAt(u, k)
  }

  /** `u[k]` is the '1' of such a spelling. */
  predicate OneAt(u: string, k: nat)
    requires k < |u|
  {
    && (forall i :: 0 <= i < k ==> u[i] == '0')
    && u[k] == '1'
    && (k + 1 == |u| || (u[k + 1] == '.' && forall i :: k + 2 <= i < |u| ==> u[i] == '0'))
  }

  /** `status == 1` under JavaScript's loose equality, for decimal spellings of the number. */
  predicate LooselyEqualsOne(status: string)
  {
    var t := TrimEnd(TrimStart(status));
    if |t| > 0 && t[0] == '+' then UnsignedOne(t[1..]) else UnsignedOne(t)
  }

  /** The status select's value '1' equals one. */
  lemma SelectOpen()
    ensures LooselyEqualsOne("1")
  {
    assert TrimStart("1") == "1" && TrimEnd("1") == "1";
    assert OneAt("1", 0);
  }

  /** A '.' followed by zeros after the '1' still spells one, as in "1.0". */
  lemma FractionZerosIgnored(zeros: string)
    requires forall i :: 0 <= i < |zeros| ==> zeros[i] == '0'
    ensures LooselyEqualsOne("1." + zeros)
  {
    var t := "1." + zeros;
    assert t[0] == '1' && t[1] == '.';
    assert !IsJsSpace(t[0]);
    assert TrimStart(t) == t;
    assert !IsJsSpace(t[|t| - 1]) by {
      assert t[|t| - 1] == '.' || t[|t| - 1] == '0';
    }
    assert TrimEnd(t) == t;
    forall i | 2 <= i < |t|
      ensures t[i] == '0'
    {
      assert t[i] == zeros[i - 2];
    }
    assert OneAt(t, 0);
    assert UnsignedOne(t);
  }

  /**
   * A string that starts with neither white space, nor a '+', nor a digit that can
   * begin a spelling of one, is some other number (or not a number at all).
   */
  lemma OtherLeadingCharacter(s: string)
    requires s != [] && !IsJsSpace(s[0]) && s[0] != '+' && s[0] != '0' && s[0] != '1'
    ensures !LooselyEqualsOne(s)
  {
    assert TrimStart(s) == s;
    var t := TrimEnd(s);
    assert t != [] && t[0] == s[0];
    forall k | 0 <= k < |t|
      ensures !OneAt(t, k)
    {
    }
  }

  /** The status select's value '2' does not equal one. */
  lemma SelectInProgress()
    ensures !LooselyEqualsOne("2")
  {
    OtherLeadingCharacter("2");
  }

  /** White space in front of a string that starts with something else is stripped. */
  lemma {:induction false} TrimStartSpaces(pre: string, t: string)
    requires forall i :: 0 <= i < |pre| ==> IsJsSpace(pre[i])
    requires t != [] && !IsJsSpace(t[0])
    ensures TrimStart(pre + t) == t
  {
    if pre != [] {
      assert (pre + t)[1..] == pre[1..] + t;
      TrimStartSpaces(pre[1..], t);
    } else {
      assert pre + t == t;
    }
  }

  /** White space after a string that ends with something else is stripped. */
  lemma {:induction false} TrimEndSpaces(t: string, post: string)
    requires forall i :: 0 <= i < |post| ==> IsJsSpace(post[i])
    requires t != [] && !IsJsSpace(t[|t| - 1])
    ensures TrimEnd(t + post) == t
  {
    if post != [] {
      var shorter := post[..|post| - 1];
      assert (t + post)[..|t + post| - 1] == t + shorter;
      TrimEndSpaces(t, shorter);
    } else {
      assert t + post == t;
    }
  }

  /** Any white space around a '1' and any zeros in front of it still spell one. */
  lemma SpacesAndZerosIgnored(pre: string, zeros: string, post: string)
    requires forall i :: 0 <= i < |pre| ==> IsJsSpace(pre[i])
    requires forall i :: 0 <= i < |zeros| ==> zeros[i] == '0'
    requires forall i :: 0 <= i < |post| ==> IsJsSpace(post[i])
    ensures LooselyEqualsOne(pre + zeros + "1" + post)
  {
    var t := zeros + "1";
    var w := pre + zeros + "1" + post;
    assert t[0] == '0' || t[0] == '1';
    assert w == pre + (t + post);
    TrimStartSpaces(pre, t + post);
    TrimEndSpaces(t, post);
    assert TrimEnd(TrimStart(w)) == t;
    assert t[|zeros|] == '1';
    assert OneAt(t, |zeros|);
    assert UnsignedOne(t);
  }

  /** A minus sign makes some other number. */
  lemma NegativeOne()
    ensures !LooselyEqualsOne("-1")
  {
    OtherLeadingCharacter("-1");
  }

}
