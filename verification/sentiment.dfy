/** How the classifier turns the language model's free-text reply into one
    of the three labels. The request to the model is not modelled: its
    reply is an input, None when the call raised. */
module Sentiment {
  import opened Wrappers
  import opened Labels

  /** Python's `str.isspace` for one character. */
  predicate IsSpace(c: char) {
    var n := c as int;
    || 0x09 <= n <= 0x0D || 0x1C <= n <= 0x20 || n == 0x85 || n == 0xA0 || n == 0x1680
    || 0x2000 <= n <= 0x200A || n == 0x2028 || n == 0x2029 || n == 0x202F || n == 0x205F
    || n == 0x3000
  }

  /** Neither end is whitespace. */
  predicate Trimmed(s: string) {
    |s| == 0 || (!IsSpace(s[0]) && !IsSpace(s[|s| - 1]))
  }

  /** `s.lstrip()`: the suffix left after dropping leading whitespace. */
  function StripLeft(s: string): (r: string)
    ensures |r| <= |s| && r == s[|s| - |r|..]
    ensures forall k :: 0 <= k < |s| - |r| ==> IsSpace(s[k])
    ensures |r| > 0 ==> !IsSpace(r[0])
  {
    if |s| > 0 && IsSpace(s[0]) then StripLeft(s[1..]) else s
  }

  /** `s.rstrip()`: the prefix left after dropping trailing whitespace. */
  function StripRight(s: string): (r: string)
    ensures |r| <= |s| && r == s[..|r|]
    ensures forall k :: |r| <= k < |s| ==> IsSpace(s[k])
    ensures |r| > 0 ==> !IsSpace(r[|r| - 1])
  {
    if |s| > 0 && IsSpace(s[|s| - 1]) then StripRight(s[..|s| - 1]) else s
  }

  /** `s.strip()`: the middle of `s` left once whitespace is cut from both
      ends; a string with no whitespace at its ends is left alone. */
  function Strip(s: string): (r: string)
    ensures Trimmed(r)
    ensures exists i, j :: 0 <= i <= j <= |s| && r == s[i..j]
              && (forall k :: 0 <= k < i ==> IsSpace(s[k]))
              && (forall k :: j <= k < |s| ==> IsSpace(s[k]))
    ensures Trimmed(s) ==> r == s
  {
    var left := StripLeft(s);
    var r := StripRight(left);
    StripFacts(s, left, r);
    r
  }

  /** Cutting leading whitespace (leaving the suffix `left`) and then
      trailing whitespace (leaving the prefix `r` of `left`) leaves a
      trimmed middle of `s` with only whitespace outside it. */
  lemma StripFacts(s: string, left: string, r: string)
    requires |left| <= |s| && left == s[|s| - |left|..]
    requires forall k :: 0 <= k < |s| - |left| ==> IsSpace(s[k])
    requires |left| > 0 ==> !IsSpace(left[0])
    requires |r| <= |left| && r == left[..|r|]
    requires forall k :: |r| <= k < |left| ==> IsSpace(left[k])
    requires |r| > 0 ==> !IsSpace(r[|r| - 1])
    ensures Trimmed(r)
    ensures exists i, j :: 0 <= i <= j <= |s| && r == s[i..j]
              && (forall k :: 0 <= k < i ==> IsSpace(s[k]))
              && (forall k :: j <= k < |s| ==> IsSpace(s[k]))
    ensures Trimmed(s) ==> r == s
  {
    var i := |s| - |left|;
    if Trimmed(s) && |s| > 0 {
      assert s[0] == s[|s| - |left|..][0];
      assert left[|left| - 1] == s[|s| - 1];
    }
    forall k | 0 <= k < |r|
      ensures r[k] == s[i + k]
    {
      assert r[k] == left[k];
    }
    forall k | i + |r| <= k < |s|
      ensures IsSpace(s[k])
    {
      assert s[k] == left[k - i];
    }
    assert |r| > 0 ==> r[0] == left[0];
    assert r == s[i..i + |r|];
  }

  /** ASCII upper-casing of one character. */
  function UpperChar(c: char): (u: char)
    ensures 'a' <= c <= 'z' ==> 'A' <= u <= 'Z' && u as int == c as int - 32
    ensures !('a' <= c <= 'z') ==> u == c
  {
    if 'a' <= c <= 'z' then (c as int - 32) as char else c
  }

  /** `s.upper()` on ASCII letters. */
  function Upper(s: string): (r: string)
    ensures |r| == |s|
    ensures forall k :: 0 <= k < |s| ==> r[k] == UpperChar(s[k])
    ensures forall k :: 0 <= k < |r| ==> !('a' <= r[k] <= 'z')
    ensures forall k :: 0 <= k < |s| && !('a' <= s[k] <= 'z') ==> r[k] == s[k]
  {
    seq(|s|, k requires 0 <= k < |s| => UpperChar(s[k]))
  }

  /** Python's `t in s` for strings: `t` occurs in `s` at some offset. */
  function Contains(s: string, t: string): bool
    decreases |s|
  {
    if |s| < |t| then false else s[..|t|] == t || Contains(s[1..], t)
  }

  /** `t` occurs in `s` starting at offset `i`. */
  predicate OccursAt(s: string, t: string, i: int) {
    0 <= i && i + |t| <= |s| && s[i..i + |t|] == t
  }

  lemma {:induction false} ContainsAt(s: string, t: string)
    ensures Contains(s, t) <==> exists i :: OccursAt(s, t, i)
    decreases |s|
  {
    if |s| >= |t| && s[..|t|] != t {
      ContainsAt(s[1..], t);
      if Contains(s[1..], t) {
        var i :| OccursAt(s[1..], t, i);
        assert OccursAt(s, t, i + 1);
      }
      if exists i :: OccursAt(s, t, i) {
        var i :| OccursAt(s, t, i);
        assert i > 0;
        assert OccursAt(s[1..], t, i - 1);
      }
    } else if |s| >= |t| {
      assert OccursAt(s, t, 0);
    } else {
      assert forall i :: !OccursAt(s, t, i);
    }
  }

  /** The `for valid in valid_responses` scan: the first label of `labels`
      that occurs in `s`, or None when none does. */
  function FirstContained(s: string, labels: seq<string>): (r: Option<string>)
    ensures r.Some? ==> exists k :: 0 <= k < |labels| && labels[k] == r.value && Contains(s, labels[k])
                          && forall m :: 0 <= m < k ==> !Contains(s, labels[m])
    ensures r.None? <==> forall m :: 0 <= m < |labels| ==> !Contains(s, labels[m])
  {
    if |labels| == 0 then None
    else if Contains(s, labels[0]) then Some(labels[0])
    else
      var r := FirstContained(s, labels[1..]);
      if r.Some? then
        var k :| 0 <= k < |labels[1..]| && labels[1..][k] == r.value && Contains(s, labels[1..][k])
                 && forall m :: 0 <= m < k ==> !Contains(s, labels[1..][m]);
        assert labels[k + 1] == r.value && forall m :: 0 <= m < k + 1 ==> !Contains(s, labels[m]) by {
          forall m | 0 <= m < k + 1
            ensures !Contains(s, labels[m])
          {
            if m > 0 {
              assert labels[m] == labels[1..][m - 1];
            }
          }
        }
        r
      else
        assert forall m :: 0 < m < |labels| ==> labels[m] == labels[1..][m - 1];
        r
  }

  /** The tidied reply: trimmed, then upper-cased. */
  function Tidy(text: string): string {
    Upper(Strip(text))
  }

  /** `analyze_text` from the model's reply onwards. NEUTRAL when the call
      failed; the tidied reply when it is a label; otherwise the first of
      POSITIVE, NEGATIVE, NEUTRAL it contains, NEUTRAL when it has none. */
  function Normalise(reply: Option<string>): (r: string)
    ensures r == Positive || r == Negative || r == Neutral
    ensures reply.None? ==> r == Neutral
    ensures reply.Some? && Tidy(reply.value) in Valid ==> r == Tidy(reply.value)
    ensures r == Positive <==> reply.Some? && Contains(Tidy(reply.value), Positive)
    ensures r == Negative <==> reply.Some? && !Contains(Tidy(reply.value), Positive)
                                && Contains(Tidy(reply.value), Negative)
  {
    match reply
    case None => Neutral
    case Some(text) => Classify(Tidy(text))
  }

  /** The decision on a tidied reply `s`: `s` itself when it is a label,
      otherwise the substring scan. */
  function Classify(s: string): (r: string)
    ensures r == Positive || r == Negative || r == Neutral
    ensures s in Valid ==> r == s
    ensures r == Positive <==> Contains(s, Positive)
    ensures r == Negative <==> !Contains(s, Positive) && Contains(s, Negative)
  {
    if s in Valid then
      LabelContains(s);
      s
    else
      Fallback(s)
  }

  /** A label contains POSITIVE exactly when it is POSITIVE, and NEGATIVE
      exactly when it is NEGATIVE. */
  lemma LabelContains(s: string)
    requires s in Valid
    ensures Contains(s, Positive) <==> s == Positive
    ensures Contains(s, Negative) <==> s == Negative
  {
    LabelsDistinct();
    assert Contains(s, s) by { ContainsAt(s, s); assert s[0..|s|] == s; }
  }

  /** The substring scan alone: the first label `s` contains, NEUTRAL when
      it contains none. */
  function Fallback(s: string): (r: string)
    ensures r == Positive <==> Contains(s, Positive)
    ensures r == Negative <==> !Contains(s, Positive) && Contains(s, Negative)
    ensures r == Neutral <==> !Contains(s, Positive) && !Contains(s, Negative)
  {
    match FirstContained(s, Valid)
    case Some(found) =>
      var k :| 0 <= k < |Valid| && Valid[k] == found && Contains(s, Valid[k])
               && forall m :: 0 <= m < k ==> !Contains(s, Valid[m]);
      assert Valid[0] == Positive && Valid[1] == Negative && Valid[2] == Neutral;
      found
    case None =>
      assert Valid[0] == Positive && Valid[1] == Negative;
      Neutral
  }

  /** No label occurs inside another. */
  lemma LabelsDistinct()
    ensures !Contains(Positive, Negative) && !Contains(Positive, Neutral)
    ensures !Contains(Negative, Positive) && !Contains(Negative, Neutral)
    ensures !Contains(Neutral, Positive) && !Contains(Neutral, Negative)
  {
    ContainsAt(Positive, Negative);
    ContainsAt(Positive, Neutral);
    ContainsAt(Negative, Positive);
    ContainsAt(Negative, Neutral);
    ContainsAt(Neutral, Positive);
    ContainsAt(Neutral, Negative);
    forall i | 0 <= i && i + 8 <= 8
      ensures !OccursAt(Positive, Negative, i)
    {
      assert Positive[i..i + 8][0] == Positive[i] != Negative[0];
    }
    forall i | 0 <= i && i + 7 <= 8
      ensures !OccursAt(Positive, Neutral, i)
    {
      assert Positive[i..i + 7][0] == Positive[i] != Neutral[0];
    }
    forall i | 0 <= i && i + 8 <= 8
      ensures !OccursAt(Negative, Positive, i)
    {
      assert Negative[i..i + 8][0] == Negative[i] != Positive[0];
    }
    forall i | 0 <= i && i + 7 <= 8
      ensures !OccursAt(Negative, Neutral, i)
    {
      if i == 0 {
        assert Negative[0..7][2] == Negative[2] != Neutral[2];
      } else {
        assert Negative[1..8][0] == Negative[1] != Neutral[0];
      }
    }
  }

  /** The exact-match test adds nothing: scanning for the first label the
      tidied reply contains gives the same answer on every reply. */
  lemma ExactMatchSubsumed(text: string)
    ensures Normalise(Some(text)) == Fallback(Tidy(text))
  {
    LabelsDistinct();
  }

  /** A label is its own tidied form. */
  lemma LabelTidy(l: string)
    requires l in Valid
    ensures Tidy(l) == l
  {
    assert Trimmed(l);
    assert Upper(l) == l;
  }

  /** Classifying a label the classifier returned gives the same label back. */
  lemma NormaliseIdempotent(reply: Option<string>)
    ensures Normalise(Some(Normalise(reply))) == Normalise(reply)
  {
    LabelTidy(Normalise(reply));
  }
}
