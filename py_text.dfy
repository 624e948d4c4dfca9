/**
 * The three Python string operations the context window is built from:
 * `str.strip()` with no argument, `str.split("\n")` and `"\n".join(...)`.
 */
module PyText {

  const Newline: char := '\n'

  /** Python's `str.isspace` for one character: the characters `str.strip()` removes. */
  predicate IsSpace(c: char) {
    var n := c as int;
    (0x09 <= n <= 0x0D) || (0x1C <= n <= 0x20) || n == 0x85 || n == 0xA0 || n == 0x1680
    || (0x2000 <= n <= 0x200A) || n == 0x2028 || n == 0x2029 || n == 0x202F || n == 0x205F
    || n == 0x3000
  }

  predicate AllSpace(s: string) {
    forall k :: 0 <= k < |s| ==> IsSpace(s[k])
  }

  /** The first index at or after `i` that does not hold whitespace (or `|s|`). */
  function SkipLeading(s: string, i: nat): (j: nat)
    requires i <= |s|
    ensures i <= j <= |s|
    ensures forall k :: i <= k < j ==> IsSpace(s[k])
    ensures j == |s| || !IsSpace(s[j])
    decreases |s| - i
  {
    if i < |s| && IsSpace(s[i]) then SkipLeading(s, i + 1) else i
  }

  /** The end of `s[lo..j]` once its trailing whitespace is dropped. */
  function SkipTrailing(s: string, lo: nat, j: nat): (e: nat)
    requires lo <= j <= |s|
    ensures lo <= e <= j
    ensures forall k :: e <= k < j ==> IsSpace(s[k])
    ensures e == lo || !IsSpace(s[e - 1])
    decreases j
  {
    if j > lo && IsSpace(s[j - 1]) then SkipTrailing(s, lo, j - 1) else j
  }

  /** Where the text that `s.strip()` keeps begins. */
  function StripStart(s: string): nat {
    SkipLeading(s, 0)
  }

  /** Where the text that `s.strip()` keeps ends. */
  function StripEnd(s: string): nat {
    SkipTrailing(s, StripStart(s), |s|)
  }

  /**
   * `s.strip()`: the slice of `s` between its leading and its trailing whitespace; it is empty
   * or starts and ends with a non-space, and only whitespace lies outside it.
   */
  function Strip(s: string): (r: string)
    ensures StripStart(s) <= StripEnd(s) <= |s| && r == s[StripStart(s)..StripEnd(s)]
    ensures forall k :: 0 <= k < StripStart(s) ==> IsSpace(s[k])
    ensures forall k :: StripEnd(s) <= k < |s| ==> IsSpace(s[k])
    ensures r == [] || (!IsSpace(r[0]) && !IsSpace(r[|r| - 1]))
  {
    s[StripStart(s)..StripEnd(s)]
  }

  /**
   * `strip()` is the only slice with whitespace alone around it that is empty or has a
   * non-space at both ends: whichever such slice `s[i..j]` one picks, it is `Strip(s)`.
   */
  lemma StripUnique(s: string, i: nat, j: nat)
    requires i <= j <= |s|
    requires forall k :: 0 <= k < i ==> IsSpace(s[k])
    requires forall k :: j <= k < |s| ==> IsSpace(s[k])
    requires i == j || (!IsSpace(s[i]) && !IsSpace(s[j - 1]))
    ensures Strip(s) == s[i..j]
  {
    var a, b := StripStart(s), StripEnd(s);
    if i < j {
      assert a == i;
      assert b == j;
    } else {
      assert a == |s|;
    }
  }

  /** `strip()` gives the empty string exactly for all-whitespace strings. */
  lemma StripEmpty(s: string)
    ensures Strip(s) == [] <==> AllSpace(s)
  {
    if AllSpace(s) {
      StripUnique(s, 0, 0);
    }
  }

  /** `strip()` leaves a string that starts and ends with a non-space as it is. */
  lemma StripTrimmed(s: string)
    requires s == [] || (!IsSpace(s[0]) && !IsSpace(s[|s| - 1]))
    ensures Strip(s) == s
  {
    StripUnique(s, 0, |s|);
  }

  /** Leading whitespace, a leading newline for one, makes no difference to `strip()`. */
  lemma StripLeadingSpace(c: char, s: string)
    requires IsSpace(c)
    ensures Strip([c] + s) == Strip(s)
  {
    var t := [c] + s;
    var i, j := StripStart(s), StripEnd(s);
    forall k | 0 <= k < i + 1 ensures IsSpace(t[k]) {
      if k > 0 { assert t[k] == s[k - 1]; }
    }
    forall k | j + 1 <= k < |t| ensures IsSpace(t[k]) {
      assert t[k] == s[k - 1];
    }
    if i < j {
      assert t[i + 1] == s[i] && t[j] == s[j - 1];
    }
    assert t[i + 1..j + 1] == s[i..j];
    StripUnique(t, i + 1, j + 1);
  }

  /** Stripping never adds separators: it only removes characters at the ends. */
  lemma StripCount(s: string)
    ensures multiset(Strip(s))[Newline] <= multiset(s)[Newline]
  {
    var i, j := StripStart(s), StripEnd(s);
    assert s == s[..i] + s[i..j] + s[j..];
    assert multiset(s) == multiset(s[..i]) + multiset(s[i..j]) + multiset(s[j..]);
  }

  /** The first separator at or after `i`, or `|s|` if there is none. */
  function FindNewline(s: string, i: nat): (j: nat)
    requires i <= |s|
    ensures i <= j <= |s|
    ensures forall k :: i <= k < j ==> s[k] != Newline
    ensures j == |s| || s[j] == Newline
    decreases |s| - i
  {
    if i == |s| || s[i] == Newline then i else FindNewline(s, i + 1)
  }

  predicate NoNewline(s: string) {
    forall k :: 0 <= k < |s| ==> s[k] != Newline
  }

  /** Every piece is free of the separator: what `split("\n")` produces. */
  predicate Lines(parts: seq<string>) {
    forall i :: 0 <= i < |parts| ==> NoNewline(parts[i])
  }

  /** `"\n".join(parts)`. */
  function Join(parts: seq<string>): string {
    if |parts| == 0 then ""
    else if |parts| == 1 then parts[0]
    else parts[0] + [Newline] + Join(parts[1..])
  }

  /**
   * `s.split("\n")`: the pieces between separators, never none (`"".split("\n") == [""]`),
   * none holding a separator, and joined back they give `s`.
   */
  function Split(s: string): (parts: seq<string>)
    ensures |parts| >= 1
    ensures Lines(parts)
    ensures Join(parts) == s
    decreases |s|
  {
    var i := FindNewline(s, 0);
    if i == |s| then [s]
    else
      var rest := Split(s[i + 1..]);
      var parts := [s[..i]] + rest;
      assert parts[1..] == rest;
      assert s == s[..i] + [Newline] + s[i + 1..];
      parts
  }

  /** A string without a separator splits into itself. */
  lemma SplitOfLine(s: string)
    requires NoNewline(s)
    ensures Split(s) == [s]
  {
  }

  /** The round trip the other way: splitting a join of separator-free pieces gives them back. */
  lemma {:induction false} SplitJoin(parts: seq<string>)
    requires |parts| >= 1 && Lines(parts)
    ensures Split(Join(parts)) == parts
    decreases |parts|
  {
    if |parts| == 1 {
      SplitOfLine(parts[0]);
    } else {
      var p, rest := parts[0], Join(parts[1..]);
      var s := Join(parts);
      assert s == p + [Newline] + rest;
      assert NoNewline(p);
      assert FindNewline(s, 0) == |p| by {
        assert forall k :: 0 <= k < |p| ==> s[k] == p[k];
        assert s[|p|] == Newline;
      }
      assert s[..|p|] == p && s[|p| + 1..] == rest;
      assert Lines(parts[1..]) by {
        forall i | 0 <= i < |parts| - 1 ensures NoNewline(parts[1..][i]) {
          assert parts[1..][i] == parts[i + 1];
        }
      }
      SplitJoin(parts[1..]);
      assert Split(s) == [p] + parts[1..];
    }
  }

  /** Joining two non-empty lists of pieces puts one separator between their joins. */
  lemma {:induction false} JoinAppend(a: seq<string>, b: seq<string>)
    requires |a| >= 1 && |b| >= 1
    ensures Join(a + b) == Join(a) + [Newline] + Join(b)
  {
    if |a| == 1 {
      assert (a + b)[1..] == b;
    } else {
      assert (a + b)[1..] == a[1..] + b;
      JoinAppend(a[1..], b);
    }
  }

  /** Splitting `a + "\n" + b` splits `a` and `b` separately. */
  lemma SplitAppend(a: string, b: string)
    ensures Split(a + [Newline] + b) == Split(a) + Split(b)
  {
    var pa, pb := Split(a), Split(b);
    LinesAppend(pa, pb);
    JoinAppend(pa, pb);
    SplitJoin(pa + pb);
  }

  lemma LinesAppend(a: seq<string>, b: seq<string>)
    requires Lines(a) && Lines(b)
    ensures Lines(a + b)
  {
    forall i | 0 <= i < |a + b| ensures NoNewline((a + b)[i]) {
      if i < |a| {
        assert (a + b)[i] == a[i];
      } else {
        assert (a + b)[i] == b[i - |a|];
      }
    }
  }

  /** The number of pieces `split("\n")` produces is one more than the number of separators. */
  lemma {:induction false} SplitCount(s: string)
    ensures |Split(s)| == multiset(s)[Newline] + 1
    decreases |s|
  {
    var i := FindNewline(s, 0);
    var head := s[..i];
    assert NoNewline(head) by {
      forall k | 0 <= k < i ensures head[k] != Newline {
        assert head[k] == s[k];
      }
    }
    NoNewlineCount(head);
    if i < |s| {
      var tail := s[i + 1..];
      assert s == head + [Newline] + tail;
      assert multiset(s) == multiset(head) + multiset([Newline]) + multiset(tail);
      assert Split(s) == [head] + Split(tail);
      SplitCount(tail);
    } else {
      assert head == s;
    }
  }

  /** A separator-free string holds no separator, counted as a multiset. */
  lemma NoNewlineCount(s: string)
    requires NoNewline(s)
    ensures multiset(s)[Newline] == 0
  {
  }
}
