/**
 * The handful of Go `strings` operations the core relies on, written out.
 *
 * A `char` of a Dafny string stands for one BYTE of the UTF-8 text the Go
 * program handles, so `|s|` is Go's `len(s)` and slicing is byte slicing.
 */
module Text {

  /** RE2's `\s` class: tab, newline, form feed, carriage return, space. */
  predicate IsRegexSpace(c: char) {
    c == ' ' || c == '\t' || c == '\n' || c == '\U{0C}' || c == '\r'
  }

  /** The bytes `strings.TrimSpace` removes, restricted to ASCII (adds vertical tab). */
  predicate IsTrimSpace(c: char) {
    IsRegexSpace(c) || c == '\U{0B}'
  }

  /** Every character is RE2 whitespace. */
  predicate AllRegexSpace(p: string) {
    forall c | c in p :: IsRegexSpace(c)
  }

  predicate IsDigit(c: char) {
    '0' <= c <= '9'
  }

  predicate HasPrefix(s: string, prefix: string) {
    |prefix| <= |s| && s[..|prefix|] == prefix
  }

  /** `suffix` is a proper, non-empty tail of `s`. */
  predicate ProperTail(s: string, suffix: string) {
    suffix != "" && |suffix| < |s| && s[|s| - |suffix|..] == suffix
  }

  lemma ConcatAssoc(a: string, b: string, c: string)
    ensures a + b + c == a + (b + c)
  {
  }

  /** A tail of a tail of `s` is a tail of `s`. */
  lemma TailOfTail(s: string, b: string, r: string)
    requires |b| <= |s| && b == s[|s| - |b|..] && |r| <= |b| && r == b[|b| - |r|..]
    ensures r == s[|s| - |r|..]
  {
    assert s[|s| - |b|..][|b| - |r|..] == s[|s| - |r|..];
  }

  /** A proper tail of a tail of `s` is a proper tail of `s`. */
  lemma ProperTailOfTail(s: string, b: string, r: string)
    requires |b| <= |s| && b == s[|s| - |b|..] && ProperTail(b, r)
    ensures ProperTail(s, r)
  {
    assert s[|s| - |b|..][|b| - |r|..] == s[|s| - |r|..];
  }

  /** A tail of `s[i..]` is a tail of `s`. */
  lemma TailOfDrop(s: string, i: nat, t: string)
    requires i <= |s| && |t| <= |s| - i && t == s[i..][|s| - i - |t|..]
    ensures t == s[|s| - |t|..]
  {
    assert s[i..][|s| - i - |t|..] == s[|s| - |t|..];
  }

  /** Drops leading whitespace. */
  function TrimLeft(s: string): (r: string)
    ensures |r| <= |s| && r == s[|s| - |r|..]
    ensures forall k :: 0 <= k < |s| - |r| ==> IsTrimSpace(s[k])
    ensures r != [] ==> !IsTrimSpace(r[0])
    decreases |s|
  {
    if s != [] && IsTrimSpace(s[0]) then TrimLeft(s[1..]) else s
  }

  /** Drops trailing whitespace. */
  function TrimRight(s: string): (r: string)
    ensures |r| <= |s| && r == s[..|r|]
    ensures forall k :: |r| <= k < |s| ==> IsTrimSpace(s[k])
    ensures r != [] ==> !IsTrimSpace(r[|r| - 1])
    decreases |s|
  {
    if s != [] && IsTrimSpace(s[|s| - 1]) then TrimRight(s[..|s| - 1]) else s
  }

  /**
   * `strings.TrimSpace`: the longest infix of `s` that neither starts nor
   * ends with whitespace; everything cut off on either side is whitespace.
   */
  function TrimSpace(s: string): (r: string)
    ensures r != [] ==> !IsTrimSpace(r[0]) && !IsTrimSpace(r[|r| - 1])
    ensures var i := |s| - |TrimLeft(s)|;
      i + |r| <= |s| && r == s[i..i + |r|]
      && (forall k :: 0 <= k < i ==> IsTrimSpace(s[k]))
      && (forall k :: i + |r| <= k < |s| ==> IsTrimSpace(s[k]))
  {
    TrimRight(TrimLeft(s))
  }

  /** A string trims to nothing exactly when it is all whitespace. */
  lemma TrimSpaceEmpty(s: string)
    ensures TrimSpace(s) == "" <==> forall k :: 0 <= k < |s| ==> IsTrimSpace(s[k])
  {
  }

  /** Leading whitespace in front of a string is all stripped by TrimLeft. */
  lemma {:induction false} TrimLeftDropsLeading(p: string, t: string)
    requires forall c | c in p :: IsTrimSpace(c)
    ensures TrimLeft(p + t) == TrimLeft(t)
    decreases |p|
  {
    if p != [] {
      var q := p + t;
      assert q[0] == p[0] && p[0] in p;
      assert q[1..] == p[1..] + t;
      assert forall c | c in p[1..] :: c in p;
      assert TrimLeft(q) == TrimLeft(q[1..]);
      TrimLeftDropsLeading(p[1..], t);
    } else {
      assert p + t == t;
    }
  }

  /** Whitespace in front of a string makes no difference once it is trimmed. */
  lemma TrimSpaceDropsLeading(p: string, t: string)
    requires forall k :: 0 <= k < |p| ==> IsTrimSpace(p[k])
    ensures TrimSpace(p + t) == TrimSpace(t)
  {
    assert forall c | c in p :: IsTrimSpace(c);
    TrimLeftDropsLeading(p, t);
  }

  /** `strings.Split(s, "\n")`: the pieces between newlines, always at least one. */
  function Split(s: string): (r: seq<string>)
    ensures |r| >= 1
    ensures forall i :: 0 <= i < |r| ==> '\n' !in r[i]
    decreases |s|
  {
    if s == [] then [""]
    else
      var t := Split(s[1..]);
      if s[0] == '\n' then [""] + t else [[s[0]] + t[0]] + t[1..]
  }

  /** `strings.Join(parts, "\n")`. */
  function Join(parts: seq<string>): string
    decreases |parts|
  {
    if |parts| == 0 then ""
    else if |parts| == 1 then parts[0]
    else parts[0] + "\n" + Join(parts[1..])
  }

  /** Joining the pieces of a split gives the original text back. */
  lemma {:induction false} JoinSplit(s: string)
    ensures Join(Split(s)) == s
    decreases |s|
  {
    if s != [] {
      var t := Split(s[1..]);
      JoinSplit(s[1..]);
      if s[0] == '\n' {
        assert Split(s) == [""] + t;
        assert Join([""] + t) == "" + "\n" + Join(t);
        assert s == [s[0]] + s[1..];
      } else {
        var r := [[s[0]] + t[0]] + t[1..];
        assert Split(s) == r;
        if |t| == 1 {
          assert Join(r) == [s[0]] + t[0];
        } else {
          assert r[1..] == t[1..];
          assert Join(t) == t[0] + "\n" + Join(t[1..]);
          assert Join(r) == [s[0]] + t[0] + "\n" + Join(t[1..]);
        }
        assert s == [s[0]] + s[1..];
      }
    }
  }

  lemma {:induction false} SplitNoNewline(a: string)
    requires '\n' !in a
    ensures Split(a) == [a]
    decreases |a|
  {
    if a != [] {
      assert '\n' !in a[1..] by {
        forall k | 0 <= k < |a[1..]| ensures a[1..][k] != '\n' {
          assert a[1..][k] == a[k + 1];
        }
      }
      SplitNoNewline(a[1..]);
      assert a == [a[0]] + a[1..];
    }
  }

  lemma {:induction false} SplitAfterLine(a: string, b: string)
    requires '\n' !in a
    ensures Split(a + "\n" + b) == [a] + Split(b)
    decreases |a|
  {
    if a == [] {
      assert a + "\n" + b == ['\n'] + b;
      assert (['\n'] + b)[1..] == b;
    } else {
      assert '\n' !in a[1..] by {
        forall k | 0 <= k < |a[1..]| ensures a[1..][k] != '\n' {
          assert a[1..][k] == a[k + 1];
        }
      }
      SplitAfterLine(a[1..], b);
      var s := a + "\n" + b;
      assert s[1..] == a[1..] + "\n" + b;
      assert s[0] == a[0];
      assert a == [a[0]] + a[1..];
    }
  }

  /** Splitting newline-free pieces joined by newlines gives the pieces back. */
  lemma {:induction false} SplitJoin(parts: seq<string>)
    requires |parts| >= 1
    requires forall i :: 0 <= i < |parts| ==> '\n' !in parts[i]
    ensures Split(Join(parts)) == parts
    decreases |parts|
  {
    if |parts| == 1 {
      SplitNoNewline(parts[0]);
    } else {
      SplitJoin(parts[1..]);
      SplitAfterLine(parts[0], Join(parts[1..]));
      assert parts == [parts[0]] + parts[1..];
    }
  }

  /** Joining splits at any piece boundary. */
  lemma {:induction false} JoinAt(parts: seq<string>, k: nat)
    requires 0 < k < |parts|
    ensures Join(parts) == Join(parts[..k]) + "\n" + Join(parts[k..])
    decreases k
  {
    if k > 1 {
      JoinAt(parts[1..], k - 1);
      assert parts[1..][..k - 1] == parts[..k][1..];
      assert parts[1..][k - 1..] == parts[k..];
    }
  }

  /** The pieces from `k` on, joined, are a suffix of the joined whole. */
  lemma JoinSuffix(parts: seq<string>, k: nat)
    requires k <= |parts|
    ensures |Join(parts[k..])| <= |Join(parts)|
    ensures Join(parts[k..]) == Join(parts)[|Join(parts)| - |Join(parts[k..])|..]
  {
    if k == 0 {
      assert parts[k..] == parts;
    } else if k < |parts| {
      JoinAt(parts, k);
    }
  }

  /** `pattern` starts at byte `i` of `text`. */
  predicate OccursAt(text: string, pattern: string, i: int) {
    0 <= i && i + |pattern| <= |text| && text[i..i + |pattern|] == pattern
  }

  /** `strings.Contains`, by a left-to-right scan. */
  predicate Contains(text: string, pattern: string)
    ensures Contains(text, pattern) <==> exists i :: OccursAt(text, pattern, i)
    decreases |text|
  {
    OccursStep(text, pattern);
    |pattern| <= |text| && (text[..|pattern|] == pattern || Contains(text[1..], pattern))
  }

  /** An occurrence after the first byte is an occurrence in the rest, shifted by one. */
  lemma OccursStep(text: string, pattern: string)
    ensures |pattern| <= |text| && text[..|pattern|] == pattern ==> OccursAt(text, pattern, 0)
    ensures text != [] ==>
      ((exists i :: OccursAt(text, pattern, i)) <==>
       (|pattern| <= |text| && text[..|pattern|] == pattern) || exists i :: OccursAt(text[1..], pattern, i))
  {
    if text != [] {
      if exists i :: OccursAt(text, pattern, i) {
        var i :| OccursAt(text, pattern, i);
        if i > 0 {
          assert text[1..][i - 1..i - 1 + |pattern|] == text[i..i + |pattern|];
          assert OccursAt(text[1..], pattern, i - 1);
        }
      }
      if exists i :: OccursAt(text[1..], pattern, i) {
        var i :| OccursAt(text[1..], pattern, i);
        assert text[1..][i..i + |pattern|] == text[i + 1..i + 1 + |pattern|];
        assert OccursAt(text, pattern, i + 1);
      }
      if |pattern| <= |text| && text[..|pattern|] == pattern {
        assert OccursAt(text, pattern, 0);
      }
    }
  }

  /** An occurrence in a part is an occurrence in the whole. */
  lemma ContainsInConcat(a: string, b: string, pattern: string)
    ensures Contains(a, pattern) ==> Contains(a + b, pattern)
    ensures Contains(b, pattern) ==> Contains(a + b, pattern)
  {
    if Contains(a, pattern) {
      var i :| OccursAt(a, pattern, i);
      assert (a + b)[i..i + |pattern|] == a[i..i + |pattern|];
      assert OccursAt(a + b, pattern, i);
    }
    if Contains(b, pattern) {
      var i :| OccursAt(b, pattern, i);
      assert (a + b)[|a| + i..|a| + i + |pattern|] == b[i..i + |pattern|];
      assert OccursAt(a + b, pattern, |a| + i);
    }
  }

  /** An occurrence that starts past `a` lies inside `b`. */
  lemma OccursInSuffix(a: string, b: string, pattern: string, i: int)
    requires OccursAt(a + b, pattern, i) && i >= |a|
    ensures OccursAt(b, pattern, i - |a|)
  {
    assert b[i - |a|..i - |a| + |pattern|] == (a + b)[i..i + |pattern|];
  }

  /** `strings.ReplaceAll(s, pattern, "")`: non-overlapping occurrences, left to right, removed. */
  function RemoveAll(s: string, pattern: string): (r: string)
    requires |pattern| > 0
    ensures |r| <= |s|
    ensures !Contains(s, pattern) ==> r == s
    decreases |s|
  {
    if s == [] then ""
    else if HasPrefix(s, pattern) then RemoveAll(s[|pattern|..], pattern)
    else
      assert Contains(s[1..], pattern) ==> Contains(s, pattern) by {
        if Contains(s[1..], pattern) {
          var i :| OccursAt(s[1..], pattern, i);
          assert s[i + 1..i + 1 + |pattern|] == s[1..][i..i + |pattern|];
          assert OccursAt(s, pattern, i + 1);
        }
      }
      [s[0]] + RemoveAll(s[1..], pattern)
  }
}
