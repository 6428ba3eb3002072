/** Python string operations the pipeline relies on: concatenation of a
    stream of fragments, `sep.join(parts)`, `s.split(c)`, `str.isspace`,
    `s.strip() == ""`, `s.endswith(t)` and `s.replace(old, "")`. */
module Text {

  /** `"".join(parts)`, which is also what `acc += part` over a stream
      builds up. */
  function Concat(parts: seq<string>): string
  {
    if parts == [] then "" else parts[0] + Concat(parts[1..])
  }

  lemma {:induction false} ConcatAppend(a: seq<string>, b: seq<string>)
    ensures Concat(a + b) == Concat(a) + Concat(b)
  {
    if a == [] {
      assert a + b == b;
    } else {
      assert (a + b)[1..] == a[1..] + b;
      ConcatAppend(a[1..], b);
    }
  }

  /** Appending one fragment to the accumulated answer is concatenating the
      stream one element longer. */
  lemma ConcatSnoc(a: seq<string>, x: string)
    ensures Concat(a + [x]) == Concat(a) + x
  {
    ConcatAppend(a, [x]);
    assert Concat([x]) == x + Concat([]);
  }

  /** `sep.join(parts)`. */
  function Join(sep: string, parts: seq<string>): string
  {
    if parts == [] then ""
    else if |parts| == 1 then parts[0]
    else parts[0] + sep + Join(sep, parts[1..])
  }

  /** `s.split(c)` for a one-character separator: never empty, one piece
      more than there are separators. */
  function Split(s: string, c: char): (pieces: seq<string>)
    ensures |pieces| >= 1
  {
    if s == [] then [""]
    else
      var rest := Split(s[1..], c);
      if s[0] == c then [""] + rest else [[s[0]] + rest[0]] + rest[1..]
  }

  /** Splitting and joining again on the same separator gives back the
      string. */
  lemma {:induction false} JoinSplit(s: string, c: char)
    ensures Join([c], Split(s, c)) == s
  {
    if s != [] {
      JoinSplit(s[1..], c);
      var rest := Split(s[1..], c);
      if s[0] == c {
        assert Split(s, c) == [""] + rest;
        assert ([""] + rest)[1..] == rest;
      } else {
        var pieces := [[s[0]] + rest[0]] + rest[1..];
        assert Split(s, c) == pieces;
        if |rest| == 1 {
          assert Join([c], rest) == rest[0];
        } else {
          assert Join([c], rest) == rest[0] + [c] + Join([c], rest[1..]);
          assert pieces[1..] == rest[1..];
        }
      }
    }
  }

  /** Joining separator-free pieces and splitting again gives back the
      pieces. */
  lemma {:induction false} SplitJoin(parts: seq<string>, c: char)
    requires parts != []
    requires forall i :: 0 <= i < |parts| ==> c !in parts[i]
    ensures Split(Join([c], parts), c) == parts
  {
    if |parts| == 1 {
      SplitFree(parts[0], c);
    } else {
      var tail := parts[1..];
      assert forall i :: 0 <= i < |tail| ==> c !in tail[i] by {
        forall i | 0 <= i < |tail| ensures c !in tail[i] { assert tail[i] == parts[i + 1]; }
      }
      SplitJoin(tail, c);
      var joined := Join([c], tail);
      SplitPrefix(parts[0], joined, c);
      assert Join([c], parts) == parts[0] + ([c] + joined);
      assert [parts[0]] + tail == parts;
    }
  }

  /** A string without the separator splits into itself. */
  lemma {:induction false} SplitFree(s: string, c: char)
    requires c !in s
    ensures Split(s, c) == [s]
  {
    if s != [] {
      SplitFree(s[1..], c);
      assert s[0] != c;
      assert Split(s, c) == [[s[0]] + s[1..]];
      assert [s[0]] + s[1..] == s;
    }
  }

  /** Splitting `p + c + t`, where `p` has no separator, puts `p` first. */
  lemma {:induction false} SplitPrefix(p: string, t: string, c: char)
    requires c !in p
    ensures Split(p + ([c] + t), c) == [p] + Split(t, c)
  {
    if p == [] {
      assert p + ([c] + t) == [c] + t;
      assert ([c] + t)[1..] == t;
    } else {
      var u := p + ([c] + t);
      SplitPrefix(p[1..], t, c);
      assert u[1..] == p[1..] + ([c] + t);
      assert u[0] == p[0] && p[0] != c;
      var rest := Split(u[1..], c);
      assert rest == [p[1..]] + Split(t, c);
      assert Split(u, c) == [[p[0]] + rest[0]] + rest[1..];
      assert [p[0]] + p[1..] == p;
    }
  }

  /** A join of pieces none of which holds a character, with a separator that
      is not that character, does not hold it either. */
  lemma {:induction false} JoinFree(sep: string, parts: seq<string>, x: char)
    requires x !in sep
    requires forall i :: 0 <= i < |parts| ==> x !in parts[i]
    ensures x !in Join(sep, parts)
  {
    if |parts| > 1 {
      JoinFree(sep, parts[1..], x);
    }
  }

  /** `str.isspace()` for one character: the characters Python treats as
      whitespace, which are also those the regular expression class `\s`
      matches in a `str` pattern. */
  predicate IsSpace(c: char)
  {
    var n := c as int;
    n == 0x20 || 0x09 <= n <= 0x0D || 0x1C <= n <= 0x1F || n == 0x85 || n == 0xA0
    || n == 0x1680 || 0x2000 <= n <= 0x200A || n == 0x2028 || n == 0x2029
    || n == 0x202F || n == 0x205F || n == 0x3000
  }

  /** `not s or not s.strip()`: the string is empty or holds only
      whitespace. */
  predicate IsBlank(s: string)
  {
    forall i :: 0 <= i < |s| ==> IsSpace(s[i])
  }

  /** Python's `s.strip()`: drop leading and trailing whitespace. The
      result is the text between a blank prefix and a blank suffix. */
  function Strip(s: string): (r: string)
    ensures |r| <= |s|
    ensures r == [] || (!IsSpace(r[0]) && !IsSpace(r[|r| - 1]))
    ensures exists i :: 0 <= i <= |s| - |r| && s[i..i + |r|] == r && IsBlank(s[..i]) && IsBlank(s[i + |r|..])
  {
    var t := StripStart(s);
    var r := StripEnd(t);
    StripParts(s, t, r);
    r
  }

  /** Blank text cut from the front and then from the back of what is
      left lies around the remainder. */
  lemma StripParts(s: string, t: string, r: string)
    requires |t| <= |s| && s[|s| - |t|..] == t && IsBlank(s[..|s| - |t|])
    requires |r| <= |t| && t[..|r|] == r && IsBlank(t[|r|..])
    ensures exists i :: 0 <= i <= |s| - |r| && s[i..i + |r|] == r && IsBlank(s[..i]) && IsBlank(s[i + |r|..])
  {
    var i := |s| - |t|;
    assert s[i..i + |r|] == r;
    assert s[i + |r|..] == t[|r|..];
  }

  function StripStart(s: string): (r: string)
    ensures |r| <= |s| && s[|s| - |r|..] == r
    ensures IsBlank(s[..|s| - |r|])
    ensures r == [] || !IsSpace(r[0])
  {
    if s != [] && IsSpace(s[0]) then
      var r := StripStart(s[1..]);
      assert s[..|s| - |r|] == [s[0]] + s[1..][..|s| - 1 - |r|];
      BlankConcat([s[0]], s[1..][..|s| - 1 - |r|]);
      r
    else s
  }

  function StripEnd(s: string): (r: string)
    ensures |r| <= |s| && s[..|r|] == r
    ensures IsBlank(s[|r|..])
    ensures r == [] || !IsSpace(r[|r| - 1])
  {
    if s != [] && IsSpace(s[|s| - 1]) then
      var t := s[..|s| - 1];
      var r := StripEnd(t);
      assert s[|r|..] == t[|r|..] + [s[|s| - 1]];
      BlankConcat(t[|r|..], [s[|s| - 1]]);
      r
    else s
  }

  lemma BlankConcat(a: string, b: string)
    ensures IsBlank(a + b) <==> IsBlank(a) && IsBlank(b)
  {
    if IsBlank(a) && IsBlank(b) {
      forall i | 0 <= i < |a + b| ensures IsSpace((a + b)[i]) {
        if i >= |a| {
          assert (a + b)[i] == b[i - |a|];
        }
      }
    }
    if IsBlank(a + b) {
      forall i | 0 <= i < |a| ensures IsSpace(a[i]) {
        assert a[i] == (a + b)[i];
      }
      forall i | 0 <= i < |b| ensures IsSpace(b[i]) {
        assert b[i] == (a + b)[|a| + i];
      }
    }
  }

  /** The reference reading of `strip`: whatever blank text surrounds a
      part that neither starts nor ends with whitespace, stripping gives
      back exactly that part. */
  lemma StripExact(a: string, m: string, b: string)
    requires IsBlank(a) && IsBlank(b)
    requires m == [] || (!IsSpace(m[0]) && !IsSpace(m[|m| - 1]))
    ensures Strip(a + m + b) == m
  {
    if m == [] {
      assert a + m + b == a + b;
      BlankIffStripEmpty(a + b);
    } else {
      assert a + m + b == a + (m + b);
      StripStartDrops(a, m + b);
      StripEndDrops(m, b);
    }
  }

  lemma {:induction false} StripStartDrops(a: string, t: string)
    requires IsBlank(a) && t != [] && !IsSpace(t[0])
    ensures StripStart(a + t) == t
    decreases |a|
  {
    if a != [] {
      assert (a + t)[0] == a[0] && IsSpace(a[0]);
      assert (a + t)[1..] == a[1..] + t;
      assert StripStart(a + t) == StripStart(a[1..] + t);
      assert IsBlank(a[1..]) by {
        forall i | 0 <= i < |a| - 1 ensures IsSpace(a[1..][i]) {
          assert a[1..][i] == a[i + 1];
        }
      }
      StripStartDrops(a[1..], t);
    } else {
      assert a + t == t;
    }
  }

  lemma {:induction false} StripEndDrops(t: string, b: string)
    requires IsBlank(b) && t != [] && !IsSpace(t[|t| - 1])
    ensures StripEnd(t + b) == t
    decreases |b|
  {
    if b != [] {
      assert (t + b)[..|t + b| - 1] == t + b[..|b| - 1];
      StripEndDrops(t, b[..|b| - 1]);
    } else {
      assert t + b == t;
    }
  }

  /** `not s.strip()` is exactly "every character is whitespace". */
  lemma BlankIffStripEmpty(s: string)
    ensures IsBlank(s) <==> Strip(s) == ""
  {
    StripStartBlank(s);
    var t := StripStart(s);
    if t != [] {
      assert !IsSpace(t[0]);
      StripEndKeepsFirst(t);
    }
  }

  lemma {:induction false} StripStartBlank(s: string)
    ensures StripStart(s) == [] <==> IsBlank(s)
  {
    if s != [] && IsSpace(s[0]) {
      StripStartBlank(s[1..]);
      assert forall i :: 1 <= i < |s| ==> s[i] == s[1..][i - 1];
    }
  }

  lemma {:induction false} StripEndKeepsFirst(t: string)
    requires t != [] && !IsSpace(t[0])
    ensures StripEnd(t) != []
  {
    if |t| > 1 && IsSpace(t[|t| - 1]) {
      StripEndKeepsFirst(t[..|t| - 1]);
    }
  }

  predicate StartsWith(s: string, prefix: string)
  {
    |prefix| <= |s| && s[..|prefix|] == prefix
  }

  predicate EndsWith(s: string, suffix: string)
  {
    |suffix| <= |s| && s[|s| - |suffix|..] == suffix
  }

  /** Whether `pat` occurs anywhere in `s`. */
  predicate Occurs(s: string, pat: string)
  {
    exists i :: 0 <= i <= |s| - |pat| && OccursAt(s, pat, i)
  }

  predicate OccursAt(s: string, pat: string, i: int)
  {
    0 <= i <= |s| - |pat| && s[i..i + |pat|] == pat
  }

  /** `s.replace(pat, "")`: delete the non-overlapping occurrences of `pat`
      found scanning from the left. */
  function RemoveAll(s: string, pat: string): (r: string)
    requires pat != []
    ensures |r| <= |s|
    ensures |r| == |s| ==> r == s
    decreases |s|
  {
    if |s| < |pat| then s
    else if StartsWith(s, pat) then RemoveAll(s[|pat|..], pat)
    else [s[0]] + RemoveAll(s[1..], pat)
  }

  /** A text in which the pattern does not occur is left as it is. */
  lemma {:induction false} RemoveAllAbsent(s: string, pat: string)
    requires pat != [] && !Occurs(s, pat)
    ensures RemoveAll(s, pat) == s
    decreases |s|
  {
    if |s| >= |pat| {
      assert !OccursAt(s, pat, 0);
      assert s[0..|pat|] == s[..|pat|];
      assert !StartsWith(s, pat);
      forall j | 0 <= j <= |s| - 1 - |pat|
        ensures !OccursAt(s[1..], pat, j)
      {
        assert s[1..][j..j + |pat|] == s[j + 1..j + 1 + |pat|];
        assert !OccursAt(s, pat, j + 1);
      }
      RemoveAllAbsent(s[1..], pat);
    }
  }

  /** The number of copies of `c` the text starts with. */
  function Run(s: string, c: char): (n: nat)
    ensures n <= |s|
    ensures forall i :: 0 <= i < n ==> s[i] == c
    ensures n < |s| ==> s[n] != c
  {
    if s != [] && s[0] == c then 1 + Run(s[1..], c) else 0
  }

  /** Deleting "---" leaves the leading run of dashes shortened by whole
      triples. */
  lemma {:induction false} RemoveDashesLeading(s: string)
    ensures Run(RemoveAll(s, "---"), '-') == Run(s, '-') % 3
    decreases |s|
  {
    var pat := "---";
    if |s| < 3 {
      assert RemoveAll(s, pat) == s;
      SmallMod(Run(s, '-'));
    } else if StartsWith(s, pat) {
      assert RemoveAll(s, pat) == RemoveAll(s[3..], pat);
      DashTriple(s);
      RemoveDashesLeading(s[3..]);
    } else {
      var t := RemoveAll(s[1..], pat);
      assert RemoveAll(s, pat) == [s[0]] + t;
      if s[0] == '-' {
        RemoveDashesLeading(s[1..]);
        DashRunBelowThree(s);
        SmallMod(Run(s[1..], '-'));
        RunStep(s, '-');
        SmallMod(Run(s, '-'));
        assert ([s[0]] + t)[0] == '-' && ([s[0]] + t)[1..] == t;
        RunStep([s[0]] + t, '-');
      } else {
        assert ([s[0]] + t)[0] != '-';
      }
    }
  }

  lemma SmallMod(n: nat)
    requires n < 3
    ensures n % 3 == n
  {
  }

  lemma DashTriple(s: string)
    requires StartsWith(s, "---")
    ensures Run(s, '-') == 3 + Run(s[3..], '-')
    ensures Run(s, '-') % 3 == Run(s[3..], '-') % 3
  {
    assert s[..3][0] == s[0] && s[..3][1] == s[1] && s[..3][2] == s[2];
    var s1, s2 := s[1..], s[2..];
    assert s1[1..] == s2 && s2[1..] == s[3..];
    RunStep(s, '-');
    RunStep(s1, '-');
    RunStep(s2, '-');
    ModThree(Run(s[3..], '-'));
  }

  lemma ModThree(n: nat)
    ensures (3 + n) % 3 == n % 3
  {
  }

  lemma RunStep(s: string, c: char)
    requires s != [] && s[0] == c
    ensures Run(s, c) == 1 + Run(s[1..], c)
  {
  }

  lemma DashRunBelowThree(s: string)
    requires |s| >= 3 && s[0] == '-' && !StartsWith(s, "---")
    ensures Run(s[1..], '-') <= 1
  {
  }

  /** After `replace("---", "")` no "---" is left: a run of dashes keeps
      only its length modulo three. */
  lemma {:induction false} RemoveDashesComplete(s: string)
    ensures !Occurs(RemoveAll(s, "---"), "---")
    decreases |s|
  {
    var pat := "---";
    if |s| < 3 {
    } else if StartsWith(s, pat) {
      RemoveDashesComplete(s[3..]);
    } else {
      var t := RemoveAll(s[1..], pat);
      RemoveDashesComplete(s[1..]);
      var r := [s[0]] + t;
      assert RemoveAll(s, pat) == r;
      RemoveDashesLeading(s[1..]);
      if s[0] == '-' {
        DashRunBelowThree(s);
        SmallMod(Run(s[1..], '-'));
      }
      forall i | 0 <= i <= |r| - 3 ensures !OccursAt(r, pat, i) {
        if i == 0 {
          assert r[0..3] == [s[0], t[0], t[1]];
          if s[0] == '-' {
            var n := Run(t, '-');
            assert n <= 1 && n < |t|;
            assert t[n] != '-';
            assert t[0] != '-' || t[1] != '-';
          }
        } else {
          assert t[i - 1..i + 2] == r[i..i + 3];
          assert !OccursAt(t, pat, i - 1);
        }
      }
    }
  }

  /** Deleting text never brings in a character that was not there. */
  lemma {:induction false} RemoveAllChars(s: string, pat: string, x: char)
    requires pat != []
    requires x !in s
    ensures x !in RemoveAll(s, pat)
    decreases |s|
  {
    if |s| >= |pat| {
      if StartsWith(s, pat) {
        RemoveAllChars(s[|pat|..], pat, x);
      } else {
        RemoveAllChars(s[1..], pat, x);
      }
    }
  }
}
