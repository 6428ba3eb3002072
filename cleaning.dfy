/** The text cleaning of the indexing processor
    (src/utils/file_proceessor_for_indexing.py, and its copy in
    src/utils/vector_store.py): Markdown is cut before every heading line,
    blank sections are dropped, and each remaining section goes through
    five steps in order: non-printable characters are removed, whitespace
    runs become one line break, Markdown image links are removed, line
    break runs become one, and every "---" is deleted. The regular
    expressions are written out as the scans Python's `re` performs.
    Whether a non-ASCII character is printable comes from Unicode's tables,
    given as the parameter `printable`; ASCII is decided exactly. */
module TextCleaning {
  import opened Wrappers
  import opened Text

  /** `c.isprintable()`. */
  predicate IsPrintable(c: char, printable: char -> bool)
  {
    var n := c as int;
    if n < 0x20 || n == 0x7F then false
    else if n < 0x7F then true
    else printable(c)
  }

  /** `''.join(c for c in text if c.isprintable())`. */
  function KeepPrintable(s: string, printable: char -> bool): (r: string)
    ensures |r| <= |s|
    ensures forall i :: 0 <= i < |r| ==> IsPrintable(r[i], printable)
  {
    if s == [] then []
    else (if IsPrintable(s[0], printable) then [s[0]] else []) + KeepPrintable(s[1..], printable)
  }

  /** The first step keeps exactly the printable characters, so line
      breaks and tabs are among those it removes. */
  lemma {:induction false} KeepPrintableExact(s: string, printable: char -> bool)
    ensures forall c :: c in KeepPrintable(s, printable) <==> c in s && IsPrintable(c, printable)
    ensures '\n' !in KeepPrintable(s, printable) && '\t' !in KeepPrintable(s, printable)
  {
    if s != [] {
      KeepPrintableExact(s[1..], printable);
      assert forall c :: c in s <==> c == s[0] || c in s[1..];
    }
  }

  /** Length of the whitespace run that starts `s`. */
  function SpaceRun(s: string): (n: nat)
    ensures n <= |s|
    ensures forall i :: 0 <= i < n ==> IsSpace(s[i])
    ensures n < |s| ==> !IsSpace(s[n])
  {
    if s != [] && IsSpace(s[0]) then 1 + SpaceRun(s[1..]) else 0
  }

  /** `re.sub(r"\s{2,}", "\n", s)`: every run of two or more whitespace
      characters, taken whole, becomes one line break. */
  function CollapseSpaces(s: string): (r: string)
    ensures |r| <= |s|
    decreases |s|
  {
    if s == [] then []
    else if |s| >= 2 && IsSpace(s[0]) && IsSpace(s[1]) then "\n" + CollapseSpaces(s[SpaceRun(s)..])
    else [s[0]] + CollapseSpaces(s[1..])
  }

  predicate NoAdjacentSpaces(s: string)
  {
    forall i :: 0 <= i < |s| - 1 ==> !(IsSpace(s[i]) && IsSpace(s[i + 1]))
  }

  /** After the second step no two whitespace characters are neighbours. */
  lemma {:induction false} CollapseSpacesSeparates(s: string)
    ensures NoAdjacentSpaces(CollapseSpaces(s))
    ensures s == [] <==> CollapseSpaces(s) == []
    ensures s != [] && !IsSpace(s[0]) ==> CollapseSpaces(s)[0] == s[0]
    decreases |s|
  {
    var r := CollapseSpaces(s);
    if s != [] {
      if |s| >= 2 && IsSpace(s[0]) && IsSpace(s[1]) {
        var t := s[SpaceRun(s)..];
        CollapseSpacesSeparates(t);
        assert r == "\n" + CollapseSpaces(t);
      } else {
        CollapseSpacesSeparates(s[1..]);
        assert r == [s[0]] + CollapseSpaces(s[1..]);
      }
    }
  }

  /** The text with its whitespace taken out. */
  function NonSpace(s: string): string
  {
    if s == [] then [] else (if IsSpace(s[0]) then [] else [s[0]]) + NonSpace(s[1..])
  }

  lemma {:induction false} NonSpaceSkipsRun(s: string, n: nat)
    requires n <= |s|
    requires forall i :: 0 <= i < n ==> IsSpace(s[i])
    ensures NonSpace(s[n..]) == NonSpace(s)
  {
    if n > 0 {
      NonSpaceSkipsRun(s[1..], n - 1);
      assert s[1..][n - 1..] == s[n..];
    }
  }

  /** The second step touches whitespace only. */
  lemma {:induction false} CollapseSpacesKeepsText(s: string)
    ensures NonSpace(CollapseSpaces(s)) == NonSpace(s)
    decreases |s|
  {
    if s != [] {
      if |s| >= 2 && IsSpace(s[0]) && IsSpace(s[1]) {
        var n := SpaceRun(s);
        CollapseSpacesKeepsText(s[n..]);
        NonSpaceSkipsRun(s, n);
        assert ("\n" + CollapseSpaces(s[n..]))[1..] == CollapseSpaces(s[n..]);
      } else {
        CollapseSpacesKeepsText(s[1..]);
        assert ([s[0]] + CollapseSpaces(s[1..]))[1..] == CollapseSpaces(s[1..]);
      }
    }
  }

  /** The second step brings in no character but the line break. */
  lemma {:induction false} CollapseSpacesChars(s: string, x: char)
    requires x != '\n' && x !in s
    ensures x !in CollapseSpaces(s)
    decreases |s|
  {
    if s != [] {
      if |s| >= 2 && IsSpace(s[0]) && IsSpace(s[1]) {
        CollapseSpacesChars(s[SpaceRun(s)..], x);
      } else {
        CollapseSpacesChars(s[1..], x);
      }
    }
  }

  /** First index at or after `from` holding `c`. */
  function Find(s: string, c: char, from: nat): (r: Option<nat>)
    ensures r.Some? ==> from <= r.value < |s| && s[r.value] == c
    ensures r.Some? ==> forall k :: from <= k < r.value ==> s[k] != c
    ensures r.None? ==> forall k :: from <= k < |s| ==> s[k] != c
    decreases |s| - from
  {
    if from >= |s| then None
    else if s[from] == c then Some(from)
    else Find(s, c, from + 1)
  }

  /** End of the run of characters that are neither ')' nor whitespace
      starting at `from` (the class `[^)\s]`). */
  function TargetEnd(s: string, from: nat): (k: nat)
    requires from <= |s|
    ensures from <= k <= |s|
    ensures forall i :: from <= i < k ==> s[i] != ')' && !IsSpace(s[i])
    ensures k < |s| ==> s[k] == ')' || IsSpace(s[k])
    decreases |s| - from
  {
    if from == |s| || s[from] == ')' || IsSpace(s[from]) then from
    else TargetEnd(s, from + 1)
  }

  /** End of the whitespace run starting at `from`. */
  function SpaceEnd(s: string, from: nat): (k: nat)
    requires from <= |s|
    ensures from <= k <= |s|
    ensures forall i :: from <= i < k ==> IsSpace(s[i])
    ensures k < |s| ==> !IsSpace(s[k])
    decreases |s| - from
  {
    if from < |s| && IsSpace(s[from]) then SpaceEnd(s, from + 1) else from
  }

  /** The length of the Markdown image link that starts `s`, as the pattern
      `!\[[^\]]*\]\([^)\s]+(?:\s+"[^"]*")?\)` matches it: the alternative
      text up to the first ']', a target of at least one character, and an
      optional quoted title. */
  function ImageAt(s: string): (r: Option<nat>)
    ensures r.Some? ==> 0 < r.value <= |s|
  {
    if |s| < 2 || s[0] != '!' || s[1] != '[' then None
    else
      match Find(s, ']', 2)
      case None => None
      case Some(j) =>
        if j + 1 >= |s| || s[j + 1] != '(' then None
        else
          var k := TargetEnd(s, j + 2);
          if k == j + 2 || k == |s| then None
          else if s[k] == ')' then Some(k + 1)
          else
            var m := SpaceEnd(s, k);
            if m == |s| || s[m] != '"' then None
            else
              match Find(s, '"', m + 1)
              case None => None
              case Some(q) => if q + 1 < |s| && s[q + 1] == ')' then Some(q + 2) else None
  }

  /** `re.sub(IMAGE_PATTERN, '', s)`: scanning from the left, every image
      link found is removed. */
  function RemoveImages(s: string): (r: string)
    ensures |r| <= |s|
    decreases |s|
  {
    if s == [] then []
    else
      match ImageAt(s)
      case Some(n) => RemoveImages(s[n..])
      case None => [s[0]] + RemoveImages(s[1..])
  }

  /** The head `![alt](target` of an image link: the first ']' closes the
      alternative text and the target runs to the character after it. */
  lemma ImageHead(s: string, alt: string, target: string)
    requires ']' !in alt
    requires target != [] && ')' !in target && forall i :: 0 <= i < |target| ==> !IsSpace(target[i])
    requires |s| > 4 + |alt| + |target|
    requires s[..4 + |alt| + |target|] == "![" + alt + "](" + target
    requires s[4 + |alt| + |target|] == ')' || IsSpace(s[4 + |alt| + |target|])
    ensures |s| >= 2 && s[0] == '!' && s[1] == '['
    ensures Find(s, ']', 2) == Some(2 + |alt|) && s[3 + |alt|] == '('
    ensures TargetEnd(s, 4 + |alt|) == 4 + |alt| + |target|
  {
    var head := "![" + alt + "](" + target;
    var j := 2 + |alt|;
    assert forall i :: 0 <= i < |head| ==> s[i] == head[i];
    assert head[2..j] == alt && head[j] == ']' && head[j + 1] == '(';
    assert head[j + 2..] == target;
  }

  /** A plain image link `![alt](target)` is recognised whole. */
  lemma ImageRecognised(alt: string, target: string, rest: string)
    requires ']' !in alt
    requires target != [] && ')' !in target && forall i :: 0 <= i < |target| ==> !IsSpace(target[i])
    ensures ImageAt("![" + alt + "](" + target + ")" + rest) == Some(|alt| + |target| + 5)
  {
    var s := "![" + alt + "](" + target + ")" + rest;
    var k := 4 + |alt| + |target|;
    assert s[..k] == "![" + alt + "](" + target;
    assert s[k] == ')';
    ImageHead(s, alt, target);
  }

  /** An image link with a title, `![alt](target "title")`, is recognised
      whole. */
  lemma TitledImageRecognised(alt: string, target: string, title: string, rest: string)
    requires ']' !in alt && '"' !in title
    requires target != [] && ')' !in target && forall i :: 0 <= i < |target| ==> !IsSpace(target[i])
    ensures ImageAt("![" + alt + "](" + target + " \"" + title + "\")" + rest)
         == Some(|alt| + |target| + |title| + 8)
  {
    var s := "![" + alt + "](" + target + " \"" + title + "\")" + rest;
    var k := 4 + |alt| + |target|;
    TitledLayout(alt, target, title, rest);
    ImageHead(s, alt, target);
    TitleTail(s, k, title, rest);
    TitledImageAt(s, 2 + |alt|, k, k + 2 + |title|);
  }

  lemma TitledLayout(alt: string, target: string, title: string, rest: string)
    ensures var s := "![" + alt + "](" + target + " \"" + title + "\")" + rest;
      var k := 4 + |alt| + |target|;
      |s| > k && s[..k] == "![" + alt + "](" + target && s[k] == ' '
      && s[k..] == " \"" + title + "\")" + rest
  {
    var s := "![" + alt + "](" + target + " \"" + title + "\")" + rest;
    var tail := " \"" + title + "\")" + rest;
    assert s == ("![" + alt + "](" + target) + tail;
  }

  /** How `ImageAt` reads a link whose target stops at a space before a
      title: `j` is the ']' and `q` the closing quote. */
  lemma TitledImageAt(s: string, j: nat, k: nat, q: nat)
    requires |s| >= 2 && s[0] == '!' && s[1] == '['
    requires Find(s, ']', 2) == Some(j) && j + 1 < |s| && s[j + 1] == '('
    requires TargetEnd(s, j + 2) == k && j + 2 < k < |s| && s[k] != ')'
    requires SpaceEnd(s, k) == k + 1 && k + 1 < |s| && s[k + 1] == '"'
    requires Find(s, '"', k + 2) == Some(q) && q + 1 < |s| && s[q + 1] == ')'
    ensures ImageAt(s) == Some(q + 2)
  {
  }

  lemma TitleTail(s: string, k: nat, title: string, rest: string)
    requires '"' !in title
    requires k <= |s| && s[k..] == " \"" + title + "\")" + rest
    ensures SpaceEnd(s, k) == k + 1 && s[k + 1] == '"'
    ensures Find(s, '"', k + 2) == Some(k + 2 + |title|) && s[k + 3 + |title|] == ')'
  {
    var tail := s[k..];
    assert tail[0] == ' ' && tail[1] == '"' && tail[2..2 + |title|] == title;
    assert tail[2 + |title|] == '"' && tail[3 + |title|] == ')';
    assert forall i :: 0 <= i < |tail| ==> s[k + i] == tail[i];
    assert SpaceEnd(s, k + 1) == k + 1;
  }

  /** Text with no '!' is left as it is by the third step. */
  lemma {:induction false} NoImagesUnchanged(s: string)
    requires '!' !in s
    ensures RemoveImages(s) == s
  {
    if s != [] {
      NoImagesUnchanged(s[1..]);
      assert [s[0]] + s[1..] == s;
    }
  }

  /** The third step only deletes characters. */
  lemma {:induction false} RemoveImagesChars(s: string, x: char)
    requires x !in s
    ensures x !in RemoveImages(s)
    decreases |s|
  {
    if s != [] {
      match ImageAt(s)
      case Some(n) => RemoveImagesChars(s[n..], x);
      case None => RemoveImagesChars(s[1..], x);
    }
  }

  /** `re.sub(r'\n+', '\n', s)`. */
  function CollapseNewlines(s: string): (r: string)
    ensures |r| <= |s|
    decreases |s|
  {
    if s == [] then []
    else if s[0] == '\n' then "\n" + CollapseNewlines(s[Run(s, '\n')..])
    else [s[0]] + CollapseNewlines(s[1..])
  }

  predicate NoBlankLines(s: string)
  {
    forall i :: 0 <= i < |s| - 1 ==> !(s[i] == '\n' && s[i + 1] == '\n')
  }

  /** The text with its line breaks taken out. */
  function Unbroken(s: string): string
  {
    if s == [] then [] else (if s[0] == '\n' then [] else [s[0]]) + Unbroken(s[1..])
  }

  lemma {:induction false} UnbrokenSkipsRun(s: string, n: nat)
    requires n <= |s|
    requires forall i :: 0 <= i < n ==> s[i] == '\n'
    ensures Unbroken(s[n..]) == Unbroken(s)
  {
    if n > 0 {
      UnbrokenSkipsRun(s[1..], n - 1);
      assert s[1..][n - 1..] == s[n..];
    }
  }

  /** The fourth step leaves no two line breaks together, keeps a line
      break wherever there was a run of them, and changes nothing else. */
  lemma {:induction false} CollapseNewlinesShape(s: string)
    ensures NoBlankLines(CollapseNewlines(s))
    ensures Unbroken(CollapseNewlines(s)) == Unbroken(s)
    ensures s == [] <==> CollapseNewlines(s) == []
    ensures s != [] ==> CollapseNewlines(s)[0] == s[0]
    decreases |s|
  {
    var r := CollapseNewlines(s);
    if s != [] {
      if s[0] == '\n' {
        var n := Run(s, '\n');
        var t := s[n..];
        CollapseNewlinesShape(t);
        UnbrokenSkipsRun(s, n);
        assert r == "\n" + CollapseNewlines(t);
        assert r[1..] == CollapseNewlines(t);
      } else {
        CollapseNewlinesShape(s[1..]);
        assert r == [s[0]] + CollapseNewlines(s[1..]);
        assert r[1..] == CollapseNewlines(s[1..]);
      }
    }
  }

  lemma {:induction false} CollapseNewlinesChars(s: string, x: char)
    requires x !in s
    ensures x !in CollapseNewlines(s)
    decreases |s|
  {
    if s != [] {
      if s[0] == '\n' {
        CollapseNewlinesChars(s[Run(s, '\n')..], x);
      } else {
        CollapseNewlinesChars(s[1..], x);
      }
    }
  }

  /** `__clean_text`: the five steps in their order. */
  function CleanText(s: string, printable: char -> bool): (r: string)
    ensures |r| <= |s|
  {
    var printableOnly := KeepPrintable(s, printable);
    var spaced := CollapseSpaces(printableOnly);
    var noImages := RemoveImages(spaced);
    var lines := CollapseNewlines(noImages);
    RemoveAll(lines, "---")
  }

  /** A cleaned text holds only printable characters and line breaks: the
      line breaks are those the whitespace step wrote. */
  lemma CleanTextChars(s: string, printable: char -> bool)
    ensures forall c :: c in CleanText(s, printable) ==> c == '\n' || IsPrintable(c, printable)
  {
    var printableOnly := KeepPrintable(s, printable);
    var spaced := CollapseSpaces(printableOnly);
    var noImages := RemoveImages(spaced);
    var lines := CollapseNewlines(noImages);
    KeepPrintableExact(s, printable);
    forall c | c != '\n' && !IsPrintable(c, printable)
      ensures c !in CleanText(s, printable)
    {
      CollapseSpacesChars(printableOnly, c);
      RemoveImagesChars(spaced, c);
      CollapseNewlinesChars(noImages, c);
      RemoveAllChars(lines, "---", c);
    }
  }

  /** A line break in the input is removed with the other unprintable
      characters, so the lines on either side run together. */
  lemma LineBreakJoinsLines(printable: char -> bool)
    ensures CleanText("ab\ncd", printable) == "abcd"
  {
    LineBreakDropped(printable);
    NoSpaces("abcd");
    NoImagesUnchanged("abcd");
    NoNewlines("abcd");
    NoDashes();
  }

  lemma LineBreakDropped(printable: char -> bool)
    ensures KeepPrintable("ab\ncd", printable) == "abcd"
  {
    var s := "ab\ncd";
    assert s[1..] == "b\ncd" && s[1..][1..] == "\ncd";
    assert "\ncd"[1..] == "cd" && "cd"[1..] == "d";
  }

  lemma NoDashes()
    ensures RemoveAll("abcd", "---") == "abcd"
  {
    assert "abcd"[1..] == "bcd";
    assert "bcd"[1..] == "cd";
  }

  /** Two spaces become a line break. */
  lemma SpacesBecomeLineBreak(printable: char -> bool)
    ensures CleanText("ab  cd", printable) == "ab\ncd"
  {
    PrintableExample(printable);
    SpacesExample();
    NoImagesUnchanged("ab\ncd");
    NewlineExample();
    DashExample();
  }

  lemma PrintableExample(printable: char -> bool)
    ensures KeepPrintable("ab  cd", printable) == "ab  cd"
  {
    var s := "ab  cd";
    assert s[1..] == "b  cd" && s[1..][1..] == "  cd";
    assert "  cd"[1..] == " cd" && " cd"[1..] == "cd" && "cd"[1..] == "d";
  }

  lemma SpacesExample()
    ensures CollapseSpaces("ab  cd") == "ab\ncd"
  {
    var s := "ab  cd";
    assert s[1..] == "b  cd";
    assert "b  cd"[1..] == "  cd";
    assert SpaceRun("  cd") == 2 by {
      assert "  cd"[1..] == " cd";
      assert " cd"[1..] == "cd";
    }
    assert "  cd"[2..] == "cd";
    NoSpaces("cd");
  }

  lemma NewlineExample()
    ensures CollapseNewlines("ab\ncd") == "ab\ncd"
  {
    assert "ab\ncd"[1..] == "b\ncd";
    assert "b\ncd"[1..] == "\ncd";
    assert Run("\ncd", '\n') == 1 by {
      assert "\ncd"[1..] == "cd";
    }
    NoNewlines("cd");
  }

  lemma DashExample()
    ensures RemoveAll("ab\ncd", "---") == "ab\ncd"
  {
    assert "ab\ncd"[1..] == "b\ncd";
    assert "b\ncd"[1..] == "\ncd";
    assert "\ncd"[1..] == "cd";
  }

  lemma {:induction false} NoSpaces(s: string)
    requires forall i :: 0 <= i < |s| ==> !IsSpace(s[i])
    ensures CollapseSpaces(s) == s
  {
    if s != [] {
      NoSpaces(s[1..]);
      assert [s[0]] + s[1..] == s;
    }
  }

  lemma {:induction false} NoNewlines(s: string)
    requires '\n' !in s
    ensures CollapseNewlines(s) == s
  {
    if s != [] {
      NoNewlines(s[1..]);
      assert [s[0]] + s[1..] == s;
    }
  }

  /** `#{1,6}\s+` matches at the start of `t`. */
  predicate HeadingStart(t: string)
  {
    var h := Run(t, '#');
    1 <= h <= 6 && h < |t| && IsSpace(t[h])
  }

  /** The lookahead `(?=^#{1,6}\s+)` with `MULTILINE` matches at `i`: a line
      starts there with a heading marker. */
  predicate HeadingAt(s: string, i: nat)
  {
    i < |s| && (i == 0 || s[i - 1] == '\n') && HeadingStart(s[i..])
  }

  /** The pieces of `s[start..]` when it is cut at every heading position
      from `i` on. */
  function Segments(s: string, start: nat, i: nat): (pieces: seq<string>)
    requires start <= i <= |s|
    ensures |pieces| >= 1
    ensures |pieces[0]| >= i - start
    ensures forall k :: 1 <= k < |pieces| ==> pieces[k] != ""
    decreases |s| - i
  {
    if i == |s| then [s[start..]]
    else if HeadingAt(s, i) then [s[start..i]] + Segments(s, i, i + 1)
    else Segments(s, start, i + 1)
  }

  /** `MD_HEADING_PATTERN.split(text)`: the text cut in front of every
      heading line; a heading on the first line gives an empty first
      piece. */
  function HeadingSplit(s: string): (pieces: seq<string>)
    ensures pieces != [] && Concat(pieces) == s
  {
    SegmentsConcat(s, 0, 0);
    assert s[0..] == s;
    Segments(s, 0, 0)
  }

  /** The pieces put back together give the text. */
  lemma {:induction false} SegmentsConcat(s: string, start: nat, i: nat)
    requires start <= i <= |s|
    ensures Concat(Segments(s, start, i)) == s[start..]
    decreases |s| - i
  {
    var pieces := Segments(s, start, i);
    if i == |s| {
      assert Concat(pieces) == s[start..] + Concat([]);
    } else if HeadingAt(s, i) {
      SegmentsConcat(s, i, i + 1);
      assert pieces == [s[start..i]] + Segments(s, i, i + 1);
      assert pieces[1..] == Segments(s, i, i + 1);
      assert s[start..i] + s[i..] == s[start..];
    } else {
      SegmentsConcat(s, start, i + 1);
    }
  }

  /** Every piece of `pieces` after the first starts, in `s`, where a
      heading line starts, when the pieces are laid out from `offset`. */
  predicate CutsAtHeadings(s: string, offset: nat, pieces: seq<string>)
    decreases |pieces|
  {
    |pieces| <= 1 ||
    (HeadingAt(s, offset + |pieces[0]|) && CutsAtHeadings(s, offset + |pieces[0]|, pieces[1..]))
  }

  /** Every piece after the first starts where a heading line starts. */
  lemma {:induction false} SegmentsCuts(s: string, start: nat, i: nat)
    requires start <= i <= |s|
    ensures CutsAtHeadings(s, start, Segments(s, start, i))
    decreases |s| - i
  {
    if i < |s| {
      if HeadingAt(s, i) {
        SegmentsCuts(s, i, i + 1);
        var pieces := Segments(s, start, i);
        assert pieces == [s[start..i]] + Segments(s, i, i + 1);
        assert pieces[1..] == Segments(s, i, i + 1);
      } else {
        SegmentsCuts(s, start, i + 1);
        assert Segments(s, start, i) == Segments(s, start, i + 1);
      }
    }
  }

  /** No heading line starts strictly inside a piece of `pieces`, when the
      pieces are laid out from `offset`. */
  predicate NoInnerHeadings(s: string, offset: nat, pieces: seq<string>)
    decreases |pieces|
  {
    pieces == [] ||
    ((forall j: nat :: offset < j < offset + |pieces[0]| ==> !HeadingAt(s, j))
     && NoInnerHeadings(s, offset + |pieces[0]|, pieces[1..]))
  }

  /** No piece runs over a heading line that starts after the first
      piece's start. */
  lemma {:induction false} SegmentsWhole(s: string, start: nat, i: nat)
    requires start <= i <= |s|
    requires forall j: nat :: start < j < i ==> !HeadingAt(s, j)
    ensures NoInnerHeadings(s, start, Segments(s, start, i))
    decreases |s| - i
  {
    var pieces := Segments(s, start, i);
    if i == |s| {
      assert pieces == [s[start..]];
      assert pieces[1..] == [];
    } else if HeadingAt(s, i) {
      SegmentsWhole(s, i, i + 1);
      assert pieces == [s[start..i]] + Segments(s, i, i + 1);
      assert pieces[1..] == Segments(s, i, i + 1);
    } else {
      SegmentsWhole(s, start, i + 1);
    }
  }

  /** What `re.split(r"(?=^#{1,6}\s+)", s, flags=re.MULTILINE)` promises:
      the pieces put back together give the text, every piece after the
      first starts at a heading line and is not empty, no heading line
      starts inside a piece, and a heading on the first line leaves an
      empty first piece. */
  predicate HeadingCut(s: string, pieces: seq<string>)
  {
    pieces != [] && Concat(pieces) == s
    && CutsAtHeadings(s, 0, pieces) && NoInnerHeadings(s, 0, pieces)
    && (forall k :: 1 <= k < |pieces| ==> pieces[k] != "")
    && (HeadingAt(s, 0) ==> pieces[0] == "")
  }

  /** Any cut of `s[start..]` with those properties, whose first piece
      reaches at least to `i`, is the one `Segments` computes. */
  lemma {:induction false} SegmentsUnique(s: string, start: nat, i: nat, pieces: seq<string>)
    requires start <= i <= |s|
    requires pieces != [] && Concat(pieces) == s[start..]
    requires CutsAtHeadings(s, start, pieces) && NoInnerHeadings(s, start, pieces)
    requires forall k :: 1 <= k < |pieces| ==> pieces[k] != ""
    requires |pieces[0]| >= i - start
    requires i == start && HeadingAt(s, start) ==> pieces[0] == ""
    ensures pieces == Segments(s, start, i)
    decreases |s| - i, 1
  {
    FirstPiece(s, start, pieces);
    if i == |s| {
      assert Segments(s, start, i) == [s[start..]];
    } else if HeadingAt(s, i) {
      SegmentsUniqueAtHeading(s, start, i, pieces);
    } else {
      SegmentsUniqueElsewhere(s, start, i, pieces);
    }
  }

  /** A heading line at `i`, inside or at the end of the first piece,
      ends that piece, and the rest is the cut from `i`. */
  lemma {:induction false} SegmentsUniqueAtHeading(s: string, start: nat, i: nat, pieces: seq<string>)
    requires start <= i < |s| && HeadingAt(s, i)
    requires pieces != [] && Concat(pieces) == s[start..]
    requires CutsAtHeadings(s, start, pieces) && NoInnerHeadings(s, start, pieces)
    requires |pieces[0]| >= i - start
    requires i == start ==> pieces[0] == ""
    requires start + |pieces[0]| <= |s| && pieces[0] == s[start..start + |pieces[0]|]
    requires Concat(pieces[1..]) == s[start + |pieces[0]|..]
    requires |pieces| == 1 <==> start + |pieces[0]| == |s|
    requires forall k :: 1 <= k < |pieces| ==> pieces[k] != ""
    requires forall k :: 1 <= k < |pieces[1..]| ==> pieces[1..][k] != ""
    ensures pieces == Segments(s, start, i)
    decreases |s| - i, 0
  {
    var e := start + |pieces[0]|;
    PeelCut(s, start, pieces);
    if i > start {
      assert !(start < i < e);
    }
    assert e == i;
    var rest := pieces[1..];
    assert rest[0] == pieces[1];
    SegmentsUnique(s, i, i + 1, rest);
    assert pieces == [s[start..i]] + rest;
    assert Segments(s, start, i) == [s[start..i]] + Segments(s, i, i + 1);
  }

  /** The conditions on a cut, for its first piece and for the rest. */
  lemma PeelCut(s: string, start: nat, pieces: seq<string>)
    requires pieces != []
    requires CutsAtHeadings(s, start, pieces) && NoInnerHeadings(s, start, pieces)
    ensures forall j: nat :: start < j < start + |pieces[0]| ==> !HeadingAt(s, j)
    ensures |pieces| >= 2 ==> HeadingAt(s, start + |pieces[0]|)
    ensures CutsAtHeadings(s, start + |pieces[0]|, pieces[1..])
    ensures NoInnerHeadings(s, start + |pieces[0]|, pieces[1..])
  {
  }

  /** Where no heading line starts, the first piece does not end. */
  lemma {:induction false} SegmentsUniqueElsewhere(s: string, start: nat, i: nat, pieces: seq<string>)
    requires start <= i < |s| && !HeadingAt(s, i)
    requires pieces != [] && Concat(pieces) == s[start..]
    requires CutsAtHeadings(s, start, pieces) && NoInnerHeadings(s, start, pieces)
    requires forall k :: 1 <= k < |pieces| ==> pieces[k] != ""
    requires |pieces[0]| >= i - start
    requires |pieces| == 1 <==> start + |pieces[0]| == |s|
    ensures pieces == Segments(s, start, i)
    decreases |s| - i, 0
  {
    assert |pieces[0]| >= i + 1 - start;
    SegmentsUnique(s, start, i + 1, pieces);
    assert Segments(s, start, i) == Segments(s, start, i + 1);
  }

  /** The first piece of a cut of `s[start..]` is the text from `start`,
      the others cut the rest, and a cut with a non-empty rest has a
      second piece; a cut with one piece is the whole of it. */
  lemma FirstPiece(s: string, start: nat, pieces: seq<string>)
    requires start <= |s|
    requires pieces != [] && Concat(pieces) == s[start..]
    requires forall k :: 1 <= k < |pieces| ==> pieces[k] != ""
    ensures start + |pieces[0]| <= |s|
    ensures pieces[0] == s[start..start + |pieces[0]|]
    ensures Concat(pieces[1..]) == s[start + |pieces[0]|..]
    ensures |pieces| == 1 <==> start + |pieces[0]| == |s|
    ensures |pieces| == 1 ==> pieces == [s[start..]]
    ensures forall k :: 1 <= k < |pieces[1..]| ==> pieces[1..][k] != ""
  {
    var e := start + |pieces[0]|;
    var rest := pieces[1..];
    assert s[start..] == pieces[0] + Concat(rest);
    assert s[start..] == s[start..e] + s[e..];
    if |pieces| >= 2 {
      assert Concat(rest) == rest[0] + Concat(rest[1..]);
      assert rest[0] == pieces[1];
      assert e < |s|;
    } else {
      assert rest == [] && Concat(rest) == "";
      assert e == |s|;
      assert pieces == [pieces[0]] && s[start..e] == s[start..];
    }
    forall k | 1 <= k < |rest| ensures rest[k] != "" {
      assert rest[k] == pieces[k + 1];
    }
  }

  /** The split is a heading cut, and the only one: a text has exactly one
      cut with the properties `re.split` promises, and it is the split. */
  lemma HeadingSplitExact(s: string, pieces: seq<string>)
    ensures HeadingCut(s, HeadingSplit(s))
    ensures HeadingCut(s, pieces) <==> pieces == HeadingSplit(s)
  {
    SegmentsConcat(s, 0, 0);
    SegmentsCuts(s, 0, 0);
    SegmentsWhole(s, 0, 0);
    assert s[0..] == s;
    if HeadingCut(s, pieces) {
      SegmentsUnique(s, 0, 0, pieces);
    }
  }

  /** The split loses nothing, cuts in front of every heading line and
      nowhere else, and leaves no empty piece after the first. */
  lemma HeadingSplitShape(s: string)
    ensures Concat(HeadingSplit(s)) == s
    ensures CutsAtHeadings(s, 0, HeadingSplit(s))
    ensures NoInnerHeadings(s, 0, HeadingSplit(s))
    ensures HeadingAt(s, 0) ==> HeadingSplit(s)[0] == ""
  {
    HeadingSplitExact(s, HeadingSplit(s));
  }

  /** `(t for t in sections if t.strip())`. */
  function NonBlank(sections: seq<string>): (r: seq<string>)
    ensures |r| <= |sections|
  {
    if sections == [] then []
    else NonBlank(sections[..|sections| - 1]) + (if IsBlank(sections[|sections| - 1]) then [] else [sections[|sections| - 1]])
  }

  /** The kept sections are exactly the non-blank ones. */
  lemma {:induction false} NonBlankMembers(sections: seq<string>)
    ensures forall t :: t in NonBlank(sections) <==> t in sections && !IsBlank(t)
  {
    if sections != [] {
      var init := sections[..|sections| - 1];
      NonBlankMembers(init);
      assert sections == init + [sections[|sections| - 1]];
    }
  }

  /** The kept sections stay in their order. */
  lemma {:induction false} NonBlankAppend(a: seq<string>, b: seq<string>)
    ensures NonBlank(a + b) == NonBlank(a) + NonBlank(b)
  {
    if b == [] {
      assert a + b == a;
    } else {
      var b0 := b[..|b| - 1];
      NonBlankAppend(a, b0);
      assert (a + b)[..|a + b| - 1] == a + b0;
    }
  }

  function CleanAll(sections: seq<string>, printable: char -> bool): (r: seq<string>)
    ensures |r| == |sections|
    ensures forall i :: 0 <= i < |sections| ==> r[i] == CleanText(sections[i], printable)
  {
    if sections == [] then [] else CleanAll(sections[..|sections| - 1], printable) + [CleanText(sections[|sections| - 1], printable)]
  }

  /** `__clean_text_sections`: the non-blank sections, each cleaned. */
  function CleanSections(sections: seq<string>, printable: char -> bool): (r: seq<string>)
    ensures |r| <= |sections|
    ensures forall i :: 0 <= i < |r| ==>
      exists t :: t in sections && !IsBlank(t) && r[i] == CleanText(t, printable)
  {
    NonBlankMembers(sections);
    CleanAll(NonBlank(sections), printable)
  }

  /** Cleaning sections one list after the other is cleaning them
      together. */
  lemma CleanSectionsAppend(a: seq<string>, b: seq<string>, printable: char -> bool)
    ensures CleanSections(a + b, printable) == CleanSections(a, printable) + CleanSections(b, printable)
  {
    NonBlankAppend(a, b);
    var x, y := NonBlank(a), NonBlank(b);
    assert CleanAll(x + y, printable) == CleanAll(x, printable) + CleanAll(y, printable);
  }

  /** Blank sections leave no trace. */
  lemma BlankSectionDropped(sections: seq<string>, t: string, printable: char -> bool)
    requires IsBlank(t)
    ensures CleanSections(sections + [t], printable) == CleanSections(sections, printable)
  {
    assert (sections + [t])[..|sections|] == sections;
  }
}
