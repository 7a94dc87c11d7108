/** The Python string builtins the article generator relies on, on `seq<char>`:
    `str.strip()`, `str.split(sep)`, `sep.join(list)` and `str(int)`, together
    with the substring and line views the prompt's properties are stated in. */
module Text {

  /** Python's `str.isspace()` for a single character: exactly the characters
      that `str.strip()` with no argument removes. */
  predicate IsSpace(c: char) {
    || ('\U{9}' <= c <= '\U{D}')        // \t \n \v \f \r
    || ('\U{1C}' <= c <= '\U{1F}')      // file, group, record and unit separators
    || c == ' ' || c == '\U{85}' || c == '\U{A0}' || c == '\U{1680}'
    || ('\U{2000}' <= c <= '\U{200A}')
    || c == '\U{2028}' || c == '\U{2029}' || c == '\U{202F}' || c == '\U{205F}' || c == '\U{3000}'
  }

  /** Every character of `s` is whitespace (`not s.strip()` in Python). */
  predicate Blank(s: string) {
    forall i :: 0 <= i < |s| ==> IsSpace(s[i])
  }

  /** `s` has no whitespace at either end, i.e. `s.strip() == s`. */
  predicate Stripped(s: string) {
    s == [] || (!IsSpace(s[0]) && !IsSpace(s[|s| - 1]))
  }

  /** `s.lstrip()`: the longest suffix of `s` that does not start with whitespace. */
  function TrimLeft(s: string): (r: string)
    ensures |r| <= |s| && r == s[|s| - |r|..]
    ensures Blank(s[..|s| - |r|])
    ensures r == [] || !IsSpace(r[0])
    decreases |s|
  {
    if |s| > 0 && IsSpace(s[0]) then
      var r := TrimLeft(s[1..]);
      TrimLeftStep(s, r);
      r
    else s
  }

  lemma TrimLeftStep(s: string, r: string)
    requires |s| > 0 && IsSpace(s[0])
    requires |r| <= |s| - 1 && r == s[1..][|s| - 1 - |r|..] && Blank(s[1..][..|s| - 1 - |r|])
    ensures |r| <= |s| && r == s[|s| - |r|..] && Blank(s[..|s| - |r|])
  {
    var k := |s| - |r|;
    assert s[1..][k - 1..] == s[k..];
    forall i | 0 <= i < k
      ensures IsSpace(s[..k][i])
    {
      if i > 0 {
        assert s[..k][i] == s[1..][..k - 1][i - 1];
      }
    }
  }

  /** `s.rstrip()`: the longest prefix of `s` that does not end with whitespace. */
  function TrimRight(s: string): (r: string)
    ensures |r| <= |s| && r == s[..|r|]
    ensures Blank(s[|r|..])
    ensures r == [] || !IsSpace(r[|r| - 1])
    decreases |s|
  {
    if |s| > 0 && IsSpace(s[|s| - 1]) then
      var r := TrimRight(s[..|s| - 1]);
      TrimRightStep(s, r);
      r
    else s
  }

  lemma TrimRightStep(s: string, r: string)
    requires |s| > 0 && IsSpace(s[|s| - 1])
    requires |r| <= |s| - 1 && r == s[..|s| - 1][..|r|] && Blank(s[..|s| - 1][|r|..])
    ensures |r| <= |s| && r == s[..|r|] && Blank(s[|r|..])
  {
    var k := |r|;
    assert s[..|s| - 1][..k] == s[..k];
    forall i | 0 <= i < |s| - k
      ensures IsSpace(s[k..][i])
    {
      if i < |s| - 1 - k {
        assert s[k..][i] == s[..|s| - 1][k..][i];
      }
    }
  }

  /** `r` is the piece of `s` at index `k`, and everything before and after
      it is whitespace: `r` is `s` with whitespace cut from its two ends. */
  predicate TrimmedAt(s: string, r: string, k: nat) {
    OccursAt(s, r, k) && Blank(s[..k]) && Blank(s[k + |r|..])
  }

  /** `s.strip()`: only whitespace is cut, and only from the two ends. */
  function Strip(s: string): (r: string)
    ensures Stripped(r)
    ensures r == [] <==> Blank(s)
    ensures exists k: nat :: TrimmedAt(s, r, k)
    ensures Contains(s, r)
  {
    TrimBoth(s);
    TrimRight(TrimLeft(s))
  }

  lemma TrimBoth(s: string)
    ensures TrimmedAt(s, TrimRight(TrimLeft(s)), |s| - |TrimLeft(s)|)
    ensures TrimRight(TrimLeft(s)) == [] <==> Blank(s)
  {
    TrimBothOccurs(s);
    TrimBothBlank(s);
  }

  /** The contract of `Strip` determines its result: any stripped piece of
      `s` that only whitespace surrounds is `s.strip()`. */
  lemma StripUnique(s: string, r: string, k: nat)
    requires TrimmedAt(s, r, k) && Stripped(r)
    ensures r == Strip(s)
  {
    var r2 := Strip(s);
    var k2: nat :| TrimmedAt(s, r2, k2);
    if r == [] {
      forall i | 0 <= i < |s|
        ensures IsSpace(s[i])
      {
        if i < k {
          assert s[i] == s[..k][i];
        } else {
          assert s[i] == s[k..][i - k];
        }
      }
    } else {
      assert s[k] == r[0];
      assert !Blank(s);
      SameEnds(s, r, k, r2, k2);
    }
  }

  lemma SameEnds(s: string, r: string, k: nat, r2: string, k2: nat)
    requires TrimmedAt(s, r, k) && TrimmedAt(s, r2, k2)
    requires r != [] && r2 != [] && Stripped(r) && Stripped(r2)
    ensures r == r2
  {
    VisibleEnds(s, r, k);
    VisibleEnds(s, r2, k2);
    assert k == k2;
    assert k + |r| == k2 + |r2|;
  }

  /** Around a stripped non-empty piece that only whitespace surrounds,
      its first and last characters are the only visible ends of `s`. */
  lemma VisibleEnds(s: string, r: string, k: nat)
    requires TrimmedAt(s, r, k) && r != [] && Stripped(r)
    ensures forall i :: 0 <= i < k ==> IsSpace(s[i])
    ensures forall i :: k + |r| <= i < |s| ==> IsSpace(s[i])
    ensures !IsSpace(s[k]) && !IsSpace(s[k + |r| - 1])
  {
    assert s[k] == r[0] && s[k + |r| - 1] == r[|r| - 1];
    forall i | 0 <= i < k
      ensures IsSpace(s[i])
    {
      assert s[i] == s[..k][i];
    }
    forall i | k + |r| <= i < |s|
      ensures IsSpace(s[i])
    {
      assert s[i] == s[k + |r|..][i - k - |r|];
    }
  }

  lemma TrimBothOccurs(s: string)
    ensures TrimmedAt(s, TrimRight(TrimLeft(s)), |s| - |TrimLeft(s)|)
  {
    var l := TrimLeft(s);
    var r := TrimRight(l);
    assert |l| <= |s| && l == s[|s| - |l|..] && Blank(s[..|s| - |l|]);
    assert |r| <= |l| && r == l[..|r|] && Blank(l[|r|..]);
    SliceOfSuffix(s, l, r);
  }

  lemma SliceOfSuffix(s: string, l: string, r: string)
    requires |l| <= |s| && l == s[|s| - |l|..] && Blank(s[..|s| - |l|])
    requires |r| <= |l| && r == l[..|r|] && Blank(l[|r|..])
    ensures TrimmedAt(s, r, |s| - |l|)
  {
    var k := |s| - |l|;
    assert s[k..k + |r|] == s[k..][..|r|];
    assert s[k + |r|..] == l[|r|..];
  }

  lemma TrimBothBlank(s: string)
    ensures TrimRight(TrimLeft(s)) == [] <==> Blank(s)
  {
    var l := TrimLeft(s);
    TrimLeftEmpty(s);
    TrimRightEmpty(l);
  }

  lemma TrimLeftEmpty(s: string)
    ensures TrimLeft(s) == [] <==> Blank(s)
  {
    if TrimLeft(s) == [] {
      assert s[..|s|] == s;
    }
  }

  lemma TrimRightBlank(s: string)
    ensures TrimRight(s) == [] <==> Blank(s)
  {
    var r := TrimRight(s);
    if r == [] {
      assert s[|r|..] == s;
    }
  }

  lemma TrimRightEmpty(l: string)
    requires l == [] || !IsSpace(l[0])
    ensures TrimRight(l) == [] <==> l == []
  {
  }

  lemma {:induction false} TrimLeftOfStripped(s: string)
    requires s == [] || !IsSpace(s[0])
    ensures TrimLeft(s) == s
  {
  }

  lemma {:induction false} TrimRightOfStripped(s: string)
    requires s == [] || !IsSpace(s[|s| - 1])
    ensures TrimRight(s) == s
  {
  }

  /** Whitespace in front of a word that starts with a non-space is all `lstrip` removes. */
  lemma {:induction false} TrimLeftBlankPrefix(sp: string, w: string)
    requires Blank(sp)
    requires w == [] || !IsSpace(w[0])
    ensures TrimLeft(sp + w) == w
    decreases |sp|
  {
    if sp == [] {
      assert sp + w == w;
    } else {
      assert (sp + w)[1..] == sp[1..] + w;
      TrimLeftBlankPrefix(sp[1..], w);
    }
  }

  /** `rstrip` of a concatenation: the right part is stripped first, and only
      when nothing of it survives does the left part get stripped too. */
  lemma {:induction false} TrimRightConcat(a: string, b: string)
    ensures TrimRight(a + b) == if TrimRight(b) == [] then TrimRight(a) else a + TrimRight(b)
    decreases |b|
  {
    if b == [] {
      assert a + b == a;
    } else if IsSpace(b[|b| - 1]) {
      assert (a + b)[..|a + b| - 1] == a + b[..|b| - 1];
      TrimRightConcat(a, b[..|b| - 1]);
    } else {
      assert TrimRight(b) == b;
    }
  }

  /** `rstrip` of a newline-framed text: nothing left when the text is blank,
      otherwise the leading newline and the text's own `rstrip`. */
  lemma TrimRightFramed(e: string)
    ensures TrimRight("\n" + e + "\n") == if Blank(e) then "" else "\n" + TrimRight(e)
  {
    TrimRightConcat("\n" + e, "\n");
    TrimRightConcat("\n", e);
    TrimRightBlank(e);
  }

  /** `strip` of `"\n" + head + "\n" + e + "\n"` when `head` starts and ends visibly. */
  lemma StripFramed(head: string, e: string)
    requires head != [] && !IsSpace(head[0]) && !IsSpace(head[|head| - 1])
    ensures Strip("\n" + head + "\n" + e + "\n") == head + if Blank(e) then "" else "\n" + TrimRight(e)
  {
    var framed := "\n" + head + "\n" + e + "\n";
    FramedTrimLeft(head, e);
    HeadTrimRight(head, e);
    assert Strip(framed) == TrimRight(TrimLeft(framed));
  }

  /** `strip` of the lines `lines + [e]` framed by newlines, when the joined
      lines start and end visibly. */
  lemma StripFramedLines(lines: seq<string>, e: string)
    requires lines != [] && Join(lines, "\n") != []
    requires !IsSpace(Join(lines, "\n")[0]) && !IsSpace(Join(lines, "\n")[|Join(lines, "\n")| - 1])
    ensures Strip("\n" + Join(lines + [e], "\n") + "\n") ==
      Join(lines, "\n") + if Blank(e) then "" else "\n" + TrimRight(e)
  {
    var head := Join(lines, "\n");
    JoinAppend(lines, [e], "\n");
    assert "\n" + Join(lines + [e], "\n") + "\n" == "\n" + head + "\n" + e + "\n";
    StripFramed(head, e);
  }

  lemma FramedTrimLeft(head: string, e: string)
    requires head != [] && !IsSpace(head[0])
    ensures TrimLeft("\n" + head + "\n" + e + "\n") == head + ("\n" + e + "\n")
  {
    var tail := "\n" + e + "\n";
    assert "\n" + head + "\n" + e + "\n" == "\n" + (head + tail);
    assert Blank("\n");
    assert (head + tail)[0] == head[0];
    TrimLeftBlankPrefix("\n", head + tail);
  }

  lemma HeadTrimRight(head: string, e: string)
    requires head != [] && !IsSpace(head[|head| - 1])
    ensures TrimRight(head + ("\n" + e + "\n")) == head + if Blank(e) then "" else "\n" + TrimRight(e)
  {
    var tail := "\n" + e + "\n";
    TrimRightConcat(head, tail);
    TrimRightOfStripped(head);
    TrimRightFramed(e);
    if Blank(e) {
      assert TrimRight(tail) == [];
      assert head + "" == head;
    }
  }

  /** `strip` is idempotent. */
  lemma StripIdempotent(s: string)
    ensures Strip(Strip(s)) == Strip(s)
  {
    var r := Strip(s);
    TrimLeftOfStripped(r);
    TrimRightOfStripped(r);
  }

  /** A stripped, non-empty word behind some whitespace strips to itself. */
  lemma StripBlankPrefix(sp: string, w: string)
    requires Blank(sp) && w != [] && Stripped(w)
    ensures Strip(sp + w) == w
  {
    TrimLeftBlankPrefix(sp, w);
    TrimRightOfStripped(w);
  }

  // ---------- substrings ----------

  /** `w in s` for Python strings: `w` occurs in `s` as a contiguous piece. */
  predicate Contains(s: string, w: string) {
    exists k :: 0 <= k <= |s| && OccursAt(s, w, k)
  }

  /** `w` occurs in `s` starting at index `k`. */
  predicate OccursAt(s: string, w: string, k: nat) {
    k + |w| <= |s| && s[k..k + |w|] == w
  }

  predicate StartsWith(s: string, p: string) {
    |p| <= |s| && s[..|p|] == p
  }

  predicate EndsWith(s: string, p: string) {
    |p| <= |s| && s[|s| - |p|..] == p
  }

  lemma ContainsMiddle(a: string, w: string, b: string)
    ensures Contains(a + w + b, w)
  {
    assert OccursAt(a + w + b, w, |a|);
  }

  lemma ContainsWithin(s: string, w: string, a: string, b: string)
    requires Contains(s, w)
    ensures Contains(a + s + b, w)
  {
    var k :| 0 <= k <= |s| && OccursAt(s, w, k);
    assert (a + s + b)[|a| + k..|a| + k + |w|] == w;
    assert OccursAt(a + s + b, w, |a| + k);
  }

  lemma ContainsTransitive(s: string, w: string, v: string)
    requires Contains(s, w) && Contains(w, v)
    ensures Contains(s, v)
  {
    var k :| 0 <= k <= |s| && OccursAt(s, w, k);
    var j :| 0 <= j <= |w| && OccursAt(w, v, j);
    forall i | 0 <= i < |v| ensures s[k + j + i] == v[i] {
      assert v[i] == w[j + i];
      assert w[j + i] == s[k..k + |w|][j + i];
    }
    assert s[k + j..k + j + |v|] == v;
    assert OccursAt(s, v, k + j);
  }

  /** A character of an occurring piece is a character of the whole. */
  lemma ContainsChar(s: string, w: string, c: char)
    requires Contains(s, w) && c in w
    ensures c in s
  {
    var k :| 0 <= k <= |s| && OccursAt(s, w, k);
    var i :| 0 <= i < |w| && w[i] == c;
    assert s[k + i] == w[i];
  }

  lemma ContainsInPrefix(s: string, h: string, t: string, w: string)
    requires s == h + t && Contains(h, w)
    ensures Contains(s, w)
  {
    ContainsWithin(h, w, "", t);
    assert "" + h + t == s;
  }

  lemma ContainsParts(s: string, a: string, w: string, b: string)
    requires s == a + w + b
    ensures Contains(s, w)
  {
    ContainsMiddle(a, w, b);
  }

  lemma StartsWithParts(s: string, a: string, b: string)
    requires s == a + b
    ensures StartsWith(s, a)
  {
    assert s[..|a|] == a;
  }

  lemma StartsWithExtend(s: string, p: string, t: string)
    requires StartsWith(s, p)
    ensures StartsWith(s + t, p)
  {
    assert (s + t)[..|p|] == s[..|p|];
  }

  lemma EndsWithParts(s: string, a: string, b: string)
    requires s == a + b
    ensures EndsWith(s, b)
  {
    assert s[|s| - |b|..] == b;
  }

  // ---------- join ----------

  /** `sep.join(parts)`. */
  function Join(parts: seq<string>, sep: string): string
  {
    if |parts| == 0 then ""
    else if |parts| == 1 then parts[0]
    else parts[0] + sep + Join(parts[1..], sep)
  }

  /** Joining two non-empty lists puts exactly one separator between them. */
  lemma {:induction false} JoinAppend(a: seq<string>, b: seq<string>, sep: string)
    requires a != [] && b != []
    ensures Join(a + b, sep) == Join(a, sep) + sep + Join(b, sep)
    decreases |a|
  {
    assert (a + b)[0] == a[0];
    if |a| == 1 {
      assert (a + b)[1..] == b;
    } else {
      assert (a + b)[1..] == a[1..] + b;
      JoinAppend(a[1..], b, sep);
    }
  }

  /** Joining with the empty separator and one more part appends that part. */
  lemma ConcatSnoc(parts: seq<string>, x: string)
    ensures Join(parts + [x], "") == Join(parts, "") + x
  {
    if parts == [] {
      assert parts + [x] == [x];
    } else {
      JoinAppend(parts, [x], "");
    }
  }

  /** Every part occurs in the joined string. */
  lemma {:induction false} JoinContainsPart(parts: seq<string>, sep: string, k: nat)
    requires k < |parts|
    ensures Contains(Join(parts, sep), parts[k])
    decreases |parts|
  {
    if |parts| == 1 {
      ContainsMiddle("", parts[0], "");
      assert "" + parts[0] + "" == parts[0];
    } else if k == 0 {
      ContainsMiddle("", parts[0], sep + Join(parts[1..], sep));
      assert "" + parts[0] + (sep + Join(parts[1..], sep)) == Join(parts, sep);
    } else {
      JoinContainsPart(parts[1..], sep, k - 1);
      ContainsWithin(Join(parts[1..], sep), parts[k], parts[0] + sep, "");
      assert parts[0] + sep + Join(parts[1..], sep) + "" == Join(parts, sep);
    }
  }

  /** A character that is in no part and not in the separator is not in the join. */
  lemma {:induction false} JoinAvoids(parts: seq<string>, sep: string, c: char)
    requires c !in sep
    requires forall i :: 0 <= i < |parts| ==> c !in parts[i]
    ensures c !in Join(parts, sep)
    decreases |parts|
  {
    if |parts| > 1 {
      JoinAvoids(parts[1..], sep, c);
    }
  }

  lemma {:induction false} JoinFirst(parts: seq<string>, sep: string)
    requires parts != [] && parts[0] != []
    ensures Join(parts, sep) != [] && Join(parts, sep)[0] == parts[0][0]
  {
  }

  lemma {:induction false} JoinLast(parts: seq<string>, sep: string)
    requires parts != [] && parts[|parts| - 1] != []
    ensures var j := Join(parts, sep); j != [] && j[|j| - 1] == parts[|parts| - 1][|parts[|parts| - 1]| - 1]
    decreases |parts|
  {
    if |parts| > 1 {
      JoinLast(parts[1..], sep);
    }
  }

  /** The last part of a list of at least two comes after one separator. */
  lemma JoinSnoc(parts: seq<string>, sep: string)
    requires |parts| >= 2
    ensures Join(parts, sep) == Join(parts[..|parts| - 1], sep) + sep + parts[|parts| - 1]
  {
    assert parts == parts[..|parts| - 1] + [parts[|parts| - 1]];
    JoinAppend(parts[..|parts| - 1], [parts[|parts| - 1]], sep);
  }

  lemma JoinStartsWith(parts: seq<string>, sep: string)
    requires |parts| >= 2
    ensures StartsWith(Join(parts, sep), parts[0] + sep)
  {
    StartsWithParts(Join(parts, sep), parts[0] + sep, Join(parts[1..], sep));
  }

  // ---------- split ----------

  /** `s.split(sep)` for a one-character separator: always at least one piece,
      and no piece contains the separator. */
  function Split(s: string, sep: char): (r: seq<string>)
    ensures |r| >= 1
    ensures forall i :: 0 <= i < |r| ==> sep !in r[i]
    decreases |s|
  {
    if |s| == 0 then [""]
    else
      var rest := Split(s[1..], sep);
      if s[0] == sep then [""] + rest
      else [[s[0]] + rest[0]] + rest[1..]
  }

  /** Splitting and joining back with the same separator restores the string. */
  lemma {:induction false} SplitJoinRoundTrip(s: string, sep: char)
    ensures Join(Split(s, sep), [sep]) == s
    decreases |s|
  {
    if |s| > 0 {
      var rest := Split(s[1..], sep);
      SplitJoinRoundTrip(s[1..], sep);
      if s[0] == sep {
        assert ([""] + rest)[1..] == rest;
      } else if |rest| == 1 {
        assert Join(rest, [sep]) == rest[0];
      } else {
        var r := [[s[0]] + rest[0]] + rest[1..];
        assert r[1..] == rest[1..];
        assert Join(rest, [sep]) == rest[0] + [sep] + Join(rest[1..], [sep]);
      }
    }
  }

  lemma {:induction false} SplitWithoutSeparator(s: string, sep: char)
    requires sep !in s
    ensures Split(s, sep) == [s]
    decreases |s|
  {
    if |s| > 0 {
      SplitWithoutSeparator(s[1..], sep);
      assert [s[0]] + s[1..] == s;
    }
  }

  /** One step of `Split`: the first character either ends the first piece or joins it. */
  lemma SplitCons(c: char, t: string, sep: char)
    ensures Split([c] + t, sep) ==
      if c == sep then [""] + Split(t, sep) else [[c] + Split(t, sep)[0]] + Split(t, sep)[1..]
  {
    var s := [c] + t;
    assert s[0] == c && s[1..] == t;
  }

  lemma MergeFirst(x: string, p: seq<string>, q: seq<string>)
    requires |p| >= 1
    ensures [x + (p + q)[0]] + (p + q)[1..] == ([x + p[0]] + p[1..]) + q
  {
    assert (p + q)[0] == p[0];
    assert (p + q)[1..] == p[1..] + q;
  }

  /** A separator in the middle cuts the pieces exactly there. */
  lemma {:induction false} SplitConcat(a: string, b: string, sep: char)
    ensures Split(a + [sep] + b, sep) == Split(a, sep) + Split(b, sep)
    decreases |a|
  {
    if a == [] {
      assert a + [sep] + b == [sep] + b;
      SplitCons(sep, b, sep);
    } else {
      SplitConcat(a[1..], b, sep);
      assert a == [a[0]] + a[1..];
      assert a + [sep] + b == [a[0]] + (a[1..] + [sep] + b);
      if a[0] == sep {
        SplitConcatSep(a[1..], b, sep);
      } else {
        SplitConcatChar(a[0], a[1..], b, sep);
      }
    }
  }

  /** The step of `SplitConcat` for a separator in front. */
  lemma SplitConcatSep(a: string, b: string, sep: char)
    requires Split(a + [sep] + b, sep) == Split(a, sep) + Split(b, sep)
    ensures Split([sep] + (a + [sep] + b), sep) == Split([sep] + a, sep) + Split(b, sep)
  {
    var pa, pb := Split(a, sep), Split(b, sep);
    SplitCons(sep, a + [sep] + b, sep);
    SplitCons(sep, a, sep);
    Associative([""], pa, pb);
  }

  lemma Associative<T>(x: seq<T>, y: seq<T>, z: seq<T>)
    ensures x + (y + z) == (x + y) + z
  {
  }

  lemma HeadTail<T>(s: seq<T>)
    requires s != []
    ensures s == [s[0]] + s[1..]
  {
  }

  /** The step of `SplitConcat` for any other character in front. */
  lemma SplitConcatChar(c: char, a: string, b: string, sep: char)
    requires c != sep
    requires Split(a + [sep] + b, sep) == Split(a, sep) + Split(b, sep)
    ensures Split([c] + (a + [sep] + b), sep) == Split([c] + a, sep) + Split(b, sep)
  {
    var pa, pb := Split(a, sep), Split(b, sep);
    SplitCons(c, a + [sep] + b, sep);
    SplitCons(c, a, sep);
    MergeFirst([c], pa, pb);
  }

  /** The pieces of every string of a list, in order. */
  function SplitAll(parts: seq<string>, sep: char): seq<string>
  {
    if |parts| == 0 then [] else Split(parts[0], sep) + SplitAll(parts[1..], sep)
  }

  lemma {:induction false} SplitAllAppend(a: seq<string>, b: seq<string>, sep: char)
    ensures SplitAll(a + b, sep) == SplitAll(a, sep) + SplitAll(b, sep)
    decreases |a|
  {
    if a == [] {
      assert a + b == b;
    } else {
      assert (a + b)[0] == a[0];
      assert (a + b)[1..] == a[1..] + b;
      SplitAllAppend(a[1..], b, sep);
    }
  }

  /** Splitting a joined list on its separator gives the pieces of its parts. */
  lemma {:induction false} SplitOfJoin(parts: seq<string>, sep: char)
    requires parts != []
    ensures Split(Join(parts, [sep]), sep) == SplitAll(parts, sep)
    decreases |parts|
  {
    if |parts| == 1 {
      assert SplitAll(parts[1..], sep) == [];
    } else {
      SplitOfJoin(parts[1..], sep);
      SplitConcat(parts[0], Join(parts[1..], [sep]), sep);
    }
  }

  /** Parts without the separator are their own pieces. */
  lemma {:induction false} SplitAllOfSingles(parts: seq<string>, sep: char)
    requires forall i :: 0 <= i < |parts| ==> sep !in parts[i]
    ensures SplitAll(parts, sep) == parts
    decreases |parts|
  {
    if parts != [] {
      SplitWithoutSeparator(parts[0], sep);
      SplitAllOfSingles(parts[1..], sep);
      assert [parts[0]] + parts[1..] == parts;
    }
  }

  // ---------- integers ----------

  predicate IsDigit(c: char) {
    '0' <= c <= '9'
  }

  /** Decimal digits of a natural number, most significant first, no leading zeros. */
  function NatDigits(n: nat): (r: string)
    ensures r != []
    ensures forall i :: 0 <= i < |r| ==> IsDigit(r[i])
    ensures |r| > 1 ==> r[0] != '0'
    decreases n
  {
    var d := (('0' as int) + n % 10) as char;
    if n < 10 then [d] else NatDigits(n / 10) + [d]
  }

  /** Python's `str(n)` for an `int`. */
  function DecimalString(n: int): (r: string)
    ensures r != []
    ensures r[0] == '-' <==> n < 0
    ensures forall i :: (if n < 0 then 1 else 0) <= i < |r| ==> IsDigit(r[i])
  {
    if n < 0 then "-" + NatDigits(-n) else NatDigits(n)
  }

  /** The value of a string of decimal digits. */
  function DigitsValue(s: string): int
    requires forall i :: 0 <= i < |s| ==> IsDigit(s[i])
  {
    if s == [] then 0 else 10 * DigitsValue(s[..|s| - 1]) + (s[|s| - 1] as int - '0' as int)
  }

  /** Python's `int(s)` on an optionally signed decimal literal. */
  function ParseDecimal(s: string): int
    requires s != []
    requires forall i :: (if s[0] == '-' then 1 else 0) <= i < |s| ==> IsDigit(s[i])
  {
    if s[0] == '-' then -DigitsValue(s[1..]) else DigitsValue(s)
  }

  lemma {:induction false} DigitsValueOfNatDigits(n: nat)
    ensures DigitsValue(NatDigits(n)) == n
    decreases n
  {
    if n >= 10 {
      var r := NatDigits(n);
      assert r[..|r| - 1] == NatDigits(n / 10);
      DigitsValueOfNatDigits(n / 10);
    }
  }

  /** `int(str(n)) == n`: the decimal rendering loses nothing. */
  lemma DecimalRoundTrip(n: int)
    ensures ParseDecimal(DecimalString(n)) == n
  {
    if n < 0 {
      assert DecimalString(n)[1..] == NatDigits(-n);
      DigitsValueOfNatDigits(-n);
    } else {
      DigitsValueOfNatDigits(n);
    }
  }
}
