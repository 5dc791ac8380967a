/**
 * The JavaScript string operations the extension relies on, as total functions
 * on `seq<char>`: `trim()`, a leading-run `replace(/^[...]+/, '')`, and
 * `split(c)` on a single character.
 */
module Text {
  import opened Wrappers

  /**
   * The characters `String.prototype.trim` removes and the regular-expression
   * class `\s` matches: the ECMAScript WhiteSpace and LineTerminator code points.
   * The lemmas below never look inside it.
   */
  predicate IsSpace(c: char)
  {
    c == '\t' || c == '\n' || c == '\U{B}' || c == '\U{C}' || c == '\r' || c == ' ' ||
    c == '\U{A0}' || c == '\U{1680}' || ('\U{2000}' <= c <= '\U{200A}') ||
    c == '\U{2028}' || c == '\U{2029}' || c == '\U{202F}' || c == '\U{205F}' ||
    c == '\U{3000}' || c == '\U{FEFF}'
  }

  /** U+2013, the en dash. */
  const EnDash: char := '\U{2013}'

  /** The regular-expression class `[\s–-]`: whitespace, en dash or hyphen-minus. */
  predicate IsTitleSeparator(c: char)
  {
    IsSpace(c) || c == EnDash || c == '-'
  }

  /** The character classes the extension strips: `\s`, and `[\s–-]`. */
  datatype CharClass = Whitespace | TitleSeparator

  predicate InClass(k: CharClass, c: char)
  {
    match k
    case Whitespace => IsSpace(c)
    case TitleSeparator => IsTitleSeparator(c)
  }

  /** Removes the longest prefix of `s` whose characters are all in class `k`. */
  function DropLeading(s: string, k: CharClass): (r: string)
    ensures |r| <= |s|
    ensures forall i :: 0 <= i < |s| - |r| ==> InClass(k, s[i])
    ensures r == [] || !InClass(k, r[0])
    decreases |s|
  {
    if s != [] && InClass(k, s[0]) then DropLeading(s[1..], k) else s
  }

  /** What `DropLeading` keeps is a suffix of its input. */
  lemma {:induction false} DropLeadingSuffix(s: string, k: CharClass)
    ensures DropLeading(s, k) == s[|s| - |DropLeading(s, k)|..]
    decreases |s|
  {
    if s != [] && InClass(k, s[0]) {
      DropLeadingSuffix(s[1..], k);
      assert s[1..][|s| - 1 - |DropLeading(s, k)|..] == s[|s| - |DropLeading(s, k)|..];
    }
  }

  /** Removes the longest suffix of `s` whose characters are all in class `k`. */
  function DropTrailing(s: string, k: CharClass): (r: string)
    ensures |r| <= |s| && r == s[..|r|]
    ensures forall i :: |r| <= i < |s| ==> InClass(k, s[i])
    ensures r == [] || !InClass(k, r[|r| - 1])
    decreases |s|
  {
    if s != [] && InClass(k, s[|s| - 1]) then DropTrailing(s[..|s| - 1], k) else s
  }

  /** `String.prototype.trim`: whitespace removed from both ends. */
  function Trim(s: string): (r: string)
    ensures |r| <= |s|
    ensures r == [] || (!IsSpace(r[0]) && !IsSpace(r[|r| - 1]))
  {
    var left := DropLeading(s, Whitespace);
    var r := DropTrailing(left, Whitespace);
    r
  }

  /** The trim is empty exactly when every character is whitespace. */
  lemma TrimEmpty(s: string)
    ensures Trim(s) == [] <==> forall i :: 0 <= i < |s| ==> IsSpace(s[i])
  {
    DropLeadingSuffix(s, Whitespace);
  }

  /** Dropping stops at once when the first character is not in class `k`. */
  lemma DropLeadingStops(s: string, k: CharClass)
    requires s == [] || !InClass(k, s[0])
    ensures DropLeading(s, k) == s
  {
  }

  /** A run of class characters in front of text that starts with none is dropped exactly. */
  lemma {:induction false} DropRun(k: CharClass, run: string, rest: string)
    requires forall i :: 0 <= i < |run| ==> InClass(k, run[i])
    requires rest == [] || !InClass(k, rest[0])
    ensures DropLeading(run + rest, k) == rest
    decreases |run|
  {
    if run == [] {
      assert run + rest == rest;
      DropLeadingStops(rest, k);
    } else {
      assert (run + rest)[0] == run[0];
      assert (run + rest)[1..] == run[1..] + rest;
      DropRun(k, run[1..], rest);
    }
  }

  /** A run of class characters behind text that ends with none is dropped exactly. */
  lemma {:induction false} DropTrailingRun(k: CharClass, rest: string, run: string)
    requires forall i :: 0 <= i < |run| ==> InClass(k, run[i])
    requires rest == [] || !InClass(k, rest[|rest| - 1])
    ensures DropTrailing(rest + run, k) == rest
    decreases |run|
  {
    if run == [] {
      assert rest + run == rest;
    } else {
      var s := rest + run;
      assert s[|s| - 1] == run[|run| - 1];
      assert s[..|s| - 1] == rest + run[..|run| - 1];
      DropTrailingRun(k, rest, run[..|run| - 1]);
    }
  }

  /**
   * `trim()` removes exactly the surrounding whitespace: text made of a
   * whitespace run, a core that neither starts nor ends with whitespace, and
   * another whitespace run trims to the core.
   */
  lemma TrimStrips(lead: string, core: string, trail: string)
    requires forall i :: 0 <= i < |lead| ==> IsSpace(lead[i])
    requires forall i :: 0 <= i < |trail| ==> IsSpace(trail[i])
    requires core != [] && !IsSpace(core[0]) && !IsSpace(core[|core| - 1])
    ensures Trim(lead + core + trail) == core
  {
    assert lead + core + trail == lead + (core + trail);
    assert (core + trail)[0] == core[0];
    DropRun(Whitespace, lead, core + trail);
    DropTrailingRun(Whitespace, core, trail);
  }

  /**
   * The trim is a slice of the text, and everything in front of it and behind
   * it is whitespace.
   */
  lemma TrimSlice(s: string)
    ensures exists a :: 0 <= a && a + |Trim(s)| <= |s| && Trim(s) == s[a..][..|Trim(s)|] &&
                        (forall i :: 0 <= i < a ==> IsSpace(s[i])) &&
                        (forall i :: a + |Trim(s)| <= i < |s| ==> IsSpace(s[i]))
  {
    DropLeadingSuffix(s, Whitespace);
    var left := DropLeading(s, Whitespace);
    var a := |s| - |left|;
    var r := Trim(s);
    assert r == left[..|r|];
    assert r == s[a..][..|r|];
    assert forall i :: a + |r| <= i < |s| ==> s[i] == left[i - a];
  }

  /** Text that neither starts nor ends with whitespace is its own trim. */
  lemma TrimTrimmed(s: string)
    requires s == [] || (!IsSpace(s[0]) && !IsSpace(s[|s| - 1]))
    ensures Trim(s) == s
  {
    DropLeadingStops(s, Whitespace);
  }

  /** Trimming twice is trimming once. */
  lemma TrimIdempotent(s: string)
    ensures Trim(Trim(s)) == Trim(s)
  {
    TrimTrimmed(Trim(s));
  }

  /**
   * Splits `s` at the first occurrence of `c`: the text before it, and the text
   * after it when `c` occurs at all.
   */
  function BreakAt(s: string, c: char): (r: (string, Option<string>))
    ensures c !in r.0
    ensures r.1.None? ==> r.0 == s
    ensures r.1.Some? ==> s == r.0 + [c] + r.1.value
    decreases |s|
  {
    if s == [] then ([], None)
    else if s[0] == c then ([], Some(s[1..]))
    else
      var (before, after) := BreakAt(s[1..], c);
      ([s[0]] + before, after)
  }

  /** `c` occurs in `s` exactly when `BreakAt` finds a separator. */
  lemma BreakAtFinds(s: string, c: char)
    ensures BreakAt(s, c).1.Some? <==> c in s
  {
    var r := BreakAt(s, c);
    if r.1.Some? {
      assert s[|r.0|] == c;
    }
  }

  /** Breaking `h + [c] + t` where `h` holds no `c` gives back `h` and `t`. */
  lemma {:induction false} BreakAtJoin(h: string, c: char, t: string)
    requires c !in h
    ensures BreakAt(h + [c] + t, c) == (h, Some(t))
  {
    if h != [] {
      assert (h + [c] + t)[1..] == h[1..] + [c] + t;
      assert h[0] != c && (h + [c] + t)[0] == h[0];
      BreakAtJoin(h[1..], c, t);
      assert [h[0]] + h[1..] == h;
    } else {
      assert (h + [c] + t)[1..] == t;
    }
  }

  /** The inverse of `SplitOn`: the pieces glued back with `c` between them. */
  function JoinWith(pieces: seq<string>, c: char): string
    requires |pieces| >= 1
  {
    if |pieces| == 1 then pieces[0] else pieces[0] + [c] + JoinWith(pieces[1..], c)
  }

  /** Joining one more piece puts a separator and the piece at the end. */
  lemma {:induction false} JoinWithSnoc(pieces: seq<string>, c: char, x: string)
    requires |pieces| >= 1
    ensures JoinWith(pieces + [x], c) == JoinWith(pieces, c) + [c] + x
    decreases |pieces|
  {
    if |pieces| > 1 {
      assert (pieces + [x])[1..] == pieces[1..] + [x];
      JoinWithSnoc(pieces[1..], c, x);
    }
  }

  /** Joining with an empty piece at both ends puts a separator at both ends. */
  lemma JoinPadded(pieces: seq<string>, c: char)
    requires |pieces| >= 1
    ensures JoinWith([[]] + pieces + [[]], c) == [c] + JoinWith(pieces, c) + [c]
  {
    var padded := [[]] + pieces + [[]];
    JoinWithSnoc(pieces, c, []);
    assert padded[1..] == pieces + [[]];
  }

  /** A character absent from a join is absent from every piece. */
  lemma {:induction false} JoinWithKeepsOut(pieces: seq<string>, c: char, x: char)
    requires |pieces| >= 1
    requires x !in JoinWith(pieces, c)
    ensures forall j :: 0 <= j < |pieces| ==> x !in pieces[j]
    decreases |pieces|
  {
    if |pieces| > 1 {
      JoinWithKeepsOut(pieces[1..], c, x);
      forall j | 1 <= j < |pieces| ensures x !in pieces[j] {
        assert pieces[j] == pieces[1..][j - 1];
      }
    }
  }

  /** `String.prototype.split(c)`: the maximal `c`-free pieces between occurrences of `c`. */
  function SplitOn(s: string, c: char): (r: seq<string>)
    ensures |r| >= 1
    ensures forall i :: 0 <= i < |r| ==> c !in r[i]
    ensures JoinWith(r, c) == s
    decreases |s|
  {
    var (before, after) := BreakAt(s, c);
    match after
    case None => [before]
    case Some(rest) => [before] + SplitOn(rest, c)
  }

  /** Splitting a join of `c`-free pieces gives back the pieces. */
  lemma {:induction false} SplitJoin(pieces: seq<string>, c: char)
    requires |pieces| >= 1
    requires forall i :: 0 <= i < |pieces| ==> c !in pieces[i]
    ensures SplitOn(JoinWith(pieces, c), c) == pieces
    decreases |pieces|
  {
    if |pieces| == 1 {
      assert c !in pieces[0];
    } else {
      var rest := JoinWith(pieces[1..], c);
      BreakAtJoin(pieces[0], c, rest);
      SplitJoin(pieces[1..], c);
      assert [pieces[0]] + pieces[1..] == pieces;
    }
  }
}
