/** The JavaScript string operations the pages rely on: `trim`, `split` on a
    one-character separator, `join`, and the `split(c).map(trim).filter(Boolean)`
    idiom used by every comma- and newline-separated input. */
module Text {

  /** The characters `String.prototype.trim` removes: ECMAScript WhiteSpace and
      LineTerminator code points. */
  predicate IsSpace(c: char) {
    c == '\t' || c == '\n' || c == '\U{000B}' || c == '\U{000C}' || c == '\r' || c == ' '
    || c == '\U{00A0}' || c == '\U{1680}' || ('\U{2000}' <= c <= '\U{200A}')
    || c == '\U{2028}' || c == '\U{2029}' || c == '\U{202F}' || c == '\U{205F}'
    || c == '\U{3000}' || c == '\U{FEFF}'
  }

  predicate AllSpace(s: string) {
    forall i :: 0 <= i < |s| ==> IsSpace(s[i])
  }

  /** Neither begins nor ends with a space: what `trim` returns. */
  predicate IsTrimmed(s: string) {
    s == [] || (!IsSpace(s[0]) && !IsSpace(s[|s| - 1]))
  }

  /** The number of spaces `s` begins with. */
  function LeadingSpaces(s: string): (n: nat)
    ensures n <= |s|
    ensures forall i :: 0 <= i < n ==> IsSpace(s[i])
    ensures n < |s| ==> !IsSpace(s[n])
  {
    if |s| > 0 && IsSpace(s[0]) then 1 + LeadingSpaces(s[1..]) else 0
  }

  /** The number of spaces `s` ends with. */
  function TrailingSpaces(s: string): (n: nat)
    ensures n <= |s|
    ensures forall i :: |s| - n <= i < |s| ==> IsSpace(s[i])
    ensures n < |s| ==> !IsSpace(s[|s| - 1 - n])
  {
    if |s| > 0 && IsSpace(s[|s| - 1]) then
      var n := TrailingSpaces(s[..|s| - 1]);
      assert forall i :: |s| - 1 - n <= i < |s| - 1 ==> s[i] == s[..|s| - 1][i];
      1 + n
    else 0
  }

  /** `s.trimStart()`: drops the leading spaces and nothing else. */
  function TrimStart(s: string): (r: string)
    ensures |r| <= |s| && r == s[|s| - |r|..]
    ensures forall i :: 0 <= i < |s| - |r| ==> IsSpace(s[i])
    ensures r == [] || !IsSpace(r[0])
  {
    s[LeadingSpaces(s)..]
  }

  /** `s.trimEnd()`: drops the trailing spaces and nothing else. */
  function TrimEnd(s: string): (r: string)
    ensures |r| <= |s| && r == s[..|r|]
    ensures forall i :: |r| <= i < |s| ==> IsSpace(s[i])
    ensures r == [] || !IsSpace(r[|r| - 1])
  {
    s[..|s| - TrailingSpaces(s)]
  }

  /** `s.trim()`: the result has no space at either end, and it is empty exactly
      when the input is nothing but spaces. */
  function Trim(s: string): (r: string)
    ensures IsTrimmed(r)
    ensures r == [] <==> AllSpace(s)
  {
    TrimEndOfTrimStart(s);
    TrimEnd(TrimStart(s))
  }

  lemma TrimEndOfTrimStart(s: string)
    ensures IsTrimmed(TrimEnd(TrimStart(s)))
    ensures TrimEnd(TrimStart(s)) == [] <==> AllSpace(s)
  {
    var t := TrimStart(s);
    var r := TrimEnd(t);
    var k := |s| - |t|;
    if r == [] {
      assert |t| == 0;
      assert k == |s|;
    } else {
      assert r[0] == t[0] == s[k];
    }
  }

  /** A string that is already trimmed is left alone, so `Trim` is idempotent. */
  lemma {:induction false} TrimTrimmed(s: string)
    requires IsTrimmed(s)
    ensures Trim(s) == s
  {
    assert TrimStart(s) == s;
    assert TrimEnd(s) == s;
  }

  lemma TrimIdempotent(s: string)
    ensures Trim(Trim(s)) == Trim(s)
  {
    TrimTrimmed(Trim(s));
  }

  lemma TrimStartPadded(w: string, t: string)
    requires AllSpace(w)
    requires t == [] || !IsSpace(t[0])
    ensures TrimStart(w + t) == t
  {
    var s := w + t;
    assert forall i :: 0 <= i < |w| ==> s[i] == w[i];
    if |t| > 0 {
      assert s[|w|] == t[0];
    }
    assert LeadingSpaces(s) == |w|;
    assert s[|w|..] == t;
  }

  /** Spaces put in front of a trimmed string are exactly what `trim` removes. */
  lemma TrimPadded(w: string, t: string)
    requires AllSpace(w) && IsTrimmed(t)
    ensures Trim(w + t) == t
  {
    TrimStartPadded(w, t);
    assert TrimEnd(t) == t;
  }

  /** `s.split(sep)` for a one-character separator: the pieces between
      separators, always at least one (the empty string splits to `[""]`). */
  function Split(s: string, sep: char): (parts: seq<string>)
    ensures |parts| >= 1
    decreases |s|
  {
    if |s| == 0 then [""]
    else if s[0] == sep then [""] + Split(s[1..], sep)
    else
      var rest := Split(s[1..], sep);
      [[s[0]] + rest[0]] + rest[1..]
  }

  /** `parts.join(sep)`. */
  function Join(parts: seq<string>, sep: string): string
    decreases |parts|
  {
    if |parts| == 0 then ""
    else if |parts| == 1 then parts[0]
    else parts[0] + sep + Join(parts[1..], sep)
  }

  lemma JoinCons(a: string, parts: seq<string>, sep: string)
    requires |parts| >= 1
    ensures Join([a + parts[0]] + parts[1..], sep) == a + Join(parts, sep)
  {
    var ps := [a + parts[0]] + parts[1..];
    assert ps[1..] == parts[1..];
  }

  /** Splitting and joining back with the same separator restores the text. */
  lemma {:induction false} JoinSplit(s: string, sep: char)
    ensures Join(Split(s, sep), [sep]) == s
    decreases |s|
  {
    if |s| == 0 {
    } else if s[0] == sep {
      var rest := Split(s[1..], sep);
      JoinSplit(s[1..], sep);
      assert ([""] + rest)[1..] == rest;
      assert s == [sep] + s[1..];
    } else {
      var rest := Split(s[1..], sep);
      JoinSplit(s[1..], sep);
      JoinCons([s[0]], rest, [sep]);
      assert s == [s[0]] + s[1..];
    }
  }

  /** The number of pieces is the number of separators plus one. */
  lemma {:induction false} SplitCount(s: string, sep: char)
    ensures |Split(s, sep)| == multiset(s)[sep] + 1
    decreases |s|
  {
    if |s| > 0 {
      SplitCount(s[1..], sep);
      assert s == [s[0]] + s[1..];
      assert multiset(s) == multiset([s[0]]) + multiset(s[1..]);
    }
  }

  lemma {:induction false} SplitNoSep(s: string, sep: char)
    requires sep !in s
    ensures Split(s, sep) == [s]
    decreases |s|
  {
    if |s| > 0 {
      assert s == [s[0]] + s[1..];
      SplitNoSep(s[1..], sep);
      assert [s[0]] + s[1..] == s;
    }
  }

  lemma {:induction false} SplitAt(a: string, sep: char, b: string)
    requires sep !in a
    ensures Split(a + [sep] + b, sep) == [a] + Split(b, sep)
    decreases |a|
  {
    var s := a + [sep] + b;
    if |a| == 0 {
      assert s == [sep] + b;
      assert s[1..] == b;
    } else {
      assert s[0] == a[0] && a[0] != sep;
      assert s[1..] == a[1..] + [sep] + b;
      assert a == [a[0]] + a[1..];
      SplitAt(a[1..], sep, b);
      assert [a[0]] + a[1..] == a;
    }
  }

  /** Every piece but the first, with `w` put in front. */
  function Prefixed(w: string, parts: seq<string>): (r: seq<string>)
    ensures |r| == |parts|
    ensures forall i :: 0 <= i < |parts| ==> r[i] == w + parts[i]
  {
    seq(|parts|, i requires 0 <= i < |parts| => w + parts[i])
  }

  /** Joining separator-free pieces with `sep` followed by the padding `w` and
      splitting on `sep` gives the pieces back, each one after the first with
      the padding in front. */
  lemma {:induction false} SplitJoin(parts: seq<string>, sep: char, w: string)
    requires |parts| >= 1
    requires sep !in w
    requires forall i :: 0 <= i < |parts| ==> sep !in parts[i]
    ensures Split(Join(parts, [sep] + w), sep) == [parts[0]] + Prefixed(w, parts[1..])
    decreases |parts|
  {
    var glue := [sep] + w;
    if |parts| == 1 {
      SplitNoSep(parts[0], sep);
    } else {
      var tail := parts[1..];
      var next := [w + tail[0]] + tail[1..];
      assert sep !in w + tail[0];
      assert forall i :: 0 <= i < |next| ==> sep !in next[i] by {
        forall i | 0 <= i < |next| ensures sep !in next[i] {
          if i > 0 { assert next[i] == parts[i + 1]; }
        }
      }
      SplitJoin(next, sep, w);
      JoinCons(w, tail, glue);
      calc {
        Join(parts, glue);
        parts[0] + glue + Join(tail, glue);
        { assert glue + Join(tail, glue) == [sep] + (w + Join(tail, glue)); }
        parts[0] + [sep] + Join(next, glue);
      }
      SplitAt(parts[0], sep, Join(next, glue));
      assert next[1..] == tail[1..];
      assert [next[0]] + Prefixed(w, next[1..]) == Prefixed(w, tail);
    }
  }

  /** `pieces.map(p => p.trim()).filter(Boolean)`. */
  function TrimNonEmpty(pieces: seq<string>): (r: seq<string>)
    ensures |r| <= |pieces|
    ensures forall i :: 0 <= i < |r| ==> r[i] != "" && IsTrimmed(r[i])
  {
    if pieces == [] then []
    else
      var t := Trim(pieces[0]);
      (if t == "" then [] else [t]) + TrimNonEmpty(pieces[1..])
  }

  /** No piece of a split holds the separator. */
  lemma {:induction false} SplitSepFree(s: string, sep: char)
    ensures forall i :: 0 <= i < |Split(s, sep)| ==> sep !in Split(s, sep)[i]
    decreases |s|
  {
    if |s| > 0 {
      SplitSepFree(s[1..], sep);
      var rest := Split(s[1..], sep);
      if s[0] != sep {
        assert sep !in [s[0]] + rest[0];
      }
    }
  }

  /** Trimming only removes characters. */
  lemma TrimKeepsOut(s: string, c: char)
    requires c !in s
    ensures c !in Trim(s)
  {
    var t := TrimStart(s);
    var r := TrimEnd(t);
    assert forall k :: 0 <= k < |r| ==> r[k] == t[k] == s[|s| - |t| + k];
  }

  lemma {:induction false} TrimNonEmptyKeepsOut(pieces: seq<string>, c: char)
    requires forall i :: 0 <= i < |pieces| ==> c !in pieces[i]
    ensures forall i :: 0 <= i < |TrimNonEmpty(pieces)| ==> c !in TrimNonEmpty(pieces)[i]
    decreases |pieces|
  {
    if pieces != [] {
      TrimKeepsOut(pieces[0], c);
      TrimNonEmptyKeepsOut(pieces[1..], c);
    }
  }

  /** `s.split(sep).map(p => p.trim()).filter(Boolean)`: the trimmed, non-empty
      pieces of the input, in order, none holding the separator. */
  function SplitTrimmed(s: string, sep: char): (r: seq<string>)
    ensures forall i :: 0 <= i < |r| ==> r[i] != "" && IsTrimmed(r[i]) && sep !in r[i]
  {
    SplitSepFree(s, sep);
    TrimNonEmptyKeepsOut(Split(s, sep), sep);
    TrimNonEmpty(Split(s, sep))
  }

  lemma {:induction false} TrimNonEmptyPrefixed(w: string, parts: seq<string>)
    requires AllSpace(w)
    requires forall i :: 0 <= i < |parts| ==> parts[i] != "" && IsTrimmed(parts[i])
    ensures TrimNonEmpty(Prefixed(w, parts)) == parts
    decreases |parts|
  {
    if parts != [] {
      var ps := Prefixed(w, parts);
      TrimPadded(w, parts[0]);
      assert ps[1..] == Prefixed(w, parts[1..]);
      TrimNonEmptyPrefixed(w, parts[1..]);
    }
  }

  /** Parsing what `join(sep + w)` renders gives the list back, provided every
      entry is trimmed, non-empty and free of the separator and the padding is
      spaces only. */
  lemma SplitTrimmedJoin(parts: seq<string>, sep: char, w: string)
    requires AllSpace(w) && sep !in w
    requires forall i :: 0 <= i < |parts| ==> parts[i] != "" && IsTrimmed(parts[i]) && sep !in parts[i]
    ensures SplitTrimmed(Join(parts, [sep] + w), sep) == parts
  {
    var text := Join(parts, [sep] + w);
    if parts == [] {
      assert text == "";
      SplitTrimmedEmpty(sep);
    } else {
      SplitJoin(parts, sep, w);
      PieceTrimming(parts, w);
      assert SplitTrimmed(text, sep) == TrimNonEmpty(Split(text, sep));
    }
  }

  /** Empty text gives no pieces. */
  lemma SplitTrimmedEmpty(sep: char)
    ensures SplitTrimmed("", sep) == []
  {
    assert Split("", sep) == [""];
    assert Trim("") == "";
    assert [""][1..] == [];
  }

  lemma PieceTrimming(parts: seq<string>, w: string)
    requires AllSpace(w) && parts != []
    requires forall i :: 0 <= i < |parts| ==> parts[i] != "" && IsTrimmed(parts[i])
    ensures TrimNonEmpty([parts[0]] + Prefixed(w, parts[1..])) == parts
  {
    var pieces := [parts[0]] + Prefixed(w, parts[1..]);
    TrimTrimmed(parts[0]);
    assert pieces[1..] == Prefixed(w, parts[1..]);
    TrimNonEmptyPrefixed(w, parts[1..]);
    assert [parts[0]] + parts[1..] == parts;
  }
}
