/**
 * The JavaScript string built-ins the shell relies on, over Dafny strings:
 * `trim`, `split(/\s+/)`, `Array.join`, `padEnd`, `repeat`, ASCII case
 * mapping and splitting displayed text into lines at '\n'.
 */
module Text {

  /** ECMAScript WhiteSpace and LineTerminator code points: the set that both
      `String.prototype.trim` and the regular-expression class `\s` use. */
  predicate IsWs(c: char) {
    || c == ' ' || c == '\t' || c == '\n' || c == '\r'
    || c == '\U{B}' || c == '\U{C}' || c == '\U{A0}' || c == '\U{1680}'
    || ('\U{2000}' <= c <= '\U{200A}')
    || c == '\U{2028}' || c == '\U{2029}' || c == '\U{202F}' || c == '\U{205F}'
    || c == '\U{3000}' || c == '\U{FEFF}'
  }

  /** Empty or made of whitespace only. */
  predicate IsBlank(s: string) {
    forall i :: 0 <= i < |s| ==> IsWs(s[i])
  }

  /** Contains no whitespace at all. */
  predicate NoWs(s: string) {
    forall i :: 0 <= i < |s| ==> !IsWs(s[i])
  }

  /** The non-whitespace characters of `s`, in order. */
  function RemoveWs(s: string): string {
    if s == [] then [] else (if IsWs(s[0]) then [] else [s[0]]) + RemoveWs(s[1..])
  }

  /** All strings of `parts`, one after the other. */
  function Concat(parts: seq<string>): string {
    if parts == [] then [] else parts[0] + Concat(parts[1..])
  }

  /** `Array.prototype.join`: the parts with `sep` between neighbours. */
  function Join(parts: seq<string>, sep: string): string {
    if |parts| == 0 then ""
    else if |parts| == 1 then parts[0]
    else parts[0] + sep + Join(parts[1..], sep)
  }

  /** `String.prototype.repeat` for a one-character string. */
  function Repeat(c: char, n: nat): (r: string)
    ensures |r| == n && forall i :: 0 <= i < n ==> r[i] == c
  {
    if n == 0 then [] else [c] + Repeat(c, n - 1)
  }

  /** `String.prototype.padEnd` with the default filler: pads with spaces up
      to length `n`, and leaves a string that is already that long alone. */
  function PadEnd(s: string, n: nat): (r: string)
    ensures |r| == if |s| >= n then |s| else n
    ensures r[..|s|] == s
    ensures forall i :: |s| <= i < |r| ==> r[i] == ' '
  {
    if |s| >= n then s else s + Repeat(' ', n - |s|)
  }

  /** ASCII case mapping. */
  function LowerChar(c: char): char {
    if 'A' <= c <= 'Z' then (c as int + 32) as char else c
  }

  function UpperChar(c: char): char {
    if 'a' <= c <= 'z' then (c as int - 32) as char else c
  }

  /** `String.prototype.toLowerCase`, restricted to ASCII letters. */
  function Lower(s: string): (r: string)
    ensures |r| == |s|
    ensures forall i :: 0 <= i < |s| ==> r[i] == LowerChar(s[i])
  {
    seq(|s|, i requires 0 <= i < |s| => LowerChar(s[i]))
  }

  /** Lower-casing turns each ASCII capital into its small letter (which
      upper-cases back to the capital) and leaves every other character
      alone. */
  lemma LowerLetters(s: string)
    ensures forall i :: 0 <= i < |s| && 'A' <= s[i] <= 'Z' ==>
      'a' <= Lower(s)[i] <= 'z' && UpperChar(Lower(s)[i]) == s[i]
    ensures forall i :: 0 <= i < |s| && !('A' <= s[i] <= 'Z') ==> Lower(s)[i] == s[i]
  {
  }

  /** Lower-casing twice is lower-casing once. */
  lemma LowerIdempotent(s: string)
    ensures Lower(Lower(s)) == Lower(s)
  {
  }

  // ---------------------------------------------------------------------
  // trim

  /** Removes the leading whitespace run: what remains is a suffix of `s`
      that is empty or starts with a non-whitespace character, and
      everything removed was whitespace. */
  function TrimStart(s: string): (r: string)
    ensures |r| <= |s| && r == s[|s| - |r|..]
    ensures IsBlank(s[..|s| - |r|])
    ensures r == [] || !IsWs(r[0])
    ensures s != [] && IsWs(s[0]) ==> |r| < |s|
  {
    if s != [] && IsWs(s[0]) then TrimStart(s[1..]) else s
  }

  /** Removes the trailing whitespace run, symmetrically. */
  function TrimEnd(s: string): (r: string)
    ensures |r| <= |s| && r == s[..|r|]
    ensures IsBlank(s[|r|..])
    ensures r == [] || !IsWs(r[|r| - 1])
  {
    if s != [] && IsWs(s[|s| - 1]) then TrimEnd(s[..|s| - 1]) else s
  }

  /** `String.prototype.trim`: empty exactly for blank input, otherwise it
      starts and ends with non-whitespace, and it keeps every non-whitespace
      character of `s`. */
  function Trim(s: string): (r: string)
    ensures r == [] <==> IsBlank(s)
    ensures r != [] ==> !IsWs(r[0]) && !IsWs(r[|r| - 1])
    ensures RemoveWs(r) == RemoveWs(s)
  {
    TrimFacts(s);
    TrimEnd(TrimStart(s))
  }

  lemma TrimFacts(s: string)
    ensures TrimEnd(TrimStart(s)) == [] <==> IsBlank(s)
    ensures var r := TrimEnd(TrimStart(s)); r != [] ==> !IsWs(r[0]) && !IsWs(r[|r| - 1])
    ensures RemoveWs(TrimEnd(TrimStart(s))) == RemoveWs(s)
  {
    var t := TrimStart(s);
    var r := TrimEnd(t);
    TrimStartEmpty(s);
    TrimEndEmpty(t);
    if r != [] {
      assert r[0] == t[0];
    }
    TrimStartKeepsText(s);
    TrimEndKeepsText(t);
  }

  lemma TrimStartEmpty(s: string)
    ensures TrimStart(s) == [] <==> IsBlank(s)
  {
    var t := TrimStart(s);
    if t == [] {
      assert s[..|s|] == s;
    } else {
      assert t[0] == s[|s| - |t|];
    }
  }

  lemma TrimEndEmpty(s: string)
    ensures TrimEnd(s) == [] <==> IsBlank(s)
  {
    var t := TrimEnd(s);
    if t == [] {
      assert s[0..] == s;
    } else {
      assert t[|t| - 1] == s[|t| - 1];
    }
  }

  lemma TrimStartKeepsText(s: string)
    ensures RemoveWs(TrimStart(s)) == RemoveWs(s)
  {
    var t := TrimStart(s);
    var k := |s| - |t|;
    assert s == s[..k] + t;
    RemoveWsAppend(s[..k], t);
    RemoveWsBlank(s[..k]);
  }

  lemma TrimEndKeepsText(s: string)
    ensures RemoveWs(TrimEnd(s)) == RemoveWs(s)
  {
    var t := TrimEnd(s);
    assert s == t + s[|t|..];
    RemoveWsAppend(t, s[|t|..]);
    RemoveWsBlank(s[|t|..]);
  }

  lemma {:induction false} RemoveWsAppend(a: string, b: string)
    ensures RemoveWs(a + b) == RemoveWs(a) + RemoveWs(b)
  {
    if a == [] {
      assert a + b == b;
    } else {
      assert (a + b)[0] == a[0];
      assert (a + b)[1..] == a[1..] + b;
      RemoveWsAppend(a[1..], b);
    }
  }

  lemma {:induction false} RemoveWsBlank(s: string)
    requires IsBlank(s)
    ensures RemoveWs(s) == []
  {
    if s != [] {
      RemoveWsBlank(s[1..]);
    }
  }

  lemma {:induction false} RemoveWsNoWs(s: string)
    requires NoWs(s)
    ensures RemoveWs(s) == s
  {
    if s != [] {
      RemoveWsNoWs(s[1..]);
    }
  }

  /** A whitespace prefix is dropped by TrimStart. */
  lemma {:induction false} TrimStartBlankPrefix(pre: string, s: string)
    requires IsBlank(pre)
    ensures TrimStart(pre + s) == TrimStart(s)
  {
    if pre == [] {
      assert pre + s == s;
    } else {
      assert (pre + s)[0] == pre[0];
      assert (pre + s)[1..] == pre[1..] + s;
      TrimStartBlankPrefix(pre[1..], s);
    }
  }

  /** A whitespace suffix is dropped by TrimEnd. */
  lemma {:induction false} TrimEndBlankSuffix(s: string, post: string)
    requires IsBlank(post)
    ensures TrimEnd(s + post) == TrimEnd(s)
  {
    if post == [] {
      assert s + post == s;
    } else {
      var p := post[..|post| - 1];
      assert (s + post)[|s + post| - 1] == post[|post| - 1];
      assert (s + post)[..|s + post| - 1] == s + p;
      TrimEndBlankSuffix(s, p);
    }
  }

  /** Trimming a string padded with whitespace gives back the string, when
      it starts and ends with non-whitespace. */
  lemma TrimPadded(pre: string, s: string, post: string)
    requires IsBlank(pre) && IsBlank(post)
    requires s != [] && !IsWs(s[0]) && !IsWs(s[|s| - 1])
    ensures Trim(pre + s + post) == s
  {
    assert pre + s + post == pre + (s + post);
    TrimStartBlankPrefix(pre, s + post);
    assert TrimStart(pre + s + post) == s + post;
    TrimEndBlankSuffix(s, post);
  }

  // ---------------------------------------------------------------------
  // split(/\s+/)

  /** The longest prefix of `s` without whitespace. */
  function Word(s: string): (w: string)
    ensures |w| <= |s| && w == s[..|w|] && NoWs(w)
    ensures |w| < |s| ==> IsWs(s[|w|])
  {
    if s == [] || IsWs(s[0]) then [] else [s[0]] + Word(s[1..])
  }

  /** `s.split(/\s+/)`: the fields between maximal whitespace runs. A
      leading (trailing) run yields an empty first (last) field, and the
      empty string yields the single field "". */
  function SplitWs(s: string): (r: seq<string>)
    ensures |r| >= 1
    ensures forall i :: 0 <= i < |r| ==> NoWs(r[i])
    decreases |s|
  {
    var w := Word(s);
    if |w| == |s| then [w] else [w] + SplitWs(TrimStart(s[|w|..]))
  }

  lemma {:induction false} WordOfNoWs(a: string, b: string)
    requires NoWs(a)
    requires b == [] || IsWs(b[0])
    ensures Word(a + b) == a
  {
    if a != [] {
      assert (a + b)[1..] == a[1..] + b;
      WordOfNoWs(a[1..], b);
    } else {
      assert a + b == b;
    }
  }

  /** Splitting loses only the whitespace: the fields, put back together,
      are the non-whitespace characters of `s`. */
  lemma {:induction false} SplitKeepsText(s: string)
    ensures Concat(SplitWs(s)) == RemoveWs(s)
    decreases |s|
  {
    var w := Word(s);
    RemoveWsNoWs(w);
    if |w| == |s| {
      assert s == w;
      assert Concat([w]) == w + Concat([]);
    } else {
      var rest := TrimStart(s[|w|..]);
      WordThenRest(s);
      SplitKeepsText(rest);
      var fields := SplitWs(rest);
      assert SplitWs(s) == [w] + fields;
      assert ([w] + fields)[1..] == fields;
    }
  }

  /** The non-whitespace text of `s` is its first word followed by that of
      what follows the next whitespace run. */
  lemma WordThenRest(s: string)
    requires |Word(s)| < |s|
    ensures RemoveWs(s) == Word(s) + RemoveWs(TrimStart(s[|Word(s)|..]))
  {
    var w := Word(s);
    var tail := s[|w|..];
    assert s == w + tail;
    RemoveWsAppend(w, tail);
    RemoveWsNoWs(w);
    TrimStartKeepsText(tail);
  }

  /** A string without surrounding whitespace splits into non-empty fields. */
  lemma {:induction false} SplitTrimmedNonEmpty(s: string)
    requires s != [] && !IsWs(s[0]) && !IsWs(s[|s| - 1])
    ensures forall i :: 0 <= i < |SplitWs(s)| ==> SplitWs(s)[i] != []
    decreases |s|
  {
    var w := Word(s);
    assert w != [];
    if |w| < |s| {
      var tail := s[|w|..];
      var rest := TrimStart(tail);
      assert tail[|tail| - 1] == s[|s| - 1];
      assert rest != [] by {
        TrimStartEmpty(tail);
      }
      assert rest[|rest| - 1] == tail[|tail| - 1];
      SplitTrimmedNonEmpty(rest);
      assert SplitWs(s) == [w] + SplitWs(rest);
    }
  }

  /** A word, a whitespace run of any length, and a rest that starts with
      non-whitespace split as the word followed by the fields of the rest. */
  lemma SplitRun(w: string, sep: string, rest: string)
    requires w != [] && NoWs(w)
    requires sep != [] && IsBlank(sep)
    requires rest != [] && !IsWs(rest[0])
    ensures SplitWs(w + sep + rest) == [w] + SplitWs(rest)
  {
    var s := w + sep + rest;
    assert s == w + (sep + rest);
    assert (sep + rest)[0] == sep[0];
    WordOfNoWs(w, sep + rest);
    assert s[|w|..] == sep + rest;
    TrimStartBlankPrefix(sep, rest);
  }

  /** The words with the separators between neighbours: `seps[i]` sits
      between `words[i]` and `words[i + 1]`. */
  function Interleave(words: seq<string>, seps: seq<string>): string
    requires |words| == |seps| + 1
    decreases |seps|
  {
    if seps == [] then words[0] else words[0] + seps[0] + Interleave(words[1..], seps[1..])
  }

  /** Whitespace runs between the words. */
  predicate Separators(seps: seq<string>) {
    forall i :: 0 <= i < |seps| ==> seps[i] != [] && IsBlank(seps[i])
  }

  /** Non-empty words without whitespace. */
  predicate Words(words: seq<string>) {
    forall i :: 0 <= i < |words| ==> words[i] != [] && NoWs(words[i])
  }

  /** Non-empty whitespace-free words separated by whitespace runs of any
      length and mix (spaces, tabs, line breaks) split into those words. */
  lemma {:induction false} SplitSeparated(words: seq<string>, seps: seq<string>)
    requires |words| == |seps| + 1
    requires Words(words) && Separators(seps)
    ensures SplitWs(Interleave(words, seps)) == words
    decreases |seps|
  {
    if seps == [] {
      SplitOneWord(words[0]);
    } else {
      var tail, stail := words[1..], seps[1..];
      forall i | 0 <= i < |tail|
        ensures tail[i] != [] && NoWs(tail[i])
      {
        assert tail[i] == words[i + 1];
      }
      forall i | 0 <= i < |stail|
        ensures stail[i] != [] && IsBlank(stail[i])
      {
        assert stail[i] == seps[i + 1];
      }
      var rest := Interleave(tail, stail);
      InterleaveStartsWith(tail, stail);
      SplitRun(words[0], seps[0], rest);
      SplitSeparated(tail, stail);
      assert words == [words[0]] + tail;
    }
  }

  /** A single whitespace-free word splits into itself. */
  lemma SplitOneWord(w: string)
    requires w != [] && NoWs(w)
    ensures SplitWs(w) == [w]
  {
    WordOfNoWs(w, []);
    assert w + [] == w;
  }

  /** An interleaving starts with its first word's first character and
      ends with its last word's last character. */
  lemma {:induction false} InterleaveStartsWith(words: seq<string>, seps: seq<string>)
    requires |words| == |seps| + 1 && forall i :: 0 <= i < |words| ==> words[i] != []
    ensures var s := Interleave(words, seps);
      s != [] && s[0] == words[0][0] && s[|s| - 1] == words[|words| - 1][|words[|words| - 1]| - 1]
    decreases |seps|
  {
    if seps != [] {
      var tail := words[1..];
      assert forall i :: 0 <= i < |tail| ==> tail[i] == words[i + 1];
      InterleaveStartsWith(tail, seps[1..]);
    }
  }

  /** The same separator between every pair of neighbours. */
  function Uniform(sep: string, n: nat): (r: seq<string>)
    ensures |r| == n && forall i :: 0 <= i < n ==> r[i] == sep
  {
    seq(n, _ => sep)
  }

  /** `Array.prototype.join` is the interleaving with one separator
      throughout. */
  lemma {:induction false} JoinInterleave(words: seq<string>, sep: string)
    requires |words| >= 1
    ensures Join(words, sep) == Interleave(words, Uniform(sep, |words| - 1))
    decreases |words|
  {
    if |words| > 1 {
      var seps := Uniform(sep, |words| - 1);
      assert seps[1..] == Uniform(sep, |words| - 2);
      JoinInterleave(words[1..], sep);
    }
  }

  /** Joining non-empty whitespace-free words with single spaces and
      splitting again gives the words back. */
  lemma SplitJoin(words: seq<string>)
    requires |words| >= 1 && Words(words)
    ensures SplitWs(Join(words, " ")) == words
  {
    var seps := Uniform(" ", |words| - 1);
    JoinInterleave(words, " ");
    assert Separators(seps) by {
      forall i | 0 <= i < |seps| ensures seps[i] != [] && IsBlank(seps[i]) {
        assert seps[i] == " ";
      }
    }
    SplitSeparated(words, seps);
  }

  /** Joining with a separator is empty exactly when there is nothing to
      join or a single empty part. */
  lemma JoinEmpty(parts: seq<string>, sep: string)
    requires sep != []
    ensures Join(parts, sep) == [] <==> |parts| == 0 || (|parts| == 1 && parts[0] == [])
  {
  }

  // ---------------------------------------------------------------------
  // lines

  /** The lines a renderer shows for a text: `s.split("\n")`. */
  function Lines(s: string): (r: seq<string>)
    ensures |r| >= 1
    ensures forall i :: 0 <= i < |r| ==> '\n' !in r[i]
  {
    if s == [] then [[]]
    else
      var rest := Lines(s[1..]);
      if s[0] == '\n' then [[]] + rest else [[s[0]] + rest[0]] + rest[1..]
  }

  /** The lines of each text in turn. */
  function AllLines(texts: seq<string>): seq<string> {
    if texts == [] then [] else Lines(texts[0]) + AllLines(texts[1..])
  }

  /** A text with no line break is one line. */
  lemma {:induction false} LinesOfLine(s: string)
    requires '\n' !in s
    ensures Lines(s) == [s]
  {
    if s != [] {
      assert s[0] in s;
      assert forall c :: c in s[1..] ==> c in s;
      LinesOfLine(s[1..]);
      assert [s[0]] + s[1..] == s;
    }
  }

  /** A line break between two texts separates their lines. */
  lemma {:induction false} LinesBreak(a: string, b: string)
    ensures Lines(a + "\n" + b) == Lines(a) + Lines(b)
  {
    if a == [] {
      assert a + "\n" + b == "\n" + b;
      assert ("\n" + b)[1..] == b;
    } else {
      assert (a + "\n" + b)[1..] == a[1..] + "\n" + b;
      LinesBreak(a[1..], b);
    }
  }

  /** The lines of texts joined by line breaks are the lines of each text. */
  lemma {:induction false} LinesOfJoin(texts: seq<string>)
    requires |texts| >= 1
    ensures Lines(Join(texts, "\n")) == AllLines(texts)
  {
    if |texts| == 1 {
      assert AllLines(texts) == Lines(texts[0]) + AllLines([]);
    } else {
      LinesBreak(texts[0], Join(texts[1..], "\n"));
      LinesOfJoin(texts[1..]);
    }
  }

  /** Joining single lines by line breaks gives exactly those lines. */
  lemma {:induction false} LinesOfJoinedLines(lines: seq<string>)
    requires |lines| >= 1
    requires forall i :: 0 <= i < |lines| ==> '\n' !in lines[i]
    ensures Lines(Join(lines, "\n")) == lines
  {
    LinesOfJoin(lines);
    AllLinesOfLines(lines);
  }

  lemma {:induction false} AllLinesOfLines(lines: seq<string>)
    requires forall i :: 0 <= i < |lines| ==> '\n' !in lines[i]
    ensures AllLines(lines) == lines
  {
    if lines != [] {
      LinesOfLine(lines[0]);
      AllLinesOfLines(lines[1..]);
    }
  }
}
