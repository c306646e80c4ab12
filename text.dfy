/**
 * The string operations of Python that the backend uses, on `seq<char>`:
 * `lower`, the `in` substring test, `find`/`rfind` of one character, `split()`
 * on whitespace, `join`, `startswith`, `title` and decimal formatting of integers.
 * Case mapping is ASCII only.
 */
module Text {

  predicate IsUpper(c: char) { 'A' <= c <= 'Z' }

  predicate IsLowerLetter(c: char) { 'a' <= c <= 'z' }

  predicate IsLetter(c: char) { IsUpper(c) || IsLowerLetter(c) }

  function LowerChar(c: char): (r: char)
    ensures !IsUpper(r)
    ensures !IsUpper(c) ==> r == c
  {
    if IsUpper(c) then (c as int + 32) as char else c
  }

  function UpperChar(c: char): (r: char)
    ensures !IsLowerLetter(r)
    ensures !IsLowerLetter(c) ==> r == c
  {
    if IsLowerLetter(c) then (c as int - 32) as char else c
  }

  /** `s.lower()`. */
  function Lower(s: string): (r: string)
    ensures |r| == |s|
    ensures forall i :: 0 <= i < |s| ==> r[i] == LowerChar(s[i])
  {
    seq(|s|, i requires 0 <= i < |s| => LowerChar(s[i]))
  }

  /** `sub in s`: `sub` occurs in `s` as a contiguous slice. */
  function Contains(s: string, sub: string): (r: bool)
    ensures r <==> exists i :: 0 <= i <= |s| - |sub| && sub <= s[i..]
    decreases |s|
  {
    if sub <= s then assert s[0..] == s; true
    else if |s| <= |sub| then false
    else
      var r := Contains(s[1..], sub);
      assert forall i :: 1 <= i <= |s| - |sub| ==> s[i..] == s[1..][i - 1..];
      assert r ==> exists i :: 1 <= i <= |s| - |sub| && sub <= s[i..] by {
        if r {
          var j :| 0 <= j <= |s[1..]| - |sub| && sub <= s[1..][j..];
          assert s[j + 1..] == s[1..][j..];
        }
      }
      r
  }

  /** A substring of a prefix is a substring of the whole string. */
  lemma {:induction false} ContainsInPrefix(s: string, t: string, sub: string)
    requires Contains(s, sub)
    ensures Contains(s + t, sub)
  {
    var i :| 0 <= i <= |s| - |sub| && sub <= s[i..];
    assert (s + t)[i..] == s[i..] + t;
  }

  /** A string that lacks one of the characters of `sub` does not contain `sub`. */
  lemma NotContainsByChar(s: string, sub: string, k: nat)
    requires k < |sub| && sub[k] !in s
    ensures !Contains(s, sub)
  {
    forall i | 0 <= i <= |s| - |sub| ensures !(sub <= s[i..]) {
      assert s[i + k] in s;
    }
  }

  /** `s.find(c)` for one character: the first index of `c`, or -1. */
  function Find(s: string, c: char): (r: int)
    ensures -1 <= r < |s|
    ensures r == -1 <==> c !in s
    ensures r >= 0 ==> s[r] == c && c !in s[..r]
  {
    if s == [] then -1
    else if s[0] == c then 0
    else
      var k := Find(s[1..], c);
      assert s == [s[0]] + s[1..];
      if k == -1 then -1
      else
        assert s[..k + 1] == [s[0]] + s[1..][..k];
        k + 1
  }

  /** `s.rfind(c)` for one character: the last index of `c`, or -1. */
  function RFind(s: string, c: char): (r: int)
    ensures -1 <= r < |s|
    ensures r == -1 <==> c !in s
    ensures r >= 0 ==> s[r] == c && c !in s[r + 1..]
  {
    if s == [] then -1
    else if s[|s| - 1] == c then |s| - 1
    else
      assert s == s[..|s| - 1] + [s[|s| - 1]];
      var k := RFind(s[..|s| - 1], c);
      if k >= 0 then assert s[k + 1..] == s[..|s| - 1][k + 1..] + [s[|s| - 1]]; k
      else k
  }

  /** The first `c` of `pre + rest` is the head of `rest` when `pre` has none. */
  lemma FindAfter(pre: string, rest: string, c: char)
    requires c !in pre && rest != [] && rest[0] == c
    ensures Find(pre + rest, c) == |pre|
  {
    var s := pre + rest;
    var r := Find(s, c);
    assert s[|pre|] == c;
    assert s[..|pre|] == pre;
  }

  /** The last `c` of `rest + post` is the last character of `rest` when `post` has none. */
  lemma RFindBefore(rest: string, post: string, c: char)
    requires c !in post && rest != [] && rest[|rest| - 1] == c
    ensures RFind(rest + post, c) == |rest| - 1
  {
    var s := rest + post;
    var r := RFind(s, c);
    assert s[|rest| - 1] == c;
    assert s[|rest|..] == post;
  }

  /** Python's slice `s[start:end]` for indices in range: empty when `end <= start`. */
  function Slice(s: string, start: nat, end: nat): (r: string)
    requires start <= |s| && end <= |s|
    ensures start < end ==> r == s[start..end]
    ensures end <= start ==> r == ""
  {
    if start < end then s[start..end] else ""
  }

  /** The ASCII characters `str.split()` splits on: space, tab, line feed, vertical
      tab, form feed, carriage return and the separators 0x1C to 0x1F. Python also
      splits on non-ASCII whitespace, which this predicate does not include. */
  predicate IsSpace(c: char)
  {
    c == ' ' || c == '\t' || c == '\n' || c == '\r' || c as int == 11 || c as int == 12 ||
    0x1C <= c as int <= 0x1F
  }

  predicate IsWord(w: string)
  {
    w != "" && forall i :: 0 <= i < |w| ==> !IsSpace(w[i])
  }

  /** Length of the longest prefix of `s` without whitespace. */
  function WordLength(s: string): (n: nat)
    ensures n <= |s|
    ensures forall i :: 0 <= i < n ==> !IsSpace(s[i])
    ensures n < |s| ==> IsSpace(s[n])
  {
    if s == [] || IsSpace(s[0]) then 0 else 1 + WordLength(s[1..])
  }

  /** `s.split()`: the maximal runs of non-whitespace characters, in order. */
  function Words(s: string): (ws: seq<string>)
    ensures forall i :: 0 <= i < |ws| ==> IsWord(ws[i])
    decreases |s|
  {
    if s == [] then []
    else if IsSpace(s[0]) then Words(s[1..])
    else
      var n := WordLength(s);
      [s[..n]] + Words(s[n..])
  }

  /** `sep.join(ws)`. */
  function Join(ws: seq<string>, sep: string): (r: string)
    ensures ws == [] ==> r == ""
    ensures |ws| == 1 ==> r == ws[0]
  {
    if ws == [] then ""
    else if |ws| == 1 then ws[0]
    else ws[0] + sep + Join(ws[1..], sep)
  }

  /** Splitting words joined by single spaces gives the same words back. */
  lemma {:induction false} WordsOfJoin(ws: seq<string>)
    requires forall i :: 0 <= i < |ws| ==> IsWord(ws[i])
    ensures Words(Join(ws, " ")) == ws
  {
    if ws == [] {
    } else if |ws| == 1 {
      WordsOfWord(ws[0], "");
      assert ws[0] + "" == ws[0];
    } else {
      var rest := Join(ws[1..], " ");
      WordsOfJoin(ws[1..]);
      WordsOfWord(ws[0], " " + rest);
      assert Words(" " + rest) == Words(rest) by {
        assert (" " + rest)[1..] == rest;
      }
      assert ws[0] + " " + rest == ws[0] + (" " + rest);
      assert [ws[0]] + ws[1..] == ws;
    }
  }

  /** A word followed by text that is empty or starts with whitespace splits off whole. */
  lemma {:induction false} WordsOfWord(w: string, t: string)
    requires IsWord(w)
    requires t == "" || IsSpace(t[0])
    ensures Words(w + t) == [w] + Words(t)
  {
    WordLengthOfWord(w, t);
    assert (w + t)[..|w|] == w;
    assert (w + t)[|w|..] == t;
  }

  lemma {:induction false} WordLengthOfWord(w: string, t: string)
    requires forall i :: 0 <= i < |w| ==> !IsSpace(w[i])
    requires t == "" || IsSpace(t[0])
    ensures WordLength(w + t) == |w|
    decreases |w|
  {
    if w == [] {
    } else {
      assert (w + t)[1..] == w[1..] + t;
      WordLengthOfWord(w[1..], t);
    }
  }

  /** `s.startswith(prefix)`. */
  predicate StartsWith(s: string, prefix: string)
  {
    prefix <= s
  }

  /** Python's `str.title()` on ASCII, one position: a letter is upper-cased when the
      character before it is not a letter and lower-cased otherwise. */
  function TitleAt(s: string, i: nat): char
    requires i < |s|
  {
    if i == 0 || !IsLetter(s[i - 1]) then UpperChar(s[i]) else LowerChar(s[i])
  }

  /** `s.title()`. */
  function Title(s: string): (r: string)
    ensures |r| == |s|
    ensures forall i :: 0 <= i < |s| ==> r[i] == TitleAt(s, i)
  {
    seq(|s|, i requires 0 <= i < |s| => TitleAt(s, i))
  }

  function DigitChar(d: nat): char
    requires d < 10
  {
    "0123456789"[d]
  }

  /** `str(n)` for a natural number. */
  function NatToString(n: nat): (r: string)
    ensures r != ""
    ensures forall i :: 0 <= i < |r| ==> '0' <= r[i] <= '9'
    decreases n
  {
    if n < 10 then [DigitChar(n)] else NatToString(n / 10) + [DigitChar(n % 10)]
  }

  /** `str(n)` for an integer. */
  function IntToString(n: int): (r: string)
    ensures r != ""
  {
    if n < 0 then "-" + NatToString(-n) else NatToString(n)
  }
}
