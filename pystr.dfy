/** The few Python `str` operations the consultation core relies on:
    `lower()`, `strip()`, the substring test `p in s`, `split()` with no
    argument and `replace(":", "-")`. Strings are sequences of characters. */
module PyStr {

  /** The characters for which Python's `str.isspace()` holds; `strip()` and
      `split()` with no argument remove or split on exactly these. */
  predicate IsSpace(c: char) {
    c == ' ' || c == '\t' || c == '\n' || c == '\r' || c == '\U{000B}' || c == '\U{000C}'
    || ('\U{001C}' <= c <= '\U{001F}') || c == '\U{0085}' || c == '\U{00A0}' || c == '\U{1680}'
    || ('\U{2000}' <= c <= '\U{200A}') || c == '\U{2028}' || c == '\U{2029}' || c == '\U{202F}'
    || c == '\U{205F}' || c == '\U{3000}'
  }

  predicate AllSpace(s: string) {
    forall i :: 0 <= i < |s| ==> IsSpace(s[i])
  }

  /** Case mapping of one character; only the ASCII letters are mapped. */
  function LowerChar(c: char): (d: char)
    ensures 'A' <= c <= 'Z' ==> d as int == c as int + 32
    ensures !('A' <= c <= 'Z') ==> d == c
  {
    if 'A' <= c <= 'Z' then (c as int + 32) as char else c
  }

  /** `s.lower()` */
  function Lower(s: string): (r: string)
    ensures |r| == |s|
    ensures forall i :: 0 <= i < |s| ==> r[i] == LowerChar(s[i])
  {
    seq(|s|, i requires 0 <= i < |s| => LowerChar(s[i]))
  }

  /** `s.lstrip()` */
  function LStrip(s: string): string {
    if s != [] && IsSpace(s[0]) then LStrip(s[1..]) else s
  }

  /** `s.rstrip()` */
  function RStrip(s: string): string {
    if s != [] && IsSpace(s[|s| - 1]) then RStrip(s[..|s| - 1]) else s
  }

  /** `s.strip()` */
  function Strip(s: string): string {
    RStrip(LStrip(s))
  }

  /** `lstrip` removes a leading run of white space and nothing else. */
  lemma {:induction false} LStripShape(s: string)
    ensures var r := LStrip(s);
      |r| <= |s| && r == s[|s| - |r|..] && AllSpace(s[..|s| - |r|]) && (r == [] || !IsSpace(r[0]))
  {
    if s != [] && IsSpace(s[0]) {
      LStripShape(s[1..]);
      var r := LStrip(s[1..]);
      assert s[1..][..|s[1..]| - |r|] == s[1..|s| - |r|];
      assert s[..|s| - |r|] == [s[0]] + s[1..|s| - |r|];
    }
  }

  /** `rstrip` removes a trailing run of white space and nothing else. */
  lemma {:induction false} RStripShape(s: string)
    ensures var r := RStrip(s);
      |r| <= |s| && r == s[..|r|] && AllSpace(s[|r|..]) && (r == [] || !IsSpace(r[|r| - 1]))
  {
    if s != [] && IsSpace(s[|s| - 1]) {
      RStripShape(s[..|s| - 1]);
      var r := RStrip(s[..|s| - 1]);
      assert s[..|s| - 1][|r|..] == s[|r|..|s| - 1];
      assert s[|r|..] == s[|r|..|s| - 1] + [s[|s| - 1]];
    }
  }

  /** The stripped text is no longer than the text and neither begins nor
      ends with white space. */
  lemma StripShape(s: string)
    ensures var r := Strip(s);
      |r| <= |s| && (r == [] || (!IsSpace(r[0]) && !IsSpace(r[|r| - 1])))
  {
    LStripShape(s);
    RStripShape(LStrip(s));
    var l := LStrip(s);
    var r := RStrip(l);
    if r != [] {
      assert r[0] == l[0];
    }
  }

  /** `lstrip` removes exactly a leading run of white space. */
  lemma {:induction false} LStripPadded(pre: string, rest: string)
    requires AllSpace(pre) && (rest == [] || !IsSpace(rest[0]))
    ensures LStrip(pre + rest) == rest
  {
    if pre != [] {
      assert (pre + rest)[0] == pre[0];
      assert (pre + rest)[1..] == pre[1..] + rest;
      LStripPadded(pre[1..], rest);
    } else {
      assert pre + rest == rest;
    }
  }

  /** `rstrip` removes exactly a trailing run of white space. */
  lemma {:induction false} RStripPadded(rest: string, post: string)
    requires AllSpace(post) && (rest == [] || !IsSpace(rest[|rest| - 1]))
    ensures RStrip(rest + post) == rest
  {
    if post != [] {
      var s := rest + post;
      assert s[|s| - 1] == post[|post| - 1];
      assert s[..|s| - 1] == rest + post[..|post| - 1];
      RStripPadded(rest, post[..|post| - 1]);
    } else {
      assert rest + post == rest;
    }
  }

  /** `strip` of a text padded with white space on both sides is the text. */
  lemma StripPadded(pre: string, w: string, post: string)
    requires AllSpace(pre) && AllSpace(post)
    requires w == [] || (!IsSpace(w[0]) && !IsSpace(w[|w| - 1]))
    ensures Strip(pre + w + post) == w
  {
    assert pre + w + post == pre + (w + post);
    if w == [] {
      assert w + post == post;
      LStripPadded(pre + post, []);
      assert pre + post + [] == pre + post;
    } else {
      LStripPadded(pre, w + post);
      RStripPadded(w, post);
    }
  }

  predicate StartsWith(s: string, p: string) {
    |p| <= |s| && s[..|p|] == p
  }

  /** Python's `p in s` on two strings. */
  function Contains(s: string, p: string): bool {
    StartsWith(s, p) || (s != [] && Contains(s[1..], p))
  }

  /** `p` occurs in `s` starting at index `i`. */
  predicate OccursAt(s: string, p: string, i: int) {
    0 <= i <= |s| - |p| && s[i..i + |p|] == p
  }

  /** Contains means what it says: `p` occurs in `s` at some position. */
  lemma {:induction false} ContainsAt(s: string, p: string)
    ensures Contains(s, p) <==> exists i :: OccursAt(s, p, i)
  {
    if StartsWith(s, p) {
      assert OccursAt(s, p, 0);
    } else if s == [] {
    } else {
      ContainsAt(s[1..], p);
      if exists i :: OccursAt(s, p, i) {
        var i :| OccursAt(s, p, i);
        assert i != 0;
        assert OccursAt(s[1..], p, i - 1);
      }
      if exists j :: OccursAt(s[1..], p, j) {
        var j :| OccursAt(s[1..], p, j);
        assert OccursAt(s, p, j + 1);
      }
    }
  }

  /** An occurrence of `p` in `s` is still an occurrence in any string around it. */
  lemma ContainsInside(a: string, s: string, b: string, p: string)
    requires Contains(s, p)
    ensures Contains(a + s + b, p)
  {
    ContainsAt(s, p);
    var i :| OccursAt(s, p, i);
    assert OccursAt(a + s + b, p, |a| + i) by {
      assert (a + s + b)[|a| + i..|a| + i + |p|] == s[i..i + |p|];
    }
    ContainsAt(a + s + b, p);
  }

  /** Every character of an occurring pattern occurs in the text. */
  lemma ContainsChar(s: string, p: string, c: char)
    requires Contains(s, p) && c in p
    ensures c in s
  {
    ContainsAt(s, p);
    var i :| OccursAt(s, p, i);
    var j :| 0 <= j < |p| && p[j] == c;
    assert s[i..i + |p|][j] == s[i + j];
  }

  /** An occurrence inside a slice is an occurrence in the whole text. */
  lemma ContainsSlice(s: string, i: nat, j: nat, p: string)
    requires i <= j <= |s| && Contains(s[i..j], p)
    ensures Contains(s, p)
  {
    ContainsAt(s[i..j], p);
    var k :| OccursAt(s[i..j], p, k);
    forall t | 0 <= t < |p| ensures s[i + k + t] == p[t] {
      assert s[i..j][k..k + |p|][t] == p[t];
    }
    assert s[i + k..i + k + |p|] == p;
    assert OccursAt(s, p, i + k);
    ContainsAt(s, p);
  }

  /** What occurs in the stripped text occurs in the text. */
  lemma ContainsUnstrip(s: string, p: string)
    requires Contains(Strip(s), p)
    ensures Contains(s, p)
  {
    var l := LStrip(s);
    var r := RStrip(l);
    LStripShape(s);
    RStripShape(l);
    assert r == l[..|r|];
    assert l == s[|s| - |l|..];
    assert s[|s| - |l|..][..|r|] == s[|s| - |l|..|s| - |l| + |r|];
    assert r == s[|s| - |l|..|s| - |l| + |r|];
    ContainsSlice(s, |s| - |l|, |s| - |l| + |r|, p);
  }

  /** `not s.strip()` holds exactly for the texts made of white space. */
  lemma StripBlank(s: string)
    ensures Strip(s) == [] <==> AllSpace(s)
  {
    if AllSpace(s) {
      StripPadded(s, [], []);
      assert s + [] + [] == s;
    }
    if Strip(s) == [] {
      var l := LStrip(s);
      LStripShape(s);
      RStripShape(l);
      assert l == [];
      assert s[..|s|] == s;
    }
  }

  lemma {:induction false} ContainsLStrip(s: string, p: string)
    requires Contains(s, p) && p != [] && !IsSpace(p[0])
    ensures Contains(LStrip(s), p)
  {
    if s != [] && IsSpace(s[0]) {
      ContainsLStrip(s[1..], p);
    }
  }

  lemma OccursLast(s: string, p: string, i: int)
    requires OccursAt(s, p, i) && p != []
    ensures s[i + |p| - 1] == p[|p| - 1]
  {
    assert s[i..i + |p|][|p| - 1] == s[i + |p| - 1];
  }

  lemma OccursInPrefix(s: string, p: string, i: int, n: int)
    requires OccursAt(s, p, i) && i + |p| <= n <= |s|
    ensures OccursAt(s[..n], p, i)
  {
    assert s[..n][i..i + |p|] == s[i..i + |p|];
  }

  /** Right-stripping keeps every character up to the last non-space one. */
  lemma RStripKeeps(s: string, k: int)
    requires 0 <= k < |s| && !IsSpace(s[k])
    ensures k < |RStrip(s)|
  {
    RStripShape(s);
    var r := RStrip(s);
    forall j | |r| <= j < |s| ensures IsSpace(s[j]) {
      assert s[|r|..][j - |r|] == s[j];
    }
  }

  lemma ContainsRStrip(s: string, p: string)
    requires Contains(s, p) && p != [] && !IsSpace(p[|p| - 1])
    ensures Contains(RStrip(s), p)
  {
    ContainsAt(s, p);
    var i :| OccursAt(s, p, i);
    OccursLast(s, p, i);
    RStripKeeps(s, i + |p| - 1);
    RStripShape(s);
    OccursInPrefix(s, p, i, |RStrip(s)|);
    ContainsAt(RStrip(s), p);
  }

  /** Stripping keeps every occurrence of a pattern whose first and last
      characters are not white space. */
  lemma ContainsStrip(s: string, p: string)
    requires Contains(s, p) && p != [] && !IsSpace(p[0]) && !IsSpace(p[|p| - 1])
    ensures Contains(Strip(s), p)
  {
    ContainsLStrip(s, p);
    ContainsRStrip(LStrip(s), p);
  }

  /** Lowering distributes over concatenation. */
  lemma LowerAppend(a: string, b: string)
    ensures Lower(a + b) == Lower(a) + Lower(b)
  {
  }

  /** Lowering lower-case text changes nothing. */
  lemma LowerIdempotent(s: string)
    ensures Lower(Lower(s)) == Lower(s)
  {
  }

  /** The length of the leading run of non-space characters. */
  function WordLength(s: string): (n: nat)
    ensures n <= |s|
    ensures forall i :: 0 <= i < n ==> !IsSpace(s[i])
    ensures n < |s| ==> IsSpace(s[n])
  {
    if s == [] || IsSpace(s[0]) then 0 else 1 + WordLength(s[1..])
  }

  /** `s.split()`: the maximal runs of non-space characters, in order. */
  function Split(s: string): (ws: seq<string>)
    ensures forall i :: 0 <= i < |ws| ==> ws[i] != [] && forall j :: 0 <= j < |ws[i]| ==> !IsSpace(ws[i][j])
    decreases |s|
  {
    var t := LStrip(s);
    LStripShape(s);
    if t == [] then []
    else
      var n := WordLength(t);
      [t[..n]] + Split(t[n..])
  }

  /** A token: a non-empty run of non-space characters. */
  predicate IsToken(w: string) {
    w != [] && forall j :: 0 <= j < |w| ==> !IsSpace(w[j])
  }

  /** `" ".join(ws)` */
  function JoinSpaced(ws: seq<string>): string {
    if ws == [] then "" else if |ws| == 1 then ws[0] else ws[0] + " " + JoinSpaced(ws[1..])
  }

  lemma {:induction false} WordLengthOfToken(w: string, rest: string)
    requires IsToken(w) && (rest == [] || IsSpace(rest[0]))
    ensures WordLength(w + rest) == |w|
  {
    var s := w + rest;
    assert s[0] == w[0] && !IsSpace(s[0]);
    if |w| == 1 {
      assert s[1..] == rest;
    } else {
      assert s[1..] == w[1..] + rest;
      assert IsToken(w[1..]) by {
        forall j | 0 <= j < |w[1..]| ensures !IsSpace(w[1..][j]) {
          assert w[1..][j] == w[j + 1];
        }
      }
      WordLengthOfToken(w[1..], rest);
    }
  }

  /** Splitting a token followed by a space and more text. */
  lemma SplitCons(w: string, rest: string)
    requires IsToken(w)
    ensures Split(w + (" " + rest)) == [w] + Split(rest)
  {
    var s := w + (" " + rest);
    assert s[0] == w[0];
    assert LStrip(s) == s;
    WordLengthOfToken(w, " " + rest);
    assert s[..|w|] == w;
    assert s[|w|..] == " " + rest;
    assert LStrip(" " + rest) == LStrip(rest) by {
      assert (" " + rest)[1..] == rest;
    }
    SplitStripped(" " + rest);
    SplitStripped(rest);
  }

  /** Splitting a single token. */
  lemma SplitToken(w: string)
    requires IsToken(w)
    ensures Split(w) == [w]
  {
    assert w + "" == w;
    WordLengthOfToken(w, "");
    assert LStrip(w) == w;
    assert w[|w|..] == [];
    assert w[..|w|] == w;
  }

  /** `split()` undoes `" ".join` on tokens: the two are inverse. */
  lemma {:induction false} SplitJoin(ws: seq<string>)
    requires AllTokens(ws)
    ensures Split(JoinSpaced(ws)) == ws
  {
    if ws == [] {
    } else if |ws| == 1 {
      SplitToken(ws[0]);
    } else {
      var w, tail := ws[0], ws[1..];
      assert IsToken(w);
      assert AllTokens(tail) by {
        forall i | 0 <= i < |tail| ensures IsToken(tail[i]) { assert tail[i] == ws[i + 1]; }
      }
      var rest := JoinSpaced(tail);
      assert JoinSpaced(ws) == w + " " + rest;
      assert w + " " + rest == w + (" " + rest);
      SplitCons(w, rest);
      SplitJoin(tail);
      assert [w] + tail == ws;
    }
  }

  predicate AllTokens(ws: seq<string>) {
    forall i :: 0 <= i < |ws| ==> IsToken(ws[i])
  }

  /** Leading white space does not change the split. */
  lemma SplitStripped(s: string)
    ensures Split(s) == Split(LStrip(s))
  {
  }

  /** `s.replace(a, b)` for single characters `a` and `b`. */
  function ReplaceChar(s: string, a: char, b: char): (r: string)
    ensures |r| == |s|
    ensures forall i :: 0 <= i < |s| ==> r[i] == (if s[i] == a then b else s[i])
  {
    seq(|s|, i requires 0 <= i < |s| => if s[i] == a then b else s[i])
  }

  /** `t in words` for a list of strings, one comparison at a time. */
  predicate Listed(t: string, words: seq<string>) {
    words != [] && (t == words[0] || Listed(t, words[1..]))
  }

  lemma {:induction false} ListedIn(t: string, words: seq<string>)
    ensures Listed(t, words) <==> t in words
  {
    if words != [] {
      ListedIn(t, words[1..]);
      assert words == [words[0]] + words[1..];
    }
  }
}
