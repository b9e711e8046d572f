/** The java.lang.String operations the server and the client apply to
    user input: trim, ASCII case mapping, equalsIgnoreCase and splitting
    on runs of whitespace. */
module Text {

  /** Characters String.trim removes: code points up to ' '. */
  predicate IsTrimmed(ch: char) {
    ch <= ' '
  }

  /** The characters the regular expression \s matches: space, and tab,
      line feed, vertical tab, form feed and carriage return (9 to 13). */
  predicate IsSpace(ch: char) {
    ch == ' ' || '\t' <= ch <= '\r'
  }

  /** `s` begins and ends with a character trim keeps (or is empty). */
  predicate Trimmed(s: string) {
    s == [] || (!IsTrimmed(s[0]) && !IsTrimmed(s[|s| - 1]))
  }

  /** The index of the first character from `i` on that trim keeps, or
      |s|. */
  function TrimStart(s: string, i: nat): (n: nat)
    requires i <= |s|
    ensures i <= n <= |s|
    ensures forall k :: i <= k < n ==> IsTrimmed(s[k])
    ensures n < |s| ==> !IsTrimmed(s[n])
    decreases |s| - i
  {
    if i < |s| && IsTrimmed(s[i]) then TrimStart(s, i + 1) else i
  }

  /** One past the last character before `j`, and not before `lo`, that
      trim keeps, or `lo`. */
  function TrimEnd(s: string, lo: nat, j: nat): (n: nat)
    requires lo <= j <= |s|
    ensures lo <= n <= j
    ensures forall k :: n <= k < j ==> IsTrimmed(s[k])
    ensures n > lo ==> !IsTrimmed(s[n - 1])
    decreases j
  {
    if j > lo && IsTrimmed(s[j - 1]) then TrimEnd(s, lo, j - 1) else j
  }

  /** `r` is `s` from index `a` on, with only trimmable characters cut
      off before and after it. */
  predicate CutFrom(s: string, r: string, a: int) {
    0 <= a <= |s| - |r| && r == s[a..a + |r|]
    && (forall i :: 0 <= i < a ==> IsTrimmed(s[i]))
    && (forall i :: a + |r| <= i < |s| ==> IsTrimmed(s[i]))
  }

  /** String.trim: `s` without leading and trailing characters up to ' '. */
  function Trim(s: string): (r: string)
    ensures Trimmed(r)
    ensures exists a :: CutFrom(s, r, a)
  {
    var a := TrimStart(s, 0);
    var b := TrimEnd(s, a, |s|);
    assert CutFrom(s, s[a..b], a);
    s[a..b]
  }

  /** Trimming a string that needs none leaves it as it is. */
  lemma TrimOfTrimmed(s: string)
    requires Trimmed(s)
    ensures Trim(s) == s
  {
  }

  /** trim is idempotent. */
  lemma TrimIdempotent(s: string)
    ensures Trim(Trim(s)) == Trim(s)
  {
    TrimOfTrimmed(Trim(s));
  }

  /** Character.toUpperCase on ASCII letters. */
  function UpperChar(ch: char): char {
    if 'a' <= ch <= 'z' then (ch as int - 32) as char else ch
  }

  /** Character.toLowerCase on ASCII letters. */
  function LowerChar(ch: char): char {
    if 'A' <= ch <= 'Z' then (ch as int + 32) as char else ch
  }

  /** String.toUpperCase, character by character. */
  function ToUpper(s: string): (r: string)
    ensures |r| == |s|
    ensures forall i :: 0 <= i < |s| ==> r[i] == UpperChar(s[i])
  {
    seq(|s|, i requires 0 <= i < |s| => UpperChar(s[i]))
  }

  /** String.toLowerCase, character by character. */
  function ToLower(s: string): (r: string)
    ensures |r| == |s|
    ensures forall i :: 0 <= i < |s| ==> r[i] == LowerChar(s[i])
  {
    seq(|s|, i requires 0 <= i < |s| => LowerChar(s[i]))
  }

  /** Upper-casing twice is upper-casing once; lower-casing a string with
      no capital letter leaves it as it is. */
  lemma CaseMappingFacts(s: string)
    ensures ToUpper(ToUpper(s)) == ToUpper(s)
    ensures (forall i :: 0 <= i < |s| ==> !('A' <= s[i] <= 'Z')) ==> ToLower(s) == s
  {
  }

  /** String.equalsIgnoreCase: the strings are equal once upper-cased. */
  predicate EqualsIgnoreCase(a: string, b: string) {
    ToUpper(a) == ToUpper(b)
  }

  /** equalsIgnoreCase compares position by position, ignoring the case of
      letters; so it is reflexive and symmetric. */
  lemma EqualsIgnoreCaseSpec(a: string, b: string)
    ensures EqualsIgnoreCase(a, b) <==>
      |a| == |b| && forall i :: 0 <= i < |a| ==> UpperChar(a[i]) == UpperChar(b[i])
    ensures EqualsIgnoreCase(a, a)
    ensures EqualsIgnoreCase(a, b) == EqualsIgnoreCase(b, a)
  {
    if ToUpper(a) == ToUpper(b) {
      assert forall i :: 0 <= i < |a| ==> ToUpper(a)[i] == ToUpper(b)[i];
    }
  }

  /** The length of the word `s` starts with. */
  function WordLength(s: string): (n: nat)
    requires s != [] && !IsSpace(s[0])
    ensures 1 <= n <= |s|
    ensures forall i :: 0 <= i < n ==> !IsSpace(s[i])
    ensures n < |s| ==> IsSpace(s[n])
    decreases |s|
  {
    if |s| == 1 || IsSpace(s[1]) then 1 else 1 + WordLength(s[1..])
  }

  /** The maximal runs of non-whitespace characters of `s`, in order: what
      split("\\s+") gives for a trimmed, non-empty string. */
  function Words(s: string): (ws: seq<string>)
    ensures forall k :: 0 <= k < |ws| ==> IsWord(ws[k])
    decreases |s|
  {
    if s == [] then []
    else if IsSpace(s[0]) then Words(s[1..])
    else
      var n := WordLength(s);
      [s[..n]] + Words(s[n..])
  }

  /** A non-empty string without whitespace. */
  predicate IsWord(w: string) {
    w != [] && forall i :: 0 <= i < |w| ==> !IsSpace(w[i])
  }

  /** The words joined with single spaces. */
  function Unwords(ws: seq<string>): string {
    if ws == [] then []
    else if |ws| == 1 then ws[0]
    else ws[0] + " " + Unwords(ws[1..])
  }

  /** The word at the head of `w + rest`, when `rest` is empty or starts
      with whitespace, is `w`. */
  lemma {:induction false} WordLengthOf(w: string, rest: string)
    requires IsWord(w) && (rest == [] || IsSpace(rest[0]))
    ensures WordLength(w + rest) == |w|
    decreases |w|
  {
    if |w| > 1 {
      assert (w + rest)[1..] == w[1..] + rest;
      WordLengthOf(w[1..], rest);
    }
  }

  /** A word followed by a space splits into that word and the words of
      what follows. */
  lemma WordsOfJoined(w: string, rest: string)
    requires IsWord(w)
    ensures Words(w + " " + rest) == [w] + Words(rest)
  {
    var s := w + " " + rest;
    assert s == w + (" " + rest);
    WordLengthOf(w, " " + rest);
    assert s[0] == w[0];
    assert Words(s) == [s[..|w|]] + Words(s[|w|..]);
    assert s[..|w|] == w;
    assert s[|w|..] == " " + rest;
    assert (" " + rest)[1..] == rest;
  }

  /** A word alone splits into itself. */
  lemma WordsOfWord(w: string)
    requires IsWord(w)
    ensures Words(w) == [w]
  {
    WordLengthOf(w, []);
    assert w + [] == w;
    assert w[|w|..] == [];
  }

  /** A word is no longer for what follows it when that starts with
      whitespace. */
  lemma {:induction false} WordLengthBeforeSpace(u: string, rest: string)
    requires u != [] && !IsSpace(u[0])
    requires rest != [] && IsSpace(rest[0])
    ensures WordLength(u + rest) == WordLength(u)
    decreases |u|
  {
    var s := u + rest;
    if |u| > 1 && !IsSpace(u[1]) {
      assert s[1..] == u[1..] + rest;
      WordLengthBeforeSpace(u[1..], rest);
    }
  }

  /** Splitting at any whitespace character splits the words: the tokens
      of `u`, then those of `v`. With `Words([]) == []` and `WordsOfWord`
      this fixes the words of every string: the maximal non-space runs,
      in order. */
  lemma {:induction false} WordsSplitsAtSpace(u: string, c: char, v: string)
    requires IsSpace(c)
    ensures Words(u + [c] + v) == Words(u) + Words(v)
    decreases |u|
  {
    var s := u + [c] + v;
    if u == [] {
      assert s[1..] == v;
    } else if IsSpace(u[0]) {
      assert s[1..] == u[1..] + [c] + v;
      WordsSplitsAtSpace(u[1..], c, v);
    } else {
      var n := WordLength(u);
      assert s == u + ([c] + v);
      WordLengthBeforeSpace(u, [c] + v);
      assert s[..n] == u[..n];
      assert s[n..] == u[n..] + [c] + v;
      WordsSplitsAtSpace(u[n..], c, v);
    }
  }

  /** Splitting words joined by single spaces gives the words back. */
  lemma {:induction false} WordsOfUnwords(ws: seq<string>)
    requires forall k :: 0 <= k < |ws| ==> IsWord(ws[k])
    ensures Words(Unwords(ws)) == ws
    decreases |ws|
  {
    if |ws| == 1 {
      WordsOfWord(ws[0]);
    } else if |ws| > 1 {
      WordsOfJoined(ws[0], Unwords(ws[1..]));
      WordsOfUnwords(ws[1..]);
      assert ws == [ws[0]] + ws[1..];
    }
  }

  /** Lower-casing words that have no capital letter, joined by spaces,
      leaves the joined string as it is. */
  lemma {:induction false} LowerOfUnwords(ws: seq<string>)
    requires forall k :: 0 <= k < |ws| ==> ToLower(ws[k]) == ws[k]
    ensures ToLower(Unwords(ws)) == Unwords(ws)
    decreases |ws|
  {
    if |ws| > 1 {
      var w := ws[0];
      var rest := Unwords(ws[1..]);
      LowerOfUnwords(ws[1..]);
      var s := w + " " + rest;
      assert ToLower(w) == w;
      forall i | 0 <= i < |s|
        ensures ToLower(s)[i] == s[i]
      {
        if i < |w| {
          assert s[i] == w[i] && ToLower(w)[i] == LowerChar(w[i]);
        } else if i > |w| {
          assert s[i] == rest[i - |w| - 1] && ToLower(rest)[i - |w| - 1] == LowerChar(rest[i - |w| - 1]);
        }
      }
    }
  }

  /** Words that begin and end with a character trim keeps, joined by
      spaces, need no trimming. */
  lemma {:induction false} TrimmedUnwords(ws: seq<string>)
    requires forall k :: 0 <= k < |ws| ==> ws[k] != [] && Trimmed(ws[k])
    ensures Trimmed(Unwords(ws))
    ensures ws != [] ==>
      && Unwords(ws) != [] && Unwords(ws)[0] == ws[0][0]
      && Unwords(ws)[|Unwords(ws)| - 1] == ws[|ws| - 1][|ws[|ws| - 1]| - 1]
    decreases |ws|
  {
    if |ws| > 1 {
      TrimmedUnwords(ws[1..]);
      assert ws[1..][|ws| - 2] == ws[|ws| - 1];
    }
  }
}
