/** String helpers with the meaning of the Python string operations the
    installer uses: `needle in hay`, `startswith`, `split('\n')`,
    `split()`, `strip()`, `strip('"')` and `lower()` (ASCII letters only). */
module Text {

  predicate IsPrefix(p: string, s: string) {
    |p| <= |s| && s[..|p|] == p
  }

  /** Python's `s.endswith(p)`. */
  predicate IsSuffix(p: string, s: string) {
    |p| <= |s| && s[|s| - |p|..] == p
  }

  /** Python's `needle in hay` on strings. */
  predicate Contains(hay: string, needle: string)
    decreases |hay|
  {
    IsPrefix(needle, hay) || (hay != [] && Contains(hay[1..], needle))
  }

  /** `Contains` agrees with the existence of a position where the needle starts. */
  lemma {:induction false} ContainsAt(hay: string, needle: string, k: nat)
    requires k + |needle| <= |hay| && hay[k..k + |needle|] == needle
    ensures Contains(hay, needle)
    decreases k
  {
    if k > 0 {
      assert hay[1..][k - 1..k - 1 + |needle|] == needle;
      ContainsAt(hay[1..], needle, k - 1);
    }
  }

  /** A string occurring in `b` still occurs after text is put in front of `b`. */
  lemma {:induction false} ContainsInRight(a: string, b: string, needle: string)
    requires Contains(b, needle)
    ensures Contains(a + b, needle)
    decreases |a|
  {
    if a == [] {
      assert a + b == b;
    } else {
      assert (a + b)[1..] == a[1..] + b;
      ContainsInRight(a[1..], b, needle);
    }
  }

  /** A string occurring in `a` still occurs after text is appended to `a`. */
  lemma {:induction false} ContainsInLeft(a: string, b: string, needle: string)
    requires Contains(a, needle)
    ensures Contains(a + b, needle)
    decreases |a|
  {
    if IsPrefix(needle, a) {
      assert (a + b)[..|needle|] == a[..|needle|];
    } else {
      assert (a + b)[1..] == a[1..] + b;
      ContainsInLeft(a[1..], b, needle);
    }
  }

  /** A string occurs in any text that has it as a piece. */
  lemma ContainsPiece(a: string, needle: string, b: string)
    ensures Contains(a + needle + b, needle)
  {
    var s := a + needle + b;
    assert s[|a|..|a| + |needle|] == needle;
    ContainsAt(s, needle, |a|);
  }

  /** Python's `' '.join(words)`. */
  function Join(words: seq<string>): string {
    if words == [] then ""
    else if |words| == 1 then words[0]
    else words[0] + " " + Join(words[1..])
  }

  /** Whitespace as Python's argument-less `split()` and `strip()` see it among
      ASCII characters: space, tab to carriage return, and the four separators
      `\x1c` to `\x1f`. */
  predicate IsSpace(c: char) {
    c == ' ' || c == '\t' || c == '\n' || c == '\r' || c == '\U{0B}' || c == '\U{0C}' ||
    ('\U{1C}' <= c <= '\U{1F}')
  }

  predicate NoSpace(s: string) {
    forall i :: 0 <= i < |s| ==> !IsSpace(s[i])
  }

  /** Python's `s.split(sep)` for a one-character separator: never empty. */
  function SplitOn(s: string, sep: char): (r: seq<string>)
    ensures |r| >= 1
  {
    if s == [] then [""]
    else
      var rest := SplitOn(s[1..], sep);
      if s[0] == sep then [""] + rest
      else [[s[0]] + rest[0]] + rest[1..]
  }

  /** Splitting at the first separator: the text before it is the first piece. */
  lemma {:induction false} SplitOnFirst(a: string, sep: char, b: string)
    requires sep !in a
    ensures SplitOn(a + [sep] + b, sep) == [a] + SplitOn(b, sep)
    decreases |a|
  {
    if a == [] {
      assert a + [sep] + b == [sep] + b && ([sep] + b)[1..] == b;
    } else {
      assert (a + [sep] + b)[1..] == a[1..] + [sep] + b;
      assert a[0] != sep && [a[0]] + a[1..] == a;
      SplitOnFirst(a[1..], sep, b);
    }
  }

  /** Python's argument-less `s.split()`: the maximal runs of non-whitespace. */
  function Fields(s: string): seq<string> {
    Words(s, "")
  }

  /** The words of `s`, when `cur` is a word already begun just before `s`. */
  function Words(s: string, cur: string): seq<string>
    decreases |s|
  {
    if s == [] then (if cur == "" then [] else [cur])
    else if IsSpace(s[0]) then (if cur == "" then [] else [cur]) + Words(s[1..], "")
    else Words(s[1..], cur + [s[0]])
  }

  /** A separating space splits the words into those before and after it. */
  lemma {:induction false} WordsSplit(a: string, cur: string, b: string)
    ensures Words(a + " " + b, cur) == Words(a, cur) + Words(b, "")
    decreases |a|
  {
    if a == [] {
      assert (a + " " + b)[1..] == b;
    } else {
      assert (a + " " + b)[1..] == a[1..] + " " + b;
      WordsSplit(a[1..], if IsSpace(a[0]) then "" else cur + [a[0]], b);
    }
  }

  /** A word without whitespace, started after `cur`, is read as one word. */
  lemma {:induction false} WordsOfWord(w: string, cur: string)
    requires NoSpace(w)
    ensures Words(w, cur) == if cur + w == "" then [] else [cur + w]
    decreases |w|
  {
    if w == [] {
      assert cur + w == cur;
    } else {
      assert !IsSpace(w[0]);
      assert cur + w == (cur + [w[0]]) + w[1..];
      assert NoSpace(w[1..]) by {
        forall i | 0 <= i < |w[1..]| ensures !IsSpace(w[1..][i]) {
          assert w[1..][i] == w[i + 1];
        }
      }
      WordsOfWord(w[1..], cur + [w[0]]);
    }
  }

  /** Words joined by single spaces split back into the non-empty ones. */
  lemma FieldsOfSpaced(a: string, b: string)
    requires NoSpace(a)
    ensures Fields(a + " " + b) == (if a == "" then [] else [a]) + Fields(b)
  {
    WordsSplit(a, "", b);
    WordsOfWord(a, "");
    assert "" + a == a;
  }

  lemma FieldsOfWord(w: string)
    requires NoSpace(w)
    ensures Fields(w) == if w == "" then [] else [w]
  {
    WordsOfWord(w, "");
    assert "" + w == w;
  }

  /** Non-empty words without whitespace, joined by single spaces, split back
      into exactly those words. */
  lemma {:induction false} FieldsOfJoin(words: seq<string>)
    requires forall i :: 0 <= i < |words| ==> words[i] != "" && NoSpace(words[i])
    ensures Fields(Join(words)) == words
    decreases |words|
  {
    if |words| == 1 {
      FieldsOfWord(words[0]);
    } else if |words| > 1 {
      FieldsOfSpaced(words[0], Join(words[1..]));
      FieldsOfJoin(words[1..]);
      assert [words[0]] + words[1..] == words;
    }
  }

  /** Python's `s.strip(ch)` for one character. */
  function StripChar(s: string, ch: char): (r: string)
    ensures |r| <= |s|
    ensures r != "" ==> r[0] != ch && r[|r| - 1] != ch
  {
    DropTrailing(DropLeading(s, ch), ch)
  }

  function DropLeading(s: string, ch: char): (r: string)
    ensures |r| <= |s|
    ensures r != "" ==> r[0] != ch && r[|r| - 1] == s[|s| - 1]
  {
    if s != [] && s[0] == ch then DropLeading(s[1..], ch) else s
  }

  function DropTrailing(s: string, ch: char): (r: string)
    ensures |r| <= |s|
    ensures r != "" ==> r[|r| - 1] != ch && r[0] == s[0]
  {
    if s != [] && s[|s| - 1] == ch then DropTrailing(s[..|s| - 1], ch) else s
  }

  /** Stripping removes exactly the surrounding copies of the character. */
  lemma {:induction false} StripCharQuoted(w: string, ch: char, n: nat, m: nat)
    requires w != "" && w[0] != ch && w[|w| - 1] != ch
    ensures StripChar(seq(n, _ => ch) + w + seq(m, _ => ch), ch) == w
  {
    var pre, post := seq(n, _ => ch), seq(m, _ => ch);
    DropLeadingRun(n, ch, w + post);
    assert pre + w + post == pre + (w + post);
    DropTrailingRun(w, ch, m);
  }

  lemma {:induction false} DropLeadingRun(n: nat, ch: char, s: string)
    requires s != "" && s[0] != ch
    ensures DropLeading(seq(n, _ => ch) + s, ch) == s
  {
    if n > 0 {
      assert (seq(n, _ => ch) + s)[1..] == seq(n - 1, _ => ch) + s;
      DropLeadingRun(n - 1, ch, s);
    }
  }

  lemma {:induction false} DropTrailingRun(w: string, ch: char, m: nat)
    requires w != "" && w[|w| - 1] != ch
    ensures DropTrailing(w + seq(m, _ => ch), ch) == w
  {
    if m > 0 {
      assert (w + seq(m, _ => ch))[..|w| + m - 1] == w + seq(m - 1, _ => ch);
      DropTrailingRun(w, ch, m - 1);
    }
  }

  /** Python's argument-less `s.strip()`. */
  function Strip(s: string): string {
    TrimEnd(TrimStart(s))
  }

  /** Text that starts with a non-space character does not strip to nothing. */
  lemma {:induction false} StripKeepsLeadingWord(s: string)
    requires s != "" && !IsSpace(s[0])
    ensures Strip(s) != ""
  {
    TrimEndKeeps(s);
  }

  lemma {:induction false} TrimEndKeeps(s: string)
    requires s != "" && !IsSpace(s[0])
    ensures TrimEnd(s) != ""
    decreases |s|
  {
    if IsSpace(s[|s| - 1]) {
      TrimEndKeeps(s[..|s| - 1]);
    }
  }

  function TrimStart(s: string): string {
    if s != [] && IsSpace(s[0]) then TrimStart(s[1..]) else s
  }

  function TrimEnd(s: string): string {
    if s != [] && IsSpace(s[|s| - 1]) then TrimEnd(s[..|s| - 1]) else s
  }

  function LowerChar(c: char): char {
    if 'A' <= c <= 'Z' then (c as int - 'A' as int + 'a' as int) as char else c
  }

  /** Python's `s.lower()` on ASCII letters. */
  function Lower(s: string): string {
    if s == [] then [] else [LowerChar(s[0])] + Lower(s[1..])
  }

  /** `Lower` maps each character on its own and keeps the length. */
  lemma {:induction false} LowerEach(s: string)
    ensures |Lower(s)| == |s|
    ensures forall i :: 0 <= i < |s| ==> Lower(s)[i] == LowerChar(s[i])
  {
    if s != [] {
      LowerEach(s[1..]);
    }
  }
}
