/**
 * The few Python string builtins the fetcher relies on, over `seq<char>`:
 * `str.isspace` (ASCII part), `str.isdigit` and `int()` on ASCII digit
 * strings, the `in` substring test, `str.strip()` and `str.split()`.
 */
module Text {

  /** The ASCII characters for which Python's `str.isspace` holds. */
  predicate IsSpace(c: char) {
    // space; tab, line feed, vertical tab, form feed, carriage return;
    // the file, group, record and unit separators
    c == ' ' || '\t' <= c <= '\r' || '\U{1C}' <= c <= '\U{1F}'
  }

  predicate NoSpace(s: string) {
    forall k :: 0 <= k < |s| ==> !IsSpace(s[k])
  }

  predicate IsDigit(c: char) {
    '0' <= c <= '9'
  }

  /** `s.isdigit()` on ASCII text: non-empty and made of digits only. */
  predicate IsDigits(s: string) {
    |s| > 0 && forall k :: 0 <= k < |s| ==> IsDigit(s[k])
  }

  /** `int(s)` for a string of ASCII digits (leading zeros allowed). */
  function DigitsValue(s: string): (n: nat)
    requires forall k :: 0 <= k < |s| ==> IsDigit(s[k])
    ensures |s| > 0 ==> n % 10 == DigitOf(s[|s| - 1])
    ensures n < Power10(|s|)
    decreases |s|
  {
    if s == [] then 0 else 10 * DigitsValue(s[..|s| - 1]) + DigitOf(s[|s| - 1])
  }

  function DigitOf(c: char): (d: nat)
    requires IsDigit(c)
    ensures d < 10
  {
    c as int - '0' as int
  }

  function Power10(k: nat): (p: nat)
    ensures p >= 1
  {
    if k == 0 then 1 else 10 * Power10(k - 1)
  }

  /** Python's `pat in s` for strings: `pat` occurs as a contiguous slice of `s`. */
  predicate Contains(s: string, pat: string)
    decreases |s|
  {
    pat <= s || (s != [] && Contains(s[1..], pat))
  }

  /** `pat` occurs in `s` starting at index `i`. */
  predicate OccursAt(s: string, pat: string, i: int) {
    0 <= i <= |s| - |pat| && s[i..i + |pat|] == pat
  }

  /** An occurrence in the tail is an occurrence one place further on. */
  lemma OccursShift(s: string, pat: string, i: int)
    requires s != [] && 0 <= i
    ensures OccursAt(s[1..], pat, i) <==> OccursAt(s, pat, i + 1)
  {
  }

  /** `Contains` holds exactly when some slice of `s` equals `pat`. */
  lemma {:induction false} ContainsAt(s: string, pat: string)
    ensures Contains(s, pat) <==> exists i :: OccursAt(s, pat, i)
    decreases |s|
  {
    if pat <= s {
      assert OccursAt(s, pat, 0);
    } else if s == [] {
    } else {
      ContainsAt(s[1..], pat);
      if exists i :: OccursAt(s, pat, i) {
        var i :| OccursAt(s, pat, i);
        assert i != 0;
        OccursShift(s, pat, i - 1);
      }
      if Contains(s[1..], pat) {
        var i :| OccursAt(s[1..], pat, i);
        OccursShift(s, pat, i);
      }
    }
  }

  /** The index of the last non-whitespace character of `s`, plus one. */
  function TrailingStart(s: string): (n: nat)
    ensures n <= |s|
    ensures forall k :: n <= k < |s| ==> IsSpace(s[k])
    ensures n == 0 || !IsSpace(s[n - 1])
  {
    if s != [] && IsSpace(s[|s| - 1]) then TrailingStart(s[..|s| - 1]) else |s|
  }

  /** The first index from `i` on that is not whitespace (or `|s|`). */
  function SkipSpaces(s: string, i: nat): (j: nat)
    requires i <= |s|
    ensures i <= j <= |s|
    ensures j == |s| || !IsSpace(s[j])
    decreases |s| - i
  {
    if i < |s| && IsSpace(s[i]) then SkipSpaces(s, i + 1) else i
  }

  /** Everything `SkipSpaces` passes over is whitespace. */
  lemma {:induction false} SkipSpacesSpan(s: string, i: nat)
    requires i <= |s|
    ensures forall k :: i <= k < SkipSpaces(s, i) ==> IsSpace(s[k])
    decreases |s| - i
  {
    if i < |s| && IsSpace(s[i]) {
      SkipSpacesSpan(s, i + 1);
    }
  }

  /** `r` is `s[i..j]`, and everything outside that slice is whitespace. */
  predicate StrippedSlice(s: string, r: string, i: int, j: int) {
    && 0 <= i <= j <= |s| && r == s[i..j]
    && (forall k :: 0 <= k < i ==> IsSpace(s[k]))
    && (forall k :: j <= k < |s| ==> IsSpace(s[k]))
  }

  /** `s.strip()`: a slice of `s` that neither starts nor ends with whitespace,
      with only whitespace cut away on either side. */
  function Strip(s: string): (r: string)
    ensures exists i, j :: StrippedSlice(s, r, i, j)
    ensures forall c :: c in r ==> c in s
    ensures r == [] || (!IsSpace(r[0]) && !IsSpace(r[|r| - 1]))
  {
    var i := SkipSpaces(s, 0);
    var j := TrailingStart(s);
    SkipSpacesSpan(s, 0);
    if j <= i then
      assert StrippedSlice(s, [], i, i);
      []
    else
      assert StrippedSlice(s, s[i..j], i, j);
      s[i..j]
  }

  /** A token of `str.split()`: non-empty, without whitespace. */
  predicate IsWord(w: string) {
    w != [] && NoSpace(w)
  }

  predicate AllWords(ws: seq<string>) {
    forall k :: 0 <= k < |ws| ==> IsWord(ws[k])
  }

  /** The scanner behind `str.split()`: `word` is the token read so far, and
      each whitespace character ends it. */
  function Scan(s: string, word: string): (ws: seq<string>)
  {
    if s == [] then (if word == [] then [] else [word])
    else if IsSpace(s[0]) then (if word == [] then [] else [word]) + Scan(s[1..], [])
    else Scan(s[1..], word + [s[0]])
  }

  /** `s.split()`: the maximal runs of non-whitespace characters, in order;
      every token is non-empty and free of whitespace. */
  function Words(s: string): (ws: seq<string>)
    ensures AllWords(ws)
  {
    ScanAreWords(s, []);
    Scan(s, [])
  }

  /** Every token is non-empty and free of whitespace. */
  lemma {:induction false} ScanAreWords(s: string, word: string)
    requires NoSpace(word)
    ensures AllWords(Scan(s, word))
  {
    if s == [] {
    } else if IsSpace(s[0]) {
      ScanAreWords(s[1..], []);
    } else {
      ScanAreWords(s[1..], word + [s[0]]);
    }
  }


  /** Characters of a word are appended to the token being read. */
  lemma {:induction false} ScanWord(w: string, rest: string, word: string)
    requires NoSpace(w)
    ensures Scan(w + rest, word) == Scan(rest, word + w)
  {
    if w == [] {
      assert w + rest == rest && word + w == word;
    } else {
      assert (w + rest)[0] == w[0] && (w + rest)[1..] == w[1..] + rest;
      ScanWord(w[1..], rest, word + [w[0]]);
      assert word + [w[0]] + w[1..] == word + w;
    }
  }

  /** A word, one whitespace character, then the rest: the word is the first
      token and the rest gives the others. */
  lemma WordsJoin(w: string, c: char, rest: string)
    requires IsWord(w) && IsSpace(c)
    ensures Words(w + [c] + rest) == [w] + Words(rest)
  {
    ScanWord(w, [c] + rest, []);
    assert w + [c] + rest == w + ([c] + rest);
    assert [] + w == w;
    assert ([c] + rest)[1..] == rest;
  }

  /** A single word is its own only token. */
  lemma WordsSingle(w: string)
    requires IsWord(w)
    ensures Words(w) == [w]
  {
    ScanWord(w, [], []);
    assert w + [] == w && [] + w == w;
  }

  /** Leading whitespace produces no token. */
  lemma WordsSkipSpace(c: char, s: string)
    requires IsSpace(c)
    ensures Words([c] + s) == Words(s)
  {
    assert ([c] + s)[1..] == s;
  }

  /** `"".join(ws)`. */
  function Joined(ws: seq<string>): string {
    if ws == [] then [] else ws[0] + Joined(ws[1..])
  }

  /** The characters of `s` that are not whitespace, in order. */
  function NonSpaceChars(s: string): string {
    if s == [] then [] else (if IsSpace(s[0]) then [] else [s[0]]) + NonSpaceChars(s[1..])
  }

  /** The scanner loses no character: the pending token followed by the
      tokens of the rest is the pending token and the rest's non-whitespace. */
  lemma {:induction false} ScanJoined(s: string, word: string)
    ensures Joined(Scan(s, word)) == word + NonSpaceChars(s)
  {
    if s == [] {
      if word != [] {
        assert Joined([word]) == word + Joined([]);
      }
    } else if IsSpace(s[0]) {
      ScanJoined(s[1..], []);
      var rest := Scan(s[1..], []);
      if word != [] {
        assert ([word] + rest)[0] == word && ([word] + rest)[1..] == rest;
      } else {
        assert [] + rest == rest;
      }
    } else {
      ScanJoined(s[1..], word + [s[0]]);
      assert word + [s[0]] + NonSpaceChars(s[1..]) == word + ([s[0]] + NonSpaceChars(s[1..]));
    }
  }

  /** Joining the tokens of `split()` gives back exactly the non-whitespace
      characters of the input, in order. */
  lemma WordsComplete(s: string)
    ensures Joined(Words(s)) == NonSpaceChars(s)
  {
    ScanJoined(s, []);
  }
}
