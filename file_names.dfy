/**
 * File names the fetcher derives from titles (`limpar_nome_arquivo`) and the
 * names of the files it writes: the image files chosen in `main` and the
 * `<name>_info.txt` report.
 */
module FileNames {
  import opened Text

  // The nine characters of the regular-expression character class used by
  // `limpar_nome_arquivo`: backslash, slash, star, question mark, colon,
  // double quote, less-than, greater-than and bar.
  const UnsafeChars: string := "\\/*?:\"<>|"

  /** A character that sanitisation turns into `_`: a space or an unsafe character. */
  predicate Replaced(c: char) {
    c == ' ' || c in UnsafeChars
  }

  /** The sanitised form of one character. */
  function SafeChar(c: char): (d: char)
    ensures !Replaced(d)
    ensures Replaced(c) ==> d == '_'
    ensures !Replaced(c) ==> d == c
  {
    if Replaced(c) then '_' else c
  }

  /** First pass, `texto.replace(" ", "_")`. */
  function ReplaceSpaces(s: string): (r: string)
    ensures |r| == |s|
    ensures forall k :: 0 <= k < |s| ==> r[k] == (if s[k] == ' ' then '_' else s[k])
  {
    if s == [] then [] else [if s[0] == ' ' then '_' else s[0]] + ReplaceSpaces(s[1..])
  }

  // Second pass: `re.sub` of every character of that class by `_`.
  function ReplaceUnsafe(s: string): (r: string)
    ensures |r| == |s|
    ensures forall k :: 0 <= k < |s| ==> r[k] == (if s[k] in UnsafeChars then '_' else s[k])
  {
    if s == [] then [] else [if s[0] in UnsafeChars then '_' else s[0]] + ReplaceUnsafe(s[1..])
  }

  /** `limpar_nome_arquivo`: the two passes in the source's order. Each space
      or unsafe character becomes `_`, every other character is kept, and the
      length does not change. */
  function Sanitize(s: string): (r: string)
    ensures |r| == |s|
    ensures forall k :: 0 <= k < |s| ==> r[k] == SafeChar(s[k])
  {
    ReplaceUnsafe(ReplaceSpaces(s))
  }

  /** A sanitised name contains no space and none of `\ / * ? : " < > |`. */
  lemma SanitizedIsSafe(s: string)
    ensures forall k :: 0 <= k < |Sanitize(s)| ==> !Replaced(Sanitize(s)[k])
    ensures ' ' !in Sanitize(s)
    ensures forall c :: c in UnsafeChars ==> c !in Sanitize(s)
  {
  }

  /** Sanitising twice is sanitising once. */
  lemma SanitizeIdempotent(s: string)
    ensures Sanitize(Sanitize(s)) == Sanitize(s)
  {
  }

  /** `date.split("T")[0]`: the part of `date` before its first `T`. */
  function BeforeFirstT(date: string): (p: string)
    ensures p <= date && 'T' !in p
    ensures 'T' in date ==> |p| < |date| && date[|p|] == 'T'
  {
    if date == [] || date[0] == 'T' then [] else [date[0]] + BeforeFirstT(date[1..])
  }

  /** The date part of an image file name (nasa_nebula_fetcher.py, line 210). */
  function DatePart(date: string): (d: string)
    ensures 'T' !in d
    ensures 'T' in date ==> d <= date && date[|d|] == 'T'
    ensures 'T' !in date ==> d == "data_desconhecida"
  {
    if 'T' in date then BeforeFirstT(date) else "data_desconhecida"
  }

  /** `f"{limpar_nome_arquivo(title)}_{data_formatada}.jpg"`: five characters
      (`_` and `.jpg`) longer than the title and the date part together, since
      sanitising keeps the length; `ImageFileNameShape` gives the layout. */
  function ImageFileName(title: string, date: string): (f: string)
    ensures |f| == |title| + 1 + |DatePart(date)| + 4
  {
    Sanitize(title) + "_" + DatePart(date) + ".jpg"
  }

  /** `f"{limpar_nome_arquivo(nome_nebulosa)}_info.txt"`: the sanitised name,
      exactly as long as the name, then `_info.txt`. */
  function ReportFileName(name: string): (f: string)
    ensures |f| == |name| + 9
    ensures f[..|name|] == Sanitize(name)
    ensures f[|name|..] == "_info.txt"
  {
    Sanitize(name) + "_info.txt"
  }

  /** The layout of `s + "_" + d + ".jpg"`, for any `s` and `d`. */
  lemma JpgLayout(s: string, d: string)
    ensures var f := s + ("_" + d + ".jpg");
      && |f| == |s| + |d| + 5
      && f[..|s|] == s && f[|s|] == '_'
      && f[|s| + 1..|f| - 4] == d && f[|f| - 4..] == ".jpg"
  {
    var tail := "_" + d + ".jpg";
    var f := s + tail;
    assert tail == "_" + (d + ".jpg") && tail[1..] == d + ".jpg";
    assert f[|s|..] == tail;
    assert f[|s| + 1..] == d + ".jpg";
  }

  /** An image file name is the sanitised title, exactly as long as the
      title, then `_`, the date part and `.jpg`. */
  lemma ImageFileNameShape(title: string, date: string)
    ensures var f := ImageFileName(title, date);
      && f[..|title|] == Sanitize(title)
      && f[|title|] == '_'
      && f[|title| + 1..|f| - 4] == DatePart(date)
      && f[|f| - 4..] == ".jpg"
  {
    JpgLayout(Sanitize(title), DatePart(date));
    assert ImageFileName(title, date) == Sanitize(title) + ("_" + DatePart(date) + ".jpg");
  }

  /** No space or unsafe character of the title survives in the part of an
      image file name that comes from the title. */
  lemma ImageFileNameSafeTitle(title: string, date: string)
    ensures forall k :: 0 <= k < |title| ==> !Replaced(ImageFileName(title, date)[k])
  {
    var f := ImageFileName(title, date);
    SanitizedIsSafe(title);
    assert forall k :: 0 <= k < |title| ==> f[k] == f[..|title|][k];
  }

  /** The default creation date "Desconhecida" has no `T`, so it gives the
      suffix `_data_desconhecida.jpg`. */
  lemma UnknownDateSuffix(date: string, suffix: string)
    requires date == "Desconhecida" && suffix == "_data_desconhecida.jpg"
    ensures "_" + DatePart(date) + ".jpg" == suffix
  {
    assert 'T' !in date;
  }

  /** The default creation date "Desconhecida" of a search result has no `T`,
      so its image is named `<title>_data_desconhecida.jpg`. */
  lemma UnknownDateName(title: string, date: string)
    requires date == "Desconhecida"
    ensures ImageFileName(title, date) == Sanitize(title) + "_data_desconhecida.jpg"
  {
    var suffix := "_data_desconhecida.jpg";
    UnknownDateSuffix(date, suffix);
    assert ImageFileName(title, date) == Sanitize(title) + ("_" + DatePart(date) + ".jpg");
  }

  /** `split("T")[0]` keeps exactly what precedes the first `T`, whatever follows it. */
  lemma {:induction false} BeforeFirstTOf(p: string, q: string)
    requires 'T' !in p
    ensures BeforeFirstT(p + "T" + q) == p
  {
    if p != [] {
      assert (p + "T" + q)[1..] == p[1..] + "T" + q;
      BeforeFirstTOf(p[1..], q);
    }
  }

  /** The date part of `<day>T<time>` is `<day>` when `<day>` has no `T`. */
  lemma DatePartOfTimestamp(day: string, time: string)
    requires 'T' !in day
    ensures DatePart(day + "T" + time) == day
  {
    var d := day + "T" + time;
    assert d[|day|] == 'T';
    BeforeFirstTOf(day, time);
  }

  /** An ISO timestamp keeps only its calendar date. */
  lemma IsoDatePart()
    ensures DatePart("2004-05-11T00:00:00Z") == "2004-05-11"
  {
    var day, time := "2004-05-11", "00:00:00Z";
    assert 'T' !in day;
    assert day + "T" + time == "2004-05-11T00:00:00Z";
    DatePartOfTimestamp(day, time);
  }
}
