/**
 * The selection step of `main` (lines 204-215): the numbers the user types
 * are turned into 0-based indices, and every index inside the result list
 * downloads one image and records its file name.
 */
module Selection {
  import opened Text
  import opened FileNames
  import opened ImageSearch

  /** One call `download_and_show_image(url, file_name)`. */
  datatype Download = Download(url: string, fileName: string)

  /** `[int(n) - 1 for n in tokens if n.isdigit()]`. */
  function ChosenIndices(tokens: seq<string>): (idx: seq<int>)
    ensures |idx| <= |tokens|
    ensures forall k :: 0 <= k < |idx| ==> idx[k] >= -1
  {
    if tokens == [] then []
    else
      var head := if IsDigits(tokens[0]) then [DigitsValue(tokens[0]) - 1] else [];
      head + ChosenIndices(tokens[1..])
  }

  /** The indices read from one line of input. */
  function SelectionIndices(selection: string): seq<int> {
    ChosenIndices(Words(selection))
  }

  /** The download of one candidate, under the name built on line 211. */
  function DownloadFor(c: ImageCandidate): Download {
    Download(c.imageUrl, ImageFileName(c.title, c.dateCreated))
  }

  /** The number of indices inside `[0, n)`. */
  function InRange(indices: seq<int>, n: int): (c: nat)
    ensures c <= |indices|
  {
    if indices == [] then 0
    else InRange(indices[..|indices| - 1], n) + (if 0 <= indices[|indices| - 1] < n then 1 else 0)
  }

  /** The downloads the loop performs for `indices`: one per index inside
      `images`, nothing for the others, so never more than there are indices. */
  function Planned(images: seq<ImageCandidate>, indices: seq<int>): (ds: seq<Download>)
    ensures |ds| == InRange(indices, |images|)
  {
    if indices == [] then []
    else
      var i := indices[|indices| - 1];
      Planned(images, indices[..|indices| - 1])
        + (if 0 <= i < |images| then [DownloadFor(images[i])] else [])
  }

  /** Selecting tokens distributes over concatenation: tokens are taken in
      input order. */
  lemma {:induction false} ChosenIndicesAppend(a: seq<string>, b: seq<string>)
    ensures ChosenIndices(a + b) == ChosenIndices(a) + ChosenIndices(b)
  {
    if a != [] {
      assert (a + b)[1..] == a[1..] + b;
      ChosenIndicesAppend(a[1..], b);
    } else {
      assert a + b == b;
    }
  }

  /** A token gives an index exactly when it is all digits, and that index is
      its value minus one. */
  lemma ChosenIndicesSingle(t: string)
    ensures ChosenIndices([t]) == if IsDigits(t) then [DigitsValue(t) - 1] else []
  {
  }

  /** Planning distributes over concatenation: downloads follow the order of
      the indices, duplicates included. */
  lemma {:induction false} PlannedAppend(images: seq<ImageCandidate>, a: seq<int>, b: seq<int>)
    ensures Planned(images, a + b) == Planned(images, a) + Planned(images, b)
    decreases |b|
  {
    if b == [] {
      assert a + b == a;
    } else {
      var last := b[|b| - 1];
      assert (a + b)[..|a + b| - 1] == a + b[..|b| - 1];
      PlannedAppend(images, a, b[..|b| - 1]);
    }
  }

  /** An index inside the list downloads exactly that candidate; any other
      index downloads nothing. */
  lemma PlannedSingle(images: seq<ImageCandidate>, i: int)
    ensures Planned(images, [i]) == if 0 <= i < |images| then [DownloadFor(images[i])] else []
  {
  }

  /** Planning one more index appends that index's download, if any. */
  lemma PlannedStep(images: seq<ImageCandidate>, chosen: seq<int>, n: nat)
    requires n < |chosen|
    ensures Planned(images, chosen[..n + 1]) == Planned(images, chosen[..n])
      + (if 0 <= chosen[n] < |images| then [DownloadFor(images[chosen[n]])] else [])
  {
    assert chosen[..n + 1][..n] == chosen[..n];
  }

  /** The loop of lines 207-215 over the chosen indices: for every index
      inside the list, one download call and one file name appended to
      `imagens_baixadas`; the file name is recorded whether or not the
      download succeeds. */
  method DownloadChosen(images: seq<ImageCandidate>, chosen: seq<int>)
    returns (downloads: seq<Download>, files: seq<string>)
    ensures downloads == Planned(images, chosen)
    ensures |files| == |downloads|
    ensures forall k :: 0 <= k < |files| ==> files[k] == downloads[k].fileName
  {
    downloads, files := [], [];
    var n := 0;
    while n < |chosen|
      invariant 0 <= n <= |chosen|
      invariant downloads == Planned(images, chosen[..n])
      invariant |files| == |downloads|
      invariant forall k :: 0 <= k < |files| ==> files[k] == downloads[k].fileName
    {
      var idx := chosen[n];
      PlannedStep(images, chosen, n);
      if 0 <= idx < |images| {
        var d := DownloadFor(images[idx]);
        downloads := downloads + [d];
        files := files + [d.fileName];
      }
      n := n + 1;
    }
    assert chosen[..n] == chosen;
  }

  /** `"1 99 abc 2".split()` gives the four tokens in order. */
  lemma ExampleWords(s: string, t1: string, t2: string, t3: string, t4: string)
    requires t1 == "1" && t2 == "99" && t3 == "abc" && t4 == "2"
    requires s == t1 + " " + t2 + " " + t3 + " " + t4
    ensures Words(s) == [t1, t2, t3, t4]
  {
    var r3 := t3 + [' '] + t4;
    var r2 := t2 + [' '] + r3;
    assert s == t1 + [' '] + r2;
    WordsSingle(t4);
    WordsJoin(t3, ' ', t4);
    WordsJoin(t2, ' ', r3);
    WordsJoin(t1, ' ', r2);
  }

  /** "1" selects index 0. */
  lemma SelectsOne(t: string)
    requires t == "1"
    ensures ChosenIndices([t]) == [0]
  {
  }

  /** "2" selects index 1. */
  lemma SelectsTwo(t: string)
    requires t == "2"
    ensures ChosenIndices([t]) == [1]
  {
  }

  /** "99" selects index 98. */
  lemma SelectsNinetyNine(t: string)
    requires t == "99"
    ensures ChosenIndices([t]) == [98]
  {
  }

  /** "abc" is not numeric and selects nothing. */
  lemma SelectsNothing(t: string)
    requires t == "abc"
    ensures ChosenIndices([t]) == []
  {
  }

  /** Four tokens are selected one by one. */
  lemma ChosenIndicesFour(t1: string, t2: string, t3: string, t4: string)
    ensures ChosenIndices([t1, t2, t3, t4])
         == ChosenIndices([t1]) + ChosenIndices([t2]) + ChosenIndices([t3]) + ChosenIndices([t4])
  {
    assert [t1, t2, t3, t4] == [t1] + [t2] + [t3] + [t4];
    ChosenIndicesAppend([t1] + [t2] + [t3], [t4]);
    ChosenIndicesAppend([t1] + [t2], [t3]);
    ChosenIndicesAppend([t1], [t2]);
  }

  /** The tokens "1", "99", "abc", "2" select indices 0, 98 and 1. */
  lemma ExampleIndices(t1: string, t2: string, t3: string, t4: string)
    requires t1 == "1" && t2 == "99" && t3 == "abc" && t4 == "2"
    ensures ChosenIndices([t1, t2, t3, t4]) == [0, 98, 1]
  {
    ChosenIndicesFour(t1, t2, t3, t4);
    SelectsOne(t1);
    SelectsNinetyNine(t2);
    SelectsNothing(t3);
    SelectsTwo(t4);
  }

  /** Three indices are planned one by one. */
  lemma PlannedThree(images: seq<ImageCandidate>, i1: int, i2: int, i3: int)
    ensures Planned(images, [i1, i2, i3]) == Planned(images, [i1]) + Planned(images, [i2]) + Planned(images, [i3])
  {
    assert [i1, i2, i3] == [i1] + [i2] + [i3];
    PlannedAppend(images, [i1] + [i2], [i3]);
    PlannedAppend(images, [i1], [i2]);
  }

  /** Indices 0, 98 and 1 against a list of two to ten results download the
      first and second results, in that order. */
  lemma ExamplePlanned(images: seq<ImageCandidate>, i1: int, i2: int, i3: int)
    requires i1 == 0 && i2 == 98 && i3 == 1 && 2 <= |images| <= 10
    ensures Planned(images, [i1, i2, i3]) == [DownloadFor(images[0]), DownloadFor(images[1])]
  {
    PlannedThree(images, i1, i2, i3);
    PlannedSingle(images, i1);
    PlannedSingle(images, i2);
    PlannedSingle(images, i3);
  }

  /** Input "1 99 abc 2" against a list of two to ten results downloads the
      first and second results, in that order: "abc" is dropped as not
      numeric and 99 is outside the list. */
  lemma ExampleSelection(s: string, images: seq<ImageCandidate>)
    requires s == "1 99 abc 2" && 2 <= |images| <= 10
    ensures SelectionIndices(s) == [0, 98, 1]
    ensures Planned(images, SelectionIndices(s)) == [DownloadFor(images[0]), DownloadFor(images[1])]
  {
    ExampleWords(s, "1", "99", "abc", "2");
    ExampleIndices("1", "99", "abc", "2");
    ExamplePlanned(images, 0, 98, 1);
  }
}
