/**
 * Image search (`search_nasa_images`): the request built from the query, and
 * the mapping of the JSON answer of the NASA image API to image candidates.
 *
 * The HTTP service is a parameter: a function from the request to the reply.
 */
module ImageSearch {
  import opened Wrappers
  import opened Text

  /** The fields of `item["data"][0]`; `None` is a missing key. */
  datatype DataBlock = DataBlock(title: Option<string>, description: Option<string>, dateCreated: Option<string>)

  /** One entry of `item["links"]`; `None` is a missing `href`. */
  datatype Link = Link(href: Option<string>)

  /** One entry of `collection.items`; `None` is a missing `data` or `links` key. */
  datatype Item = Item(data: Option<seq<DataBlock>>, links: Option<seq<Link>>)

  /** The decoded body: not JSON at all (`response.json()` raises), or JSON whose
      `collection.items` is `items` (`None` when either key is missing). */
  datatype SearchBody = NotJson | Json(items: Option<seq<Item>>)

  datatype SearchReply = TransportError | Response(status: int, body: SearchBody)

  datatype SearchRequest = SearchRequest(url: string, q: string, mediaType: string)

  datatype ImageCandidate = ImageCandidate(title: string, description: string, dateCreated: string, imageUrl: string)

  const SearchUrl: string := "https://images-api.nasa.gov/search"

  /** `s.replace("'", "")`: every apostrophe removed, every other character kept. */
  function RemoveApostrophes(s: string): (r: string)
    ensures '\'' !in r && |r| <= |s|
    ensures forall c :: c != '\'' ==> multiset(r)[c] == multiset(s)[c]
  {
    if s == [] then []
    else
      var rest := RemoveApostrophes(s[1..]);
      assert s == [s[0]] + s[1..];
      if s[0] == '\'' then rest else [s[0]] + rest
  }

  /** Removing apostrophes works piece by piece: the kept characters stay in
      their order. */
  lemma {:induction false} RemoveApostrophesAppend(a: string, b: string)
    ensures RemoveApostrophes(a + b) == RemoveApostrophes(a) + RemoveApostrophes(b)
  {
    if a == [] {
      assert a + b == b;
    } else {
      assert (a + b)[0] == a[0] && (a + b)[1..] == a[1..] + b;
      RemoveApostrophesAppend(a[1..], b);
    }
  }

  /** Text without apostrophes is left as it is. */
  lemma {:induction false} RemoveApostrophesNone(s: string)
    requires '\'' !in s
    ensures RemoveApostrophes(s) == s
  {
    if s != [] {
      assert '\'' !in s[1..];
      RemoveApostrophesNone(s[1..]);
      assert s == [s[0]] + s[1..];
    }
  }

  /** `query.replace("'", "").strip()`: the query without its apostrophes,
      with only whitespace cut away at either end, so that it has no
      apostrophe and no whitespace at either end. */
  function CleanQuery(query: string): (q: string)
    ensures exists i, j :: StrippedSlice(RemoveApostrophes(query), q, i, j)
    ensures '\'' !in q
    ensures q == [] || (!IsSpace(q[0]) && !IsSpace(q[|q| - 1]))
  {
    Strip(RemoveApostrophes(query))
  }

  /** The GET request of lines 142-146: the fixed search URL, media type
      `image`, and the cleaned query. */
  function RequestFor(query: string): (r: SearchRequest)
    ensures r.url == "https://images-api.nasa.gov/search" && r.mediaType == "image"
    ensures '\'' !in r.q && exists i, j :: StrippedSlice(RemoveApostrophes(query), r.q, i, j)
  {
    SearchRequest(SearchUrl, CleanQuery(query), "image")
  }

  /** Python's `items[:n]`: the first `n` items, or for a negative `n` all but
      the last `-n`. */
  function Slice<T>(items: seq<T>, n: int): (r: seq<T>)
    ensures r <= items
    ensures n >= 0 ==> |r| == if n < |items| then n else |items|
    ensures n < 0 ==> |r| == if |items| + n > 0 then |items| + n else 0
  {
    if n >= |items| then items
    else if n >= 0 then items[..n]
    else if |items| + n > 0 then items[..|items| + n]
    else []
  }

  /** An item the loop body can map without raising: `data[0]` exists, and
      `links`, when present, has a first entry. */
  predicate Mappable(item: Item) {
    item.data.Some? && |item.data.value| > 0 && (item.links.None? || |item.links.value| > 0)
  }

  /** The record of lines 155-160: a field present in `data[0]` is taken as
      it is, and so is the `href` of the first link. */
  function ToCandidate(item: Item): (c: ImageCandidate)
    requires Mappable(item)
    ensures var d := item.data.value[0];
      && (d.title.Some? ==> c.title == d.title.value)
      && (d.description.Some? ==> c.description == d.description.value)
      && (d.dateCreated.Some? ==> c.dateCreated == d.dateCreated.value)
      && (item.links.Some? && item.links.value[0].href.Some? ==> c.imageUrl == item.links.value[0].href.value)
  {
    var d := item.data.value[0];
    ImageCandidate(
      d.title.GetOr("Sem título"),
      d.description.GetOr("Sem descrição"),
      d.dateCreated.GetOr("Desconhecida"),
      if item.links.None? then "" else item.links.value[0].href.GetOr(""))
  }

  predicate AllMappable(items: seq<Item>) {
    forall k :: 0 <= k < |items| ==> Mappable(items[k])
  }

  function Candidates(items: seq<Item>): (cs: seq<ImageCandidate>)
    requires AllMappable(items)
    ensures |cs| == |items|
  {
    if items == [] then [] else Candidates(items[..|items| - 1]) + [ToCandidate(items[|items| - 1])]
  }

  /** The items the loop visits for a successful JSON reply. */
  function Taken(items: Option<seq<Item>>, maxResults: int): seq<Item> {
    Slice(items.GetOr([]), maxResults)
  }

  /** What the search returns for a reply: `[]` on a transport error, a status
      other than 200, a body that is not JSON, or an item among the visited
      ones that cannot be mapped (each raises into the handler); otherwise the
      mapped visited items. */
  function SearchResults(reply: SearchReply, maxResults: int): (r: seq<ImageCandidate>)
    ensures 0 <= maxResults ==> |r| <= maxResults
    ensures r != [] ==> reply.Response? && reply.status == 200 && reply.body.Json?
    ensures reply.Response? && reply.status == 200 && reply.body.Json?
              && AllMappable(Taken(reply.body.items, maxResults)) ==>
              |r| == |Taken(reply.body.items, maxResults)|
  {
    match reply
    case TransportError => []
    case Response(status, body) =>
      if status != 200 || body.NotJson? then []
      else
        var taken := Taken(body.items, maxResults);
        if AllMappable(taken) then Candidates(taken) else []
  }

  /** Candidate `k` is the mapping of item `k`: order is kept and nothing is
      added or dropped. */
  lemma {:induction false} CandidatesAt(items: seq<Item>)
    requires AllMappable(items)
    ensures |Candidates(items)| == |items|
    ensures forall k :: 0 <= k < |items| ==> Candidates(items)[k] == ToCandidate(items[k])
  {
    if items != [] {
      CandidatesAt(items[..|items| - 1]);
    }
  }

  /** A non-200 status gives no candidates. */
  lemma SearchNon200(reply: SearchReply, maxResults: int)
    requires reply.Response? && reply.status != 200
    ensures SearchResults(reply, maxResults) == []
  {
  }

  /** The search returns at most `maxResults` candidates, each the mapping of
      the API item at the same position. */
  lemma SearchBoundedAndOrdered(reply: SearchReply, maxResults: int)
    ensures 0 <= maxResults ==> |SearchResults(reply, maxResults)| <= maxResults
    ensures var r := SearchResults(reply, maxResults);
      r != [] ==>
        (&& reply.Response? && reply.status == 200 && reply.body.Json?
         && reply.body.items.Some? && |r| <= |reply.body.items.value|
         && forall k :: 0 <= k < |r| ==>
              Mappable(reply.body.items.value[k]) && r[k] == ToCandidate(reply.body.items.value[k]))
  {
    if reply.Response? && reply.status == 200 && reply.body.Json? {
      var taken := Taken(reply.body.items, maxResults);
      if AllMappable(taken) {
        CandidatesAt(taken);
      }
    }
  }

  /** With well-formed visited items, a successful reply keeps
      `min(maxResults, |items|)` of them: 15 items with limit 10 give 10, and
      3 items with limit 10 give all 3. */
  lemma SearchTruncates(items: seq<Item>, maxResults: int)
    requires 0 <= maxResults && AllMappable(Taken(Some(items), maxResults))
    ensures |SearchResults(Response(200, Json(Some(items))), maxResults)|
      == if maxResults < |items| then maxResults else |items|
  {
    CandidatesAt(Taken(Some(items), maxResults));
  }

  /** A visited item without `data[0]`, or with an empty `links` list, makes
      the whole search return `[]`, even when the other items are fine. */
  lemma SearchMalformedItem(items: seq<Item>, maxResults: int, k: nat)
    requires k < |Taken(Some(items), maxResults)| && !Mappable(items[k])
    ensures SearchResults(Response(200, Json(Some(items))), maxResults) == []
  {
  }

  /** Each missing field takes the source's placeholder, whatever the other
      fields hold. */
  lemma CandidateDefaults(item: Item)
    requires Mappable(item)
    ensures var d, c := item.data.value[0], ToCandidate(item);
      && (d.title.None? ==> c.title == "Sem título")
      && (d.description.None? ==> c.description == "Sem descrição")
      && (d.dateCreated.None? ==> c.dateCreated == "Desconhecida")
      && (item.links.None? || item.links.value[0].href.None? ==> c.imageUrl == "")
  {
  }

  /** Lines 148-161 of `search_nasa_images`: the status test, then the loop of
      lines 152-160 that appends one candidate per visited item; an item that
      cannot be mapped raises and abandons the whole search. */
  method MapReply(reply: SearchReply, maxResults: int) returns (results: seq<ImageCandidate>)
    ensures results == SearchResults(reply, maxResults)
  {
    if reply.TransportError? || reply.status != 200 || reply.body.NotJson? {
      return [];
    }
    var items := Taken(reply.body.items, maxResults);
    results := [];
    var i := 0;
    while i < |items|
      invariant 0 <= i <= |items|
      invariant AllMappable(items[..i])
      invariant results == Candidates(items[..i])
    {
      if !Mappable(items[i]) {
        return [];
      }
      assert items[..i + 1][..i] == items[..i];
      results := results + [ToCandidate(items[i])];
      i := i + 1;
    }
    assert items[..i] == items;
  }

  /** `search_nasa_images(query, max_results)` against the image API `api`. */
  method SearchImages(query: string, maxResults: int, api: SearchRequest -> SearchReply)
    returns (results: seq<ImageCandidate>)
    ensures results == SearchResults(api(RequestFor(query)), maxResults)
  {
    var reply := api(RequestFor(query));
    results := MapReply(reply, maxResults);
  }
}
