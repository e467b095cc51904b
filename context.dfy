/**
 * `get_search_result`: searches for ten hits and turns the priced ones into
 * a numbered context block, one fragment per kept hit:
 *   "\n{i}) Tên: {title}, Giá: {price}" and, when the description is
 *   truthy, ", Nội dung mô tả: {content}".
 */
module Context {
  import opened Python
  import opened Embedder
  import opened Retrieval

  /** How many hits the chatbot asks the search for. */
  const ResultLimit := 10

  /** The phrase the price field falls back to ("contact us to discuss"). */
  const PriceFallback := "Liên hệ để trao đổi thêm!"

  const TitleLabel := ") Tên: "
  const PriceLabel := ", Giá: "
  const ContentLabel := ", Nội dung mô tả: "

  /** The description suffix of a fragment: present only for truthy content. */
  function ContentSuffix(content: Value): string {
    if Truthy(content) then ContentLabel + Format(content) else ""
  }

  /** The fragment written for the hit numbered n. */
  function Entry(n: nat, hit: SearchHit): string {
    "\n" + NatToDecimal(n) + TitleLabel + Format(hit.title)
      + PriceLabel + Format(Or(hit.price, Str(PriceFallback)))
      + ContentSuffix(hit.content)
  }

  /** The hits the loop keeps: those whose price is truthy, in their order. */
  function Priced(hits: seq<SearchHit>): (kept: seq<SearchHit>)
    ensures |kept| <= |hits|
  {
    if hits == [] then []
    else if Truthy(hits[0].price) then [hits[0]] + Priced(hits[1..])
    else Priced(hits[1..])
  }

  /** A hit is kept exactly when it is among the hits and its price is truthy. */
  lemma {:induction false} PricedMembers(hits: seq<SearchHit>)
    ensures forall h :: h in Priced(hits) <==> h in hits && Truthy(h.price)
  {
    if hits != [] {
      PricedMembers(hits[1..]);
      assert hits == [hits[0]] + hits[1..];
    }
  }

  /** Appending the pieces of a fragment one by one, as the loop does, appends the fragment. */
  lemma AppendEntry(s: string, n: nat, hit: SearchHit)
    ensures Truthy(hit.content) ==>
      s + Entry(n, hit) == s + "\n" + NatToDecimal(n) + TitleLabel + Format(hit.title) + PriceLabel
                           + Format(Or(hit.price, Str(PriceFallback))) + ContentLabel + Format(hit.content)
    ensures !Truthy(hit.content) ==>
      s + Entry(n, hit) == s + "\n" + NatToDecimal(n) + TitleLabel + Format(hit.title) + PriceLabel
                           + Format(Or(hit.price, Str(PriceFallback)))
  {
    var p1, p2, p3, p4 := "\n", NatToDecimal(n), TitleLabel, Format(hit.title);
    var p5, p6, p7 := PriceLabel, Format(Or(hit.price, Str(PriceFallback))), ContentSuffix(hit.content);
    var e2 := p1 + p2;
    var e3 := e2 + p3;
    var e4 := e3 + p4;
    var e5 := e4 + p5;
    var e6 := e5 + p6;
    assert Entry(n, hit) == e6 + p7;
    Assoc(s, e6, p7);
    Assoc(s, e5, p6);
    Assoc(s, e4, p5);
    Assoc(s, e3, p4);
    Assoc(s, e2, p3);
    Assoc(s, p1, p2);
    if Truthy(hit.content) {
      Assoc(s + e6, ContentLabel, Format(hit.content));
    } else {
      assert (s + e6) + p7 == s + e6;
    }
  }

  lemma Assoc(a: string, b: string, c: string)
    ensures a + (b + c) == (a + b) + c
  {
  }

  /** `"".join(parts)`. */
  function Join(parts: seq<string>): string {
    if parts == [] then "" else parts[0] + Join(parts[1..])
  }

  /** The fragments of the kept hits, the j-th (from 0) numbered n + j. */
  function Fragments(kept: seq<SearchHit>, n: nat): seq<string> {
    seq(|kept|, j requires 0 <= j < |kept| => Entry(n + j, kept[j]))
  }

  /** The context block for a list of hits: the kept hits' fragments, numbered from 1. */
  function FormatContext(hits: seq<SearchHit>): string {
    Join(Fragments(Priced(hits), 1))
  }

  /** Keeping commutes with appending one more hit at the end. */
  lemma {:induction false} PricedSnoc(hits: seq<SearchHit>, h: SearchHit)
    ensures Priced(hits + [h]) == Priced(hits) + (if Truthy(h.price) then [h] else [])
  {
    if hits != [] {
      assert (hits + [h])[1..] == hits[1..] + [h];
      PricedSnoc(hits[1..], h);
    }
  }

  /** Joining one more part appends it. */
  lemma {:induction false} JoinSnoc(parts: seq<string>, last: string)
    ensures Join(parts + [last]) == Join(parts) + last
  {
    if parts != [] {
      assert (parts + [last])[1..] == parts[1..] + [last];
      JoinSnoc(parts[1..], last);
    }
  }

  /** Numbering continues where the kept prefix ends. */
  lemma FragmentsSnoc(kept: seq<SearchHit>, h: SearchHit, n: nat)
    ensures Fragments(kept + [h], n) == Fragments(kept, n) + [Entry(n + |kept|, h)]
  {
  }

  /** `get_search_result(query, collection)`: search for ten hits and format them. */
  method GetSearchResult(query: string, model: EmbeddingModel, collection: Collection)
    returns (searchResult: string)
    ensures searchResult == FormatContext(VectorSearch(query, model, collection, ResultLimit))
  {
    var results := VectorSearch(query, model, collection, ResultLimit);
    searchResult := FormatResults(results);
  }

  /** One turn of the loop: the state for a prefix of the hits gives the state for one hit more. */
  lemma FormatStep(results: seq<SearchHit>, k: nat)
    requires k < |results|
    ensures var before, after := Priced(results[..k]), Priced(results[..k + 1]);
      if Truthy(results[k].price) then
        && |after| == |before| + 1
        && Join(Fragments(after, 1)) == Join(Fragments(before, 1)) + Entry(|before| + 1, results[k])
      else
        after == before
  {
    var result := results[k];
    assert results[..k + 1] == results[..k] + [result];
    PricedSnoc(results[..k], result);
    if Truthy(result.price) {
      var before := Priced(results[..k]);
      FragmentsSnoc(before, result, 1);
      JoinSnoc(Fragments(before, 1), Entry(|before| + 1, result));
    }
  }

  /**
   * The loop of `get_search_result`: it walks the hits in order, counts the
   * priced ones in `i` and appends their fragments to `search_result`.
   */
  method FormatResults(results: seq<SearchHit>) returns (searchResult: string)
    ensures searchResult == FormatContext(results)
  {
    searchResult := "";
    var i := 0;
    for k := 0 to |results|
      invariant i == |Priced(results[..k])|
      invariant searchResult == Join(Fragments(Priced(results[..k]), 1))
    {
      var result := results[k];
      FormatStep(results, k);
      if Truthy(result.price) {
        ghost var before := searchResult;
        i := i + 1;
        searchResult := searchResult + "\n" + NatToDecimal(i) + TitleLabel + Format(result.title);
        searchResult := searchResult + PriceLabel + Format(Or(result.price, Str(PriceFallback)));
        if Truthy(result.content) {
          searchResult := searchResult + ContentLabel + Format(result.content);
        }
        AppendEntry(before, i, result);
      }
    }
    assert results[..|results|] == results;
  }

  /** Without any priced hit the block is empty, and only then. */
  lemma {:induction false} EmptyExactlyWithoutPrices(hits: seq<SearchHit>)
    ensures FormatContext(hits) == "" <==> forall h :: h in hits ==> !Truthy(h.price)
  {
    PricedMembers(hits);
    var kept := Priced(hits);
    if kept != [] {
      var parts := Fragments(kept, 1);
      assert parts[0] == Entry(1, kept[0]);
      assert Join(parts) == parts[0] + Join(parts[1..]);
      assert Join(parts)[0] == '\n';
      assert kept[0] in kept;
    }
  }

  /**
   * A kept hit's fragment shows its own price: the fallback phrase is never
   * chosen, and the description part appears exactly for truthy content.
   */
  lemma PricedEntry(n: nat, hit: SearchHit)
    requires Truthy(hit.price)
    ensures Entry(n, hit)
         == "\n" + NatToDecimal(n) + ") Tên: " + Format(hit.title) + ", Giá: " + Format(hit.price)
            + (if Truthy(hit.content) then ", Nội dung mô tả: " + Format(hit.content) else "")
  {
  }

  /** Hits without a truthy price leave no trace in the block. */
  lemma {:induction false} UnpricedIgnored(hits: seq<SearchHit>, h: SearchHit, j: nat)
    requires j <= |hits| && !Truthy(h.price)
    ensures FormatContext(hits[..j] + [h] + hits[j..]) == FormatContext(hits)
  {
    PricedAppend(hits[..j] + [h], hits[j..]);
    PricedAppend(hits[..j], [h]);
    PricedAppend(hits[..j], hits[j..]);
    assert Priced([h]) == [];
    assert hits[..j] + hits[j..] == hits;
    assert Priced(hits[..j] + [h] + hits[j..]) == Priced(hits);
  }

  /** Keeping distributes over concatenation: the kept hits stay in input order. */
  lemma {:induction false} PricedAppend(a: seq<SearchHit>, b: seq<SearchHit>)
    ensures Priced(a + b) == Priced(a) + Priced(b)
    decreases |a|
  {
    if a != [] {
      assert (a + b)[0] == a[0];
      assert (a + b)[1..] == a[1..] + b;
      PricedAppend(a[1..], b);
      if Truthy(a[0].price) {
        assert Priced(a) == [a[0]] + Priced(a[1..]);
        assert Priced(a + b) == [a[0]] + Priced(a[1..] + b);
        assert [a[0]] + (Priced(a[1..]) + Priced(b)) == ([a[0]] + Priced(a[1..])) + Priced(b);
      } else {
        assert Priced(a) == Priced(a[1..]);
        assert Priced(a + b) == Priced(a[1..] + b);
      }
    } else {
      assert a + b == b;
    }
  }

  /**
   * A single priced hit with a description gives one fragment numbered 1
   * ("Red Rose" at 100000, "fresh roses").
   */
  lemma OnePricedHit(url: Value, score: real)
    ensures FormatContext([SearchHit(url, Str("fresh roses"), Str("100000"), Str("Red Rose"), score)])
         == "\n" + "1" + ") Tên: " + "Red Rose" + ", Giá: " + "100000" + ", Nội dung mô tả: " + "fresh roses"
  {
    var hit := SearchHit(url, Str("fresh roses"), Str("100000"), Str("Red Rose"), score);
    assert Priced([hit]) == [hit];
    assert NatToDecimal(1) == "1";
    assert Fragments([hit], 1) == [Entry(1, hit)];
    assert Join([Entry(1, hit)]) == Entry(1, hit) + Join([]);
  }

  /** An unpriced hit, even the best-ranked one, is left out; alone it gives the empty block. */
  lemma UnpricedTopHit(top: SearchHit, rest: seq<SearchHit>)
    requires !Truthy(top.price)
    ensures FormatContext([top] + rest) == FormatContext(rest)
    ensures FormatContext([top]) == ""
  {
    UnpricedIgnored(rest, top, 0);
    assert rest[..0] + [top] + rest[0..] == [top] + rest;
    assert Priced([top]) == [];
  }
}
