/** The research node: run every query through the search gateway, coerce
    each answer into a list of items, keep the dict items and format them,
    falling back to a sentinel when none survive. */
module Research {
  import opened Wrappers
  import opened Text
  import opened Trip
  import opened QueryBuilder

  /** One element of `all_results`: a dict, with its `url` and `content`
      keys present or absent (a present value stands for its `str()`),
      or anything else (a string, a number, a list). */
  datatype Item = Dict(url: Option<string>, content: Option<string>) | Other

  /** What `json.loads` makes of a string result. */
  datatype Decoded =
    | DecodeFails                                      // not valid JSON
    | DecodedObject(url: Option<string>, content: Option<string>)  // a JSON object
    | DecodedList(items: seq<Item>)                    // a JSON array
    | DecodedString(text: string)                      // a JSON string
    | DecodedScalar                                    // a number, a boolean or null

  /** What the search gateway does with one query. */
  datatype SearchOutcome =
    | Raises                                 // the call raises, or its value is not iterable
    | NonString(items: seq<Item>)            // a non-string iterable, as the items it yields before it ends or raises
    | Str(text: string, decoded: Decoded)    // a string, and what decoding it gives

  const NotAvailable := "N/A"
  const NoResults := "No search results found."

  /** The items one query appends to `all_results`. A call that raises, and
      an `extend` on a decoded scalar (a `TypeError`), add nothing; the
      exception is caught by the loop's outer handler. */
  function Contribution(o: SearchOutcome): (added: seq<Item>) {
    match o
    case Raises => []
    case NonString(items) => items
    case Str(text, decoded) =>
      match decoded
      case DecodeFails => [Dict(Some(NotAvailable), Some(text))]
      case DecodedObject(u, c) => [Dict(u, c)]
      case DecodedList(items) => items
      case DecodedString(s) => NonDicts(|s|)
      case DecodedScalar => []
  }

  /** `n` items none of which is a dict, such as the characters of a string. */
  function NonDicts(n: nat): (r: seq<Item>)
    ensures |r| == n
  {
    if n == 0 then [] else [Other] + NonDicts(n - 1)
  }

  /** `all_results` after the loop has handled the outcomes `os`, in order. */
  function Gathered(os: seq<SearchOutcome>): (gathered: seq<Item>)
    decreases |os|
  {
    if os == [] then [] else Gathered(os[..|os| - 1]) + Contribution(os[|os| - 1])
  }

  /** The gateway's answer to each query, in query order. */
  function Outcomes(qs: seq<string>, search: string -> SearchOutcome): (os: seq<SearchOutcome>)
    ensures |os| == |qs| && forall i :: 0 <= i < |qs| ==> os[i] == search(qs[i])
  {
    seq(|qs|, i requires 0 <= i < |qs| => search(qs[i]))
  }

  /** The items that pass `isinstance(r, dict)`, in order. */
  function Dicts(items: seq<Item>): (kept: seq<Item>)
    decreases |items|
  {
    if items == [] then []
    else (if items[0].Dict? then [items[0]] else []) + Dicts(items[1..])
  }

  /** `f"Source: {r.get('url', 'N/A')}\n{r.get('content', '')}"` */
  function Block(r: Item): (block: string)
    requires r.Dict?
  {
    "Source: " + r.url.GetOr(NotAvailable) + "\n" + r.content.GetOr("")
  }

  /** The blocks of the comprehension, one per dict item. */
  function Blocks(items: seq<Item>): (bs: seq<string>)
    ensures |bs| == |Dicts(items)|
  {
    var ds := Dicts(items);
    DictsAreDicts(items);
    seq(|ds|, i requires 0 <= i < |ds| => Block(ds[i]))
  }

  /** `"\n\n".join(...)` of the blocks. */
  function Formatted(items: seq<Item>): (joined: string) {
    Join("\n\n", Blocks(items))
  }

  /** `formatted_results or "No search results found."` */
  function SearchText(items: seq<Item>): (text: string) {
    var f := Formatted(items);
    if f == "" then NoResults else f
  }

  /** The `search_results` value the research node computes for a request. */
  function ResearchResults(r: TripRequest, search: string -> SearchOutcome): (text: string) {
    SearchText(Gathered(Outcomes(Queries(r), search)))
  }

  /** The research node: build the queries, run them one by one, skipping
      any that raise, then format. Its update sets `search_results` only. */
  method ResearchNode(s: State, search: string -> SearchOutcome) returns (update: Update)
    ensures update.Keys == {SearchResultsKey}
    ensures update[SearchResultsKey] == ResearchResults(s.request, search)
    ensures var items := Gathered(Outcomes(Queries(s.request), search));
      (update[SearchResultsKey] == NoResults <==> Dicts(items) == [])
      && (Dicts(items) != [] ==> update[SearchResultsKey] == Join("\n\n", Blocks(items)))
  {
    var queries := BuildQueries(s.request);
    var allResults: seq<Item> := [];
    for i := 0 to |queries|
      invariant allResults == Gathered(Outcomes(queries[..i], search))
    {
      ghost var before := allResults;
      var results := search(queries[i]);
      match results {
        case Raises =>
          // the outer `except` logs the error and goes on with the next query
        case NonString(items) =>
          allResults := allResults + items;
        case Str(text, decoded) =>
          match decoded {
            case DecodeFails =>
              allResults := allResults + [Dict(Some(NotAvailable), Some(text))];
            case DecodedObject(u, c) =>
              allResults := allResults + [Dict(u, c)];
            case DecodedList(items) =>
              allResults := allResults + items;
            case DecodedString(chars) =>
              allResults := allResults + NonDicts(|chars|);
            case DecodedScalar =>
              // `extend` raises TypeError, caught by the outer `except`
          }
      }
      assert allResults == before + Contribution(results);
      assert allResults == Gathered(Outcomes(queries[..i + 1], search)) by {
        var os := Outcomes(queries[..i + 1], search);
        assert os[..|os| - 1] == Outcomes(queries[..i], search);
        assert os[|os| - 1] == results;
      }
    }
    assert queries[..|queries|] == queries;
    var formatted := Join("\n\n", Blocks(allResults));
    update := map[SearchResultsKey := if formatted != "" then formatted else NoResults];
    SearchTextSentinelIff(allResults);
  }

  /* ---------------------------------------------------------------- *
   * Properties of the filter and the formatting.
   * ---------------------------------------------------------------- */

  /** Every kept item is a dict. */
  lemma {:induction false} DictsAreDicts(items: seq<Item>)
    ensures forall i :: 0 <= i < |Dicts(items)| ==> Dicts(items)[i].Dict?
    decreases |items|
  {
    if items != [] {
      DictsAreDicts(items[1..]);
    }
  }

  /** The filter keeps exactly the dict items. */
  lemma {:induction false} DictsKeepExactlyDicts(items: seq<Item>, x: Item)
    ensures x in Dicts(items) <==> x in items && x.Dict?
    decreases |items|
  {
    if items != [] {
      DictsKeepExactlyDicts(items[1..], x);
      assert items == [items[0]] + items[1..];
    }
  }

  /** The filter keeps the order of the items. */
  lemma {:induction false} DictsAppend(a: seq<Item>, b: seq<Item>)
    ensures Dicts(a + b) == Dicts(a) + Dicts(b)
    decreases |a|
  {
    if a != [] {
      assert (a + b)[1..] == a[1..] + b;
      DictsAppend(a[1..], b);
    } else {
      assert a + b == b;
    }
  }

  /** The join is empty exactly when no dict item survived. */
  lemma FormattedEmptyIff(items: seq<Item>)
    ensures Formatted(items) == "" <==> Dicts(items) == []
  {
    var bs := Blocks(items);
    JoinEmpty("\n\n", bs);
    if |bs| > 0 {
      DictsAreDicts(items);
      assert bs[0] == Block(Dicts(items)[0]);
      assert bs[0] != "";
    }
  }

  /** The sentinel appears exactly when no dict item survived; otherwise the
      text is the blank-line join of the blocks and starts with `Source: `. */
  lemma SearchTextSentinelIff(items: seq<Item>)
    ensures SearchText(items) == NoResults <==> Dicts(items) == []
    ensures Dicts(items) != [] ==>
      SearchText(items) == Join("\n\n", Blocks(items)) && "Source: " <= SearchText(items)
  {
    FormattedEmptyIff(items);
    if Dicts(items) != [] {
      var bs := Blocks(items);
      DictsAreDicts(items);
      JoinStartsWithFirst("\n\n", bs);
      assert bs[0] == Block(Dicts(items)[0]);
      assert "Source: " <= bs[0];
      assert "Source: " <= Formatted(items);
      assert Formatted(items)[0] == 'S' && NoResults[0] == 'N';
    }
  }

  /** `search_results` is never left empty: it is the sentinel or a text
      beginning with `Source: `. */
  lemma SearchTextNeverEmpty(items: seq<Item>)
    ensures SearchText(items) != ""
  {
    FormattedEmptyIff(items);
  }

  /** Adding non-dict junk anywhere in `all_results` changes nothing. */
  lemma JunkIsDropped(a: seq<Item>, b: seq<Item>)
    ensures SearchText(a + [Other] + b) == SearchText(a + b)
  {
    DictsAppend(a + [Other], b);
    DictsAppend(a, [Other]);
    DictsAppend(a, b);
    assert Dicts([Other]) == [];
    assert Dicts(a + [Other] + b) == Dicts(a + b);
  }

  /* ---------------------------------------------------------------- *
   * Properties of the query loop.
   * ---------------------------------------------------------------- */

  /** The loop appends each query's items after the earlier queries' items. */
  lemma {:induction false} GatheredAppend(a: seq<SearchOutcome>, b: seq<SearchOutcome>)
    ensures Gathered(a + b) == Gathered(a) + Gathered(b)
    decreases |b|
  {
    if b == [] {
      assert a + b == a;
    } else {
      var b', last := b[..|b| - 1], b[|b| - 1];
      calc {
        Gathered(a + b);
      == { assert (a + b)[..|a + b| - 1] == a + b' && (a + b)[|a + b| - 1] == last; }
        Gathered(a + b') + Contribution(last);
      == { GatheredAppend(a, b'); }
        (Gathered(a) + Gathered(b')) + Contribution(last);
      == { assert Gathered(b) == Gathered(b') + Contribution(last); }
        Gathered(a) + Gathered(b);
      }
    }
  }

  lemma GatheredSingleton(o: SearchOutcome)
    ensures Gathered([o]) == Contribution(o)
  {
    assert [o][..0] == [];
  }

  /** A query that contributes nothing, such as one whose search raised,
      leaves `all_results` as if it had not been issued: the other queries
      still run and their items are all there, in order. */
  lemma FailedQueryIsSkipped(before: seq<SearchOutcome>, failed: SearchOutcome, after: seq<SearchOutcome>)
    requires Contribution(failed) == []
    ensures Gathered(before + [failed] + after) == Gathered(before + after)
    ensures Gathered(before + [failed] + after) == Gathered(before) + Gathered(after)
  {
    var withFailed := before + [failed];
    var g0, g2 := Gathered(before), Gathered(after);
    assert Gathered([failed]) == [] by { GatheredSingleton(failed); }
    assert Gathered(withFailed) == g0 by { GatheredAppend(before, [failed]); }
    assert Gathered(withFailed + after) == g0 + g2 by { GatheredAppend(withFailed, after); }
    assert Gathered(before + after) == g0 + g2 by { GatheredAppend(before, after); }
  }

  /** When every query contributes nothing the loop ends with an empty list. */
  lemma {:induction false} NothingGathered(os: seq<SearchOutcome>)
    requires forall i :: 0 <= i < |os| ==> Contribution(os[i]) == []
    ensures Gathered(os) == []
    decreases |os|
  {
    if os != [] {
      NothingGathered(os[..|os| - 1]);
    }
  }

  /** If the gateway raises on every query the research node still returns,
      with the sentinel. */
  lemma TotalFailureGivesSentinel(r: TripRequest, search: string -> SearchOutcome)
    requires forall q :: search(q) == Raises
    ensures ResearchResults(r, search) == NoResults
  {
    var os := Outcomes(Queries(r), search);
    NothingGathered(os);
    assert Dicts([]) == [];
    FormattedEmptyIff([]);
  }

  /** The dict items reach the output in query order, and within a query in
      the order the gateway returned them. */
  lemma ResearchOrder(r: TripRequest, search: string -> SearchOutcome)
    ensures var qs := Queries(r);
      Dicts(Gathered(Outcomes(qs, search))) ==
        Dicts(Contribution(search(qs[0]))) + Dicts(Contribution(search(qs[1]))) +
        (if |qs| == 3 then Dicts(Contribution(search(qs[2]))) else [])
  {
    var qs := Queries(r);
    var os := Outcomes(qs, search);
    assert Gathered([os[0]]) == Contribution(os[0]) by {
      assert [os[0]][..0] == [];
    }
    GatheredAppend([os[0]], [os[1]]);
    assert [os[0]] + [os[1]] == os[..2];
    assert Gathered([os[1]]) == Contribution(os[1]) by {
      assert [os[1]][..0] == [];
    }
    var two := Contribution(os[0]) + Contribution(os[1]);
    assert Gathered(os[..2]) == two;
    DictsAppend(Contribution(os[0]), Contribution(os[1]));
    if |qs| == 3 {
      assert os == os[..2] + [os[2]];
      assert Gathered(os) == two + Contribution(os[2]);
      DictsAppend(two, Contribution(os[2]));
    } else {
      assert os == os[..2];
    }
  }

  /** An undecodable string becomes one record with url `N/A` and the raw
      text as content, rendered as a single `Source: N/A` block. */
  lemma UndecodableBecomesRecord(text: string)
    ensures Dicts(Contribution(Str(text, DecodeFails))) == [Dict(Some(NotAvailable), Some(text))]
    ensures SearchText(Contribution(Str(text, DecodeFails))) == "Source: N/A\n" + text
  {
    var na := Contribution(Str(text, DecodeFails));
    assert Dicts(na) == [na[0]] by { assert na[1..] == []; }
    SearchTextSentinelIff(na);
    assert Blocks(na) == [Block(na[0])];
  }

  /** A string that decodes to a JSON object yields that one record. */
  lemma DecodedObjectIsWrapped(text: string, u: Option<string>, c: Option<string>)
    ensures Dicts(Contribution(Str(text, DecodedObject(u, c)))) == [Dict(u, c)]
  {
    var obj := Contribution(Str(text, DecodedObject(u, c)));
    assert obj[1..] == [];
  }

  /** A string that decodes to a JSON string yields its characters, all of
      which the filter drops. */
  lemma DecodedStringIsDropped(text: string, decoded: string)
    ensures Dicts(Contribution(Str(text, DecodedString(decoded)))) == []
    ensures SearchText(Contribution(Str(text, DecodedString(decoded)))) == NoResults
  {
    NonDictsDropped(|decoded|);
    SearchTextSentinelIff(Contribution(Str(text, DecodedString(decoded))));
  }

  lemma {:induction false} NonDictsDropped(n: nat)
    ensures Dicts(NonDicts(n)) == []
  {
    if n > 0 {
      NonDictsDropped(n - 1);
      assert NonDicts(n)[1..] == NonDicts(n - 1);
    }
  }

  /** A failed first query next to a second query that returns one record:
      the text is exactly that record's block, with no trace of the failure. */
  lemma PartialFailure(r: TripRequest, search: string -> SearchOutcome, url: string, content: string)
    requires r.interests == []
    requires search(BestStayQuery(r)) == Raises
    requires search(ThingsToDoQuery(r)) == NonString([Dict(Some(url), Some(content))])
    ensures ResearchResults(r, search) == "Source: " + url + "\n" + content
  {
    var rec := Dict(Some(url), Some(content));
    ResearchOrder(r, search);
    assert Dicts([rec]) == [rec] by { assert [rec][1..] == []; }
    var items := Gathered(Outcomes(Queries(r), search));
    assert Dicts(items) == [rec];
    SearchTextSentinelIff(items);
    assert Blocks(items) == [Block(rec)];
  }

  /** Every query answered with the same single record: the research text is
      that record's block three times, separated by blank lines. */
  lemma SameRecordEveryQuery(r: TripRequest, search: string -> SearchOutcome, url: string, content: string)
    requires |r.interests| > 0
    requires forall q :: search(q) == NonString([Dict(Some(url), Some(content))])
    ensures var b := "Source: " + url + "\n" + content;
      ResearchResults(r, search) == b + "\n\n" + b + "\n\n" + b
  {
    var rec := Dict(Some(url), Some(content));
    var b := Block(rec);
    var qs := Queries(r);
    var items := Gathered(Outcomes(qs, search));
    assert Dicts(items) == [rec, rec, rec] by {
      ResearchOrder(r, search);
      assert Dicts([rec]) == [rec] by { assert [rec][1..] == []; }
      assert Contribution(search(qs[0])) == [rec] && Contribution(search(qs[1])) == [rec];
      assert Contribution(search(qs[2])) == [rec];
    }
    var bs := Blocks(items);
    assert bs == [b, b, b];
    assert SearchText(items) == Join("\n\n", bs) by {
      SearchTextSentinelIff(items);
    }
    assert Join("\n\n", bs) == b + "\n\n" + (b + "\n\n" + b) by {
      assert bs[1..] == [b, b] && bs[1..][1..] == [b];
      JoinPair("\n\n", b, b);
    }
  }
}
