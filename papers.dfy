/** Search results and their Markdown rendering (`format_arxiv_results`,
    written identically in frontend/main.py and frontend/api.py). */
module Papers {
  import opened Optional
  import opened Text

  /** An author entry; its "name" key may be missing. */
  datatype Author = Author(name: Option<string>)

  /** One search result as a dictionary whose keys may all be missing. */
  datatype Paper = Paper(
    title: Option<string>,
    authors: Option<seq<Author>>,
    summary: Option<string>,
    published: Option<string>,
    categories: Option<seq<string>>,
    entryId: Option<string>,
    pdfUrl: Option<string>)

  /** A paper with every key missing. */
  const BarePaper := Paper(None, None, None, None, None, None, None)

  /** A decoded JSON response body: either an array of paper records or
      some other value, kept as the text Python's `str()` gives it (a JSON
      string is its own text). */
  datatype Json = PaperArray(papers: seq<Paper>) | OtherValue(text: string)

  /** `paper.get("title", "Untitled")`. */
  function Title(p: Paper): (r: string)
    ensures p.title.None? ==> r == "Untitled"
    ensures p.title.Some? ==> r == p.title.value
  {
    p.title.GetOr("Untitled")
  }

  /** Each author's name, a nameless author giving "". */
  function AuthorNames(authors: seq<Author>): seq<string>
  {
    seq(|authors|, i requires 0 <= i < |authors| => authors[i].name.GetOr(""))
  }

  function AuthorsText(p: Paper): string
  {
    Join(", ", AuthorNames(p.authors.GetOr([])))
  }

  function CategoriesText(p: Paper): string
  {
    Join(", ", p.categories.GetOr([]))
  }

  /** The summary on one line: newlines become spaces. */
  function Abstract(p: Paper): string
  {
    ReplaceNewlines(p.summary.GetOr(""))
  }

  /** A Markdown link labelled by the URL, or "[N/A](#)" without one: with
      a URL, the URL is both the bracketed label and the target. */
  function Link(url: Option<string>): (r: string)
    ensures url.None? ==> r == "[N/A](#)"
    ensures url.Some? ==>
      var u := url.value;
      && |r| == 2 * |u| + 4 && r[0] == '[' && r[|r| - 1] == ')'
      && r[1..1 + |u|] == u && r[1 + |u|..3 + |u|] == "](" && r[3 + |u|..|r| - 1] == u
  {
    var r := "[" + url.GetOr("N/A") + "](" + url.GetOr("#") + ")";
    if url.Some? then
      var u := url.value;
      assert r[1..1 + |u|] == u;
      assert r[1 + |u|..3 + |u|] == "](";
      assert r[3 + |u|..|r| - 1] == u;
      r
    else r
  }

  function HeaderLine(idx: nat, p: Paper): string
  {
    NatToDecimal(idx) + ". **" + Title(p) + "**"
  }

  function AuthorsLine(p: Paper): string { "- **Authors:** " + AuthorsText(p) }
  function PublishedLine(p: Paper): string { "- **Published:** " + p.published.GetOr("N/A") }
  function CategoriesLine(p: Paper): string { "- **Categories:** " + CategoriesText(p) }
  function PaperUrlLine(p: Paper): string { "- **Paper URL:** " + Link(p.entryId) }
  function PdfUrlLine(p: Paper): string { "- **PDF URL:** " + Link(p.pdfUrl) }

  /** The lines of the details template, in order. */
  function DetailLines(p: Paper): seq<string>
  {
    ["", AuthorsLine(p), PublishedLine(p), CategoriesLine(p), PaperUrlLine(p),
     PdfUrlLine(p), "", "**Abstract:**", Abstract(p), ""]
  }

  /** The details template, its literal text broken at each newline: it is
      the newline-join of its ten lines, the first and last being empty. */
  function Details(p: Paper): (r: string)
    ensures r == Join("\n", DetailLines(p))
  {
    DetailsTemplate("\n", AuthorsLine(p), PublishedLine(p), CategoriesLine(p), PaperUrlLine(p),
                    PdfUrlLine(p), "**Abstract:**", Abstract(p));
    "\n" + AuthorsLine(p) + "\n" + PublishedLine(p) + "\n" + CategoriesLine(p)
    + "\n" + PaperUrlLine(p) + "\n" + PdfUrlLine(p) + "\n"
    + "\n" + "**Abstract:**" + "\n" + Abstract(p) + "\n"
  }

  /** The list item for paper number `idx`: its header line, then the
      details, then a newline. It opens with the number and the bold title
      on a line of their own, and it ends in a newline. */
  function FormatItem(idx: nat, p: Paper): (r: string)
    ensures HeaderLine(idx, p) + "\n" <= r
    ensures |r| >= 1 && r[|r| - 1] == '\n'
  {
    HeaderLine(idx, p) + "\n" + Details(p) + "\n"
  }

  /** The twelve lines an item is made of, as the template lays them out:
      the header, the details' lines, and the empty line the item's final
      newline opens. */
  function ItemLines(idx: nat, p: Paper): seq<string>
  {
    [HeaderLine(idx, p)] + DetailLines(p) + [""]
  }

  /** The items of all results, numbered from 1 in input order: the item
      at position k opens with the number k + 1 and the title of result k. */
  function Items(results: seq<Paper>): (r: seq<string>)
    ensures |r| == |results|
    ensures forall k :: 0 <= k < |r| ==> HeaderLine(k + 1, results[k]) + "\n" <= r[k]
  {
    seq(|results|, k requires 0 <= k < |results| => FormatItem(k + 1, results[k]))
  }

  /** The formatter's output: the items joined by newlines. */
  function FormattedResults(results: seq<Paper>): (r: string)
    ensures r == "" <==> results == []
    ensures results != [] ==> FormatItem(1, results[0]) <= r
  {
    var items := Items(results);
    assert results != [] ==> items[0] == FormatItem(1, results[0]);
    Join("\n", items)
  }

  /** `format_arxiv_results`: a loop over the results numbered from 1
      that appends each item to a list, then joins the list by newlines. */
  method FormatArxivResults(results: seq<Paper>) returns (out: string)
    ensures out == FormattedResults(results)
  {
    var formattedOutput: seq<string> := [];
    var i := 0;
    while i < |results|
      invariant 0 <= i <= |results|
      invariant formattedOutput == Items(results)[..i]
    {
      var idx := i + 1;
      var paper := results[i];
      var formattedItem := FormatItem(idx, paper);
      assert Items(results)[i] == formattedItem;
      assert Items(results)[..i + 1] == Items(results)[..i] + [formattedItem];
      formattedOutput := formattedOutput + [formattedItem];
      i := i + 1;
    }
    assert formattedOutput == Items(results);
    out := Join("\n", formattedOutput);
  }

  /** The details template, for any line contents, is the join of its lines. */
  lemma {:induction false} DetailsTemplate(nl: string, a: string, pu: string, c: string, u: string,
                                           d: string, lbl: string, s: string)
    ensures nl + a + nl + pu + nl + c + nl + u + nl + d + nl + nl + lbl + nl + s + nl
         == Join(nl, ["", a, pu, c, u, d, "", lbl, s, ""])
  {
    var xs: seq<string> := [""];
    JoinSnoc(nl, xs, a); xs := xs + [a];
    assert "" + nl == nl;
    JoinSnoc(nl, xs, pu); xs := xs + [pu];
    JoinSnoc(nl, xs, c); xs := xs + [c];
    JoinSnoc(nl, xs, u); xs := xs + [u];
    JoinSnoc(nl, xs, d); xs := xs + [d];
    var before := Join(nl, xs);
    JoinSnoc(nl, xs, ""); xs := xs + [""];
    assert before + nl + "" == before + nl;
    JoinSnoc(nl, xs, lbl); xs := xs + [lbl];
    JoinSnoc(nl, xs, s); xs := xs + [s];
    before := Join(nl, xs);
    JoinSnoc(nl, xs, ""); xs := xs + [""];
    assert before + nl + "" == before + nl;
    assert xs == ["", a, pu, c, u, d, "", lbl, s, ""];
  }

  /** A header line, a newline, joined lines and a final newline are the
      join of the header, those lines and an empty last line. */
  lemma {:induction false} ItemTemplate(nl: string, h: string, ds: seq<string>)
    requires |ds| >= 1
    ensures h + nl + Join(nl, ds) + nl == Join(nl, [h] + ds + [""])
  {
    JoinCons(nl, h, ds);
    JoinSnoc(nl, [h] + ds, "");
    assert Join(nl, [h] + ds) + nl + "" == Join(nl, [h] + ds) + nl;
  }

  /** The item is exactly the newline-join of its twelve template lines. */
  lemma {:induction false} ItemIsJoinOfLines(idx: nat, p: Paper)
    ensures FormatItem(idx, p) == Join("\n", ItemLines(idx, p))
  {
    ItemTemplate("\n", HeaderLine(idx, p), DetailLines(p));
  }

  /** The twelve lines are eight lines followed by the abstract block. */
  lemma ItemLinesEnd(idx: nat, p: Paper)
    ensures ItemLines(idx, p) ==
      ([HeaderLine(idx, p)] + DetailLines(p)[..7]) + ["**Abstract:**", Abstract(p), "", ""]
  {
  }

  /** Whatever the fields hold, the last four lines of an item are the
      "**Abstract:**" label, the abstract as a single line, and two empty
      lines. */
  lemma {:induction false} AbstractIsOneLine(idx: nat, p: Paper)
    ensures var lines := SplitOn('\n', FormatItem(idx, p));
      |lines| >= 4 && lines[|lines| - 4..] == ["**Abstract:**", Abstract(p), "", ""]
    ensures '\n' !in Abstract(p)
  {
    var tail := ["**Abstract:**", Abstract(p), "", ""];
    var head := [HeaderLine(idx, p)] + DetailLines(p)[..7];
    ItemLinesEnd(idx, p);
    assert '\n' !in "**Abstract:**";
    ItemIsJoinOfLines(idx, p);
    SplitOnJoinEndsWith('\n', head, tail);
  }

  /** A field that puts no newline into its line. */
  predicate SingleLine(s: string)
  {
    '\n' !in s
  }

  /** When the title, author names, published date, categories and URLs
      hold no newline, the item is precisely its twelve template lines. */
  lemma {:induction false} ItemLinesWhenSingleLine(idx: nat, p: Paper)
    requires SingleLine(HeaderLine(idx, p)) && SingleLine(AuthorsLine(p))
    requires SingleLine(PublishedLine(p)) && SingleLine(CategoriesLine(p))
    requires SingleLine(PaperUrlLine(p)) && SingleLine(PdfUrlLine(p))
    ensures SplitOn('\n', FormatItem(idx, p)) == ItemLines(idx, p)
  {
    ItemIsJoinOfLines(idx, p);
    SplitOnJoinRoundTrip('\n', ItemLines(idx, p));
  }

  /** The rendering of a paper with every key missing: the defaults
      "Untitled", "N/A" and "#", and empty authors, categories and abstract. */
  lemma {:induction false} BarePaperLines(idx: nat)
    ensures SplitOn('\n', FormatItem(idx, BarePaper)) ==
      [NatToDecimal(idx) + ". **Untitled**", "", "- **Authors:** ", "- **Published:** N/A",
       "- **Categories:** ", "- **Paper URL:** [N/A](#)", "- **PDF URL:** [N/A](#)",
       "", "**Abstract:**", "", "", ""]
  {
    BarePaperSingleLines(idx);
    ItemLinesWhenSingleLine(idx, BarePaper);
    BarePaperItemLines(idx);
  }

  lemma {:induction false} BarePaperItemLines(idx: nat)
    ensures ItemLines(idx, BarePaper) ==
      [NatToDecimal(idx) + ". **Untitled**", "", "- **Authors:** ", "- **Published:** N/A",
       "- **Categories:** ", "- **Paper URL:** [N/A](#)", "- **PDF URL:** [N/A](#)",
       "", "**Abstract:**", "", "", ""]
  {
    var b := BarePaper;
    assert ItemLines(idx, b) ==
      [HeaderLine(idx, b), "", AuthorsLine(b), PublishedLine(b), CategoriesLine(b),
       PaperUrlLine(b), PdfUrlLine(b), "", "**Abstract:**", Abstract(b), "", ""];
    MissingKeyDefaults(idx, b);
  }

  lemma {:induction false} BarePaperSingleLines(idx: nat)
    ensures SingleLine(HeaderLine(idx, BarePaper)) && SingleLine(AuthorsLine(BarePaper))
    ensures SingleLine(PublishedLine(BarePaper)) && SingleLine(CategoriesLine(BarePaper))
    ensures SingleLine(PaperUrlLine(BarePaper)) && SingleLine(PdfUrlLine(BarePaper))
  {
    MissingKeyDefaults(idx, BarePaper);
    var n := NatToDecimal(idx);
    assert '\n' !in n by {
      forall k | 0 <= k < |n| ensures n[k] != '\n' {
        assert IsDigit(n[k]);
      }
    }
    assert '\n' !in ". **Untitled**";
    assert HeaderLine(idx, BarePaper) == n + ". **Untitled**";
  }

  /** Each key that is missing gets its default in its own line. */
  lemma {:induction false} MissingKeyDefaults(idx: nat, p: Paper)
    ensures p.title == None ==> HeaderLine(idx, p) == NatToDecimal(idx) + ". **Untitled**"
    ensures p.authors == None ==> AuthorsLine(p) == "- **Authors:** "
    ensures p.published == None ==> PublishedLine(p) == "- **Published:** N/A"
    ensures p.categories == None ==> CategoriesLine(p) == "- **Categories:** "
    ensures p.entryId == None ==> PaperUrlLine(p) == "- **Paper URL:** [N/A](#)"
    ensures p.pdfUrl == None ==> PdfUrlLine(p) == "- **PDF URL:** [N/A](#)"
    ensures p.summary == None ==> Abstract(p) == ""
  {
  }

  /** Authors appear in input order, separated by ", "; a nameless author
      contributes "". */
  lemma {:induction false} AuthorsInOrder(authors: seq<Author>, a: Author)
    requires |authors| >= 1
    ensures Join(", ", AuthorNames(authors + [a]))
         == Join(", ", AuthorNames(authors)) + ", " + a.name.GetOr("")
  {
    assert AuthorNames(authors + [a]) == AuthorNames(authors) + [a.name.GetOr("")];
    JoinSnoc(", ", AuthorNames(authors), a.name.GetOr(""));
  }

  lemma {:induction false} ItemsSnoc(results: seq<Paper>, p: Paper)
    ensures Items(results + [p]) == Items(results) + [FormatItem(|results| + 1, p)]
  {
    var a, b := Items(results + [p]), Items(results) + [FormatItem(|results| + 1, p)];
    forall k | 0 <= k < |a| ensures a[k] == b[k] {
      if k < |results| {
        assert (results + [p])[k] == results[k];
      }
    }
  }

  /** One more result adds a newline and its item, numbered one past the
      earlier results, at the end: items keep the input order. */
  lemma {:induction false} FormattedSnoc(results: seq<Paper>, p: Paper)
    ensures FormattedResults(results + [p]) ==
      if results == [] then FormatItem(1, p)
      else FormattedResults(results) + "\n" + FormatItem(|results| + 1, p)
  {
    ItemsSnoc(results, p);
    if results != [] {
      JoinSnoc("\n", Items(results), FormatItem(|results| + 1, p));
    }
  }

  /** The lines of the output are the lines of item 1, then of item 2, and
      so on, one item per result. */
  lemma {:induction false} OutputLines(results: seq<Paper>)
    requires results != []
    ensures SplitOn('\n', FormattedResults(results)) == ConcatSplits('\n', Items(results))
  {
    SplitOnJoin('\n', Items(results));
  }
}
