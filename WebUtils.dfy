/** The page-fetching helpers: `get_page_sentence`, which keeps the first
    `count` sentences of a page, `fetch_text_content_from_url`, which turns
    one fetched page into a `(url, text)` pair, and `search_results_from_urls`,
    which does that for a list of URLs and keeps the list's order. */
module WebUtils {
  import opened Text
  import opened Http
  import opened Payload

  const DefaultSentenceCount: int := 10

  /** What a URL answered with a status other than 200 contributes. */
  const NoContent: string := "No available content"

  const LineBreak: string := "\n"
  const SentenceBreak: string := ". "

  /** `[p.strip() for p in lines if p.strip()]` */
  function Paragraphs(lines: seq<string>): seq<string> {
    if lines == [] then []
    else
      var p := Strip(lines[0]);
      var rest := Paragraphs(lines[1..]);
      if p == [] then rest else [p] + rest
  }

  /** Every paragraph is non-empty and stripped. */
  lemma {:induction false} ParagraphsStripped(lines: seq<string>)
    ensures forall i :: 0 <= i < |Paragraphs(lines)| ==> IsStripped(Paragraphs(lines)[i])
  {
    if lines != [] {
      ParagraphsStripped(lines[1..]);
      var p := Strip(lines[0]);
      var rest := Paragraphs(lines[1..]);
      if p != [] {
        var ps := [p] + rest;
        assert Paragraphs(lines) == ps;
        forall i | 0 <= i < |ps| ensures IsStripped(ps[i]) {
          if i > 0 {
            assert ps[i] == rest[i - 1];
          }
        }
      }
    }
  }

  /** The loop `for p in paragraphs: sentences += p.split(". ")` */
  function Fragments(ps: seq<string>): seq<string> {
    if ps == [] then [] else Split(ps[0], SentenceBreak) + Fragments(ps[1..])
  }

  /** A sentence as the page emits it: a non-empty stripped fragment and a period. */
  predicate IsSentence(x: string) {
    |x| >= 2 && x[|x| - 1] == '.' && IsStripped(x[..|x| - 1])
  }

  lemma PeriodMakesSentence(s: string)
    requires IsStripped(s)
    ensures IsSentence(s + ".")
  {
    assert (s + ".")[..|s|] == s;
  }

  /** `[s.strip() + "." for s in fragments if s.strip()]` */
  function Sentences(frags: seq<string>): seq<string> {
    if frags == [] then []
    else
      var s := Strip(frags[0]);
      var rest := Sentences(frags[1..]);
      if s == [] then rest else [s + "."] + rest
  }

  /** Every sentence is a non-empty stripped fragment followed by a period. */
  lemma {:induction false} SentencesWellFormed(frags: seq<string>)
    ensures forall i :: 0 <= i < |Sentences(frags)| ==> IsSentence(Sentences(frags)[i])
  {
    if frags != [] {
      SentencesWellFormed(frags[1..]);
      var s := Strip(frags[0]);
      var rest := Sentences(frags[1..]);
      if s != [] {
        var ss := [s + "."] + rest;
        assert Sentences(frags) == ss;
        PeriodMakesSentence(s);
        forall i | 0 <= i < |ss| ensures IsSentence(ss[i]) {
          if i > 0 {
            assert ss[i] == rest[i - 1];
          }
        }
      }
    }
  }

  /** The sentences of a page given as its lines. */
  function LineSentences(lines: seq<string>): seq<string> {
    Sentences(Fragments(Paragraphs(lines)))
  }

  /** Every sentence of the page, in order. */
  function PageSentences(page: string): seq<string> {
    LineSentences(Split(page, LineBreak))
  }

  /** `sentences[:count]`: at most `count` sentences, each one well formed,
      and they are the first sentences of the page. */
  function TakenSentences(page: string, count: int): (ss: seq<string>)
    ensures count >= 0 ==> |ss| <= count
    ensures count == 0 ==> ss == []
    ensures |ss| <= |PageSentences(page)| && ss == PageSentences(page)[..|ss|]
    ensures count >= 0 ==> |ss| == if count < |PageSentences(page)| then count else |PageSentences(page)|
  {
    Prefix(PageSentences(page), count)
  }

  /** Every taken sentence is well formed. */
  lemma TakenSentencesWellFormed(page: string, count: int)
    ensures forall i :: 0 <= i < |TakenSentences(page, count)| ==> IsSentence(TakenSentences(page, count)[i])
  {
    SentencesWellFormed(Fragments(Paragraphs(Split(page, LineBreak))));
  }

  /** `get_page_sentence(page, count)`: the taken sentences joined by single spaces. */
  function PageSentence(page: string, count: int): (text: string)
    ensures count == 0 ==> text == ""
    ensures count > 0 && PageSentences(page) != [] ==> PageSentences(page)[0] <= text
  {
    var ss := TakenSentences(page, count);
    JoinEnds(ss, " ");
    Join(ss, " ")
  }

  lemma {:induction false} ParagraphsAppend(a: seq<string>, b: seq<string>)
    ensures Paragraphs(a + b) == Paragraphs(a) + Paragraphs(b)
  {
    if a == [] {
      assert a + b == b;
    } else {
      assert (a + b)[1..] == a[1..] + b;
      ParagraphsAppend(a[1..], b);
    }
  }

  lemma {:induction false} FragmentsAppend(a: seq<string>, b: seq<string>)
    ensures Fragments(a + b) == Fragments(a) + Fragments(b)
  {
    if a == [] {
      assert a + b == b;
    } else {
      assert (a + b)[1..] == a[1..] + b;
      FragmentsAppend(a[1..], b);
    }
  }

  lemma {:induction false} SentencesAppend(a: seq<string>, b: seq<string>)
    ensures Sentences(a + b) == Sentences(a) + Sentences(b)
  {
    if a == [] {
      assert a + b == b;
    } else {
      assert (a + b)[1..] == a[1..] + b;
      SentencesAppend(a[1..], b);
    }
  }

  /** Sentence order follows line order: the sentences of two blocks of lines
      are those of the first block followed by those of the second. */
  lemma LineSentencesAppend(a: seq<string>, b: seq<string>)
    ensures LineSentences(a + b) == LineSentences(a) + LineSentences(b)
  {
    ParagraphsAppend(a, b);
    FragmentsAppend(Paragraphs(a), Paragraphs(b));
    SentencesAppend(Fragments(Paragraphs(a)), Fragments(Paragraphs(b)));
  }

  /** Within a line, sentence order is the order of its `". "` pieces. */
  lemma LineSentencesSingle(line: string)
    requires !AllSpace(line)
    ensures LineSentences([line]) == Sentences(Split(Strip(line), SentenceBreak))
  {
    var p := Strip(line);
    assert [line][1..] == [];
    assert Paragraphs([line][1..]) == [];
    assert Paragraphs([line]) == [p];
    assert [p][1..] == [];
    assert Fragments([p][1..]) == [];
    assert Fragments([p]) == Split(p, SentenceBreak) + [];
    assert Fragments(Paragraphs([line])) == Split(p, SentenceBreak);
  }

  lemma BlankLineSentences(line: string)
    requires AllSpace(line)
    ensures LineSentences([line]) == []
  {
    assert [line][1..] == [];
    assert Paragraphs([line]) == [];
  }

  /** A blank or whitespace-only line contributes no sentence. */
  lemma BlankLineIgnored(before: seq<string>, line: string, after: seq<string>)
    requires AllSpace(line)
    ensures LineSentences(before + [line] + after) == LineSentences(before + after)
  {
    LineSentencesAppend(before + [line], after);
    LineSentencesAppend(before, [line]);
    BlankLineSentences(line);
    LineSentencesAppend(before, after);
  }

  /** A fragment that already ends in a period still gets one appended. */
  lemma DoublePeriodExample()
    ensures Sentences(["Dr."]) == ["Dr.."]
  {
    assert !IsSpace('D') && !IsSpace('.');
    assert TrimStart("Dr.") == "Dr.";
    assert TrimEnd("Dr.") == "Dr.";
    assert Strip("Dr.") == "Dr.";
    assert ["Dr."][1..] == [];
    assert Sentences(["Dr."][1..]) == [];
    assert "Dr." + "." == "Dr..";
  }

  /** One more paragraph adds its `". "` pieces at the end. */
  lemma FragmentsSnoc(ps: seq<string>, p: string)
    ensures Fragments(ps + [p]) == Fragments(ps) + Split(p, SentenceBreak)
  {
    FragmentsAppend(ps, [p]);
    assert [p][1..] == [];
    assert Fragments([p]) == Split(p, SentenceBreak) + [];
  }

  /** The accumulating loop of `get_page_sentence`. */
  method SplitParagraphs(paragraphs: seq<string>) returns (sentences: seq<string>)
    ensures sentences == Fragments(paragraphs)
  {
    sentences := [];
    for i := 0 to |paragraphs|
      invariant sentences == Fragments(paragraphs[..i])
    {
      assert paragraphs[..i + 1] == paragraphs[..i] + [paragraphs[i]];
      FragmentsSnoc(paragraphs[..i], paragraphs[i]);
      sentences := sentences + Split(paragraphs[i], SentenceBreak);
    }
    assert paragraphs[..|paragraphs|] == paragraphs;
  }

  /** `get_page_sentence(page, count)` */
  method GetPageSentence(page: string, count: int := DefaultSentenceCount) returns (text: string)
    ensures text == PageSentence(page, count)
  {
    var paragraphs := Paragraphs(Split(page, LineBreak));
    var sentences := SplitParagraphs(paragraphs);
    text := Join(Prefix(Sentences(sentences), count), " ");
  }

  /** `len(content.split(" ")) > 2` */
  predicate HasThreeWords(content: string) {
    |Split(content, " ")| > 2
  }

  /** More than two space-separated pieces means at least two spaces. */
  lemma HasThreeWordsIff(content: string)
    ensures HasThreeWords(content) <==> Count(content, ' ') >= 2
  {
    SplitCharCount(content, ' ');
  }

  /** The page the fetch loop assembles: each kept text followed by a line break. */
  function KeptText(contents: seq<string>): string {
    if contents == [] then ""
    else (if HasThreeWords(contents[0]) then contents[0] + LineBreak else "") + KeptText(contents[1..])
  }

  /** Assembly keeps order: the page of two runs of texts is the page of the
      first followed by the page of the second. */
  lemma {:induction false} KeptTextAppend(a: seq<string>, b: seq<string>)
    ensures KeptText(a + b) == KeptText(a) + KeptText(b)
  {
    if a == [] {
      assert a + b == b;
    } else {
      assert (a + b)[1..] == a[1..] + b;
      KeptTextAppend(a[1..], b);
      var head := if HasThreeWords(a[0]) then a[0] + LineBreak else "";
      assert KeptText(a + b) == head + KeptText(a[1..] + b);
      assert KeptText(a) == head + KeptText(a[1..]);
      assert head + (KeptText(a[1..]) + KeptText(b)) == (head + KeptText(a[1..])) + KeptText(b);
    }
  }

  /** `[p_ul.get_text().strip() for p_ul in ...]` */
  function StripAll(blocks: seq<string>): (contents: seq<string>)
    ensures |contents| == |blocks|
    ensures forall i :: 0 <= i < |blocks| ==> contents[i] == Strip(blocks[i])
  {
    seq(|blocks|, i requires 0 <= i < |blocks| => Strip(blocks[i]))
  }

  /** Well-formed sentences joined by spaces give a text that is empty or
      ends in a period. */
  lemma JoinedSentencesEnding(ss: seq<string>)
    requires forall i :: 0 <= i < |ss| ==> IsSentence(ss[i])
    ensures var text := Join(ss, " "); text == "" || text[|text| - 1] == '.'
  {
    JoinEnds(ss, " ");
    if ss != [] {
      assert IsSentence(ss[|ss| - 1]);
    }
  }

  /** The text of a page that answered is empty or ends in a period. */
  lemma PageSentenceEnding(page: string, count: int)
    ensures var text := PageSentence(page, count); text == "" || text[|text| - 1] == '.'
  {
    TakenSentencesWellFormed(page, count);
    JoinedSentencesEnding(TakenSentences(page, count));
  }

  /** What `fetch_text_content_from_url(url, count)` returns when `web`
      answers the GET of `url`. */
  function FetchSpec(url: string, count: int, web: Web): (r: FetchResult)
    ensures r.url == url
    ensures web(url).status != StatusOk ==> r.content == NoContent
    ensures web(url).status == StatusOk ==> r.content == "" || r.content[|r.content| - 1] == '.'
  {
    var response := web(url);
    if response.status == StatusOk then
      var page := KeptText(StripAll(Blocks(response)));
      PageSentenceEnding(page, count);
      FetchResult(url, PageSentence(page, count))
    else FetchResult(url, NoContent)
  }

  /** The pair carries "No available content" exactly when the status is not
      200: a page that answered yields text that is empty or ends in a period. */
  lemma FetchSpecSentinelIff(url: string, count: int, web: Web)
    ensures FetchSpec(url, count, web).content == NoContent <==> web(url).status != StatusOk
  {
    assert NoContent[|NoContent| - 1] == 't';
  }

  /** The loop `for content in page_content: if len(content.split(" ")) > 2: page += content + "\n"` */
  method AssemblePage(pageContent: seq<string>) returns (page: string)
    ensures page == KeptText(pageContent)
  {
    page := "";
    for i := 0 to |pageContent|
      invariant page == KeptText(pageContent[..i])
    {
      KeptTextAppend(pageContent[..i], [pageContent[i]]);
      assert pageContent[..i + 1] == pageContent[..i] + [pageContent[i]];
      assert [pageContent[i]][1..] == [];
      if |Split(pageContent[i], " ")| > 2 {
        page := page + pageContent[i] + LineBreak;
      }
    }
    assert pageContent[..|pageContent|] == pageContent;
  }

  /** `fetch_text_content_from_url(url, count)` */
  method FetchTextContentFromUrl(url: string, web: Web, count: int := DefaultSentenceCount) returns (r: FetchResult)
    ensures r == FetchSpec(url, count, web)
  {
    var response := web(url);
    if response.status == StatusOk {
      var pageContent := StripAll(Blocks(response));
      var page := AssemblePage(pageContent);
      var text := GetPageSentence(page, count);
      r := FetchResult(url, text);
    } else {
      r := FetchResult(url, NoContent);
    }
  }

  /** The batch as a sequential map: one result per URL, in URL order. */
  function FetchAll(urls: seq<string>, count: int, web: Web): (rs: seq<FetchResult>)
    ensures |rs| == |urls|
    ensures forall i :: 0 <= i < |urls| ==> rs[i] == FetchSpec(urls[i], count, web) && rs[i].url == urls[i]
  {
    seq(|urls|, i requires 0 <= i < |urls| => FetchSpec(urls[i], count, web))
  }

  /** A failing URL costs only its own slot: each slot depends on the answer
      for its own URL and nothing else. */
  lemma FetchAllSlotIsolated(urls: seq<string>, count: int, web: Web, web': Web, i: int)
    requires 0 <= i < |urls|
    requires web(urls[i]) == web'(urls[i])
    ensures FetchAll(urls, count, web)[i] == FetchAll(urls, count, web')[i]
  {
  }

  /** `search_results_from_urls(url_list, count)`: the pool's `executor.map`
      yields results in input order, so the batch is a loop over the list. */
  method SearchResultsFromUrls(urls: seq<string>, web: Web, count: int := DefaultSentenceCount)
    returns (results: seq<FetchResult>)
    ensures results == FetchAll(urls, count, web)
  {
    ghost var all := FetchAll(urls, count, web);
    results := [];
    for i := 0 to |urls|
      invariant results == all[..i]
    {
      var r := FetchTextContentFromUrl(urls[i], web, count);
      assert all[..i + 1] == all[..i] + [all[i]];
      results := results + [r];
    }
    assert all[..|urls|] == all;
  }
}
