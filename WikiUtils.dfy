/** The Wikipedia lookup helpers: `remove_nested_parentheses`, which deletes
    parenthesised groups until none is left, and `get_wiki_urls`, which turns
    an entity into at most `count` search URLs. */
module WikiUtils {
  import opened Text
  import opened Http

  predicate IsParen(c: char) {
    c == '(' || c == ')'
  }

  /** The index of the first parenthesis in `s` at or after `i`, or `|s|`. */
  function NextParen(s: string, i: nat): (k: nat)
    requires i <= |s|
    ensures i <= k <= |s|
    ensures k < |s| ==> IsParen(s[k])
    ensures forall m :: i <= m < k ==> !IsParen(s[m])
    decreases |s| - i
  {
    if i == |s| || IsParen(s[i]) then i else NextParen(s, i + 1)
  }

  /** The length of the match of the pattern `\([^()]+\)` at the start of `s`,
      or 0 when it does not match there. */
  function GroupLen(s: string): (n: nat)
    ensures n == 0 || 3 <= n <= |s|
  {
    if s != [] && s[0] == '(' then
      var k := NextParen(s, 1);
      if k < |s| && s[k] == ')' && k >= 2 then k + 1 else 0
    else 0
  }

  /** `re.search(r"\([^()]+\)", s)` succeeds. */
  predicate HasGroup(s: string)
    decreases |s|
  {
    s != [] && (GroupLen(s) > 0 || HasGroup(s[1..]))
  }

  /** A match of the pattern spanning `s[i..j+1]`: an opening parenthesis at
      `i`, a closing one at `j`, and at least one character, none of them a
      parenthesis, in between. */
  predicate GroupAt(s: string, i: int, j: int) {
    0 <= i && i + 2 <= j < |s| && s[i] == '(' && s[j] == ')'
    && forall m :: i < m < j ==> !IsParen(s[m])
  }

  /** `HasGroup` agrees with the pattern read as a search over positions. */
  lemma {:induction false} HasGroupIff(s: string)
    ensures HasGroup(s) <==> exists i, j :: GroupAt(s, i, j)
    decreases |s|
  {
    if s != [] {
      HasGroupIff(s[1..]);
      if GroupLen(s) > 0 {
        var k := NextParen(s, 1);
        assert GroupAt(s, 0, k);
      } else if HasGroup(s[1..]) {
        var i, j :| GroupAt(s[1..], i, j);
        assert GroupAt(s, i + 1, j + 1);
      }
      if exists i, j :: GroupAt(s, i, j) {
        var i, j :| GroupAt(s, i, j);
        if i == 0 {
          assert NextParen(s, 1) == j;
        } else {
          assert GroupAt(s[1..], i - 1, j - 1);
        }
      }
    }
  }

  /** `re.sub(r"\([^()]+\)", "", s)`: scanning from the left, delete every
      match, resuming after it. A string that is searched in vain comes back
      unchanged, and a string with a match loses at least three characters. */
  function SubAll(s: string): (r: string)
    ensures |r| <= |s|
    ensures HasGroup(s) ==> |r| <= |s| - 3
    ensures !HasGroup(s) ==> r == s
    decreases |s|
  {
    if s == [] then []
    else if GroupLen(s) > 0 then SubAll(s[GroupLen(s)..])
    else [s[0]] + SubAll(s[1..])
  }

  /** The fixpoint `remove_nested_parentheses` computes: substitute until
      nothing matches. */
  function Unparenthesized(s: string): (r: string)
    ensures !HasGroup(r)
    ensures !HasGroup(s) ==> r == s
    ensures |r| <= |s|
    decreases |s|
  {
    if HasGroup(s) then Unparenthesized(SubAll(s)) else s
  }

  /** Removing the groups a second time removes nothing. */
  lemma UnparenthesizedIdempotent(s: string)
    ensures Unparenthesized(Unparenthesized(s)) == Unparenthesized(s)
  {
  }

  /** `NextParen` is the one position at or after `i` that is a parenthesis
      (or the end) with no parenthesis before it. */
  lemma {:induction false} NextParenIs(s: string, i: nat, k: nat)
    requires i <= k <= |s|
    requires k < |s| ==> IsParen(s[k])
    requires forall m :: i <= m < k ==> !IsParen(s[m])
    ensures NextParen(s, i) == k
    decreases k - i
  {
    if i < k {
      assert !IsParen(s[i]);
      NextParenIs(s, i + 1, k);
    }
  }

  /** A match at the start of `s` is a group spanning its first `GroupLen(s)`
      characters. */
  lemma GroupLenGroupAt(s: string)
    requires GroupLen(s) > 0
    ensures GroupAt(s, 0, GroupLen(s) - 1)
  {
  }

  /** A whole group followed by anything matches exactly itself. */
  lemma GroupLenOfGroup(g: string, b: string)
    requires GroupAt(g, 0, |g| - 1)
    ensures GroupLen(g + b) == |g|
  {
    var s := g + b;
    forall m | 1 <= m < |g| - 1 ensures !IsParen(s[m]) {
      assert s[m] == g[m];
    }
    NextParenIs(s, 1, |g| - 1);
  }

  /** Text followed by an opening parenthesis matches at its start just as
      it does alone: a match cannot run into that parenthesis. */
  lemma GroupLenBeforeOpen(a: string, t: string)
    requires a != [] && t != [] && t[0] == '('
    ensures GroupLen(a + t) == GroupLen(a)
  {
    var s := a + t;
    assert s[0] == a[0];
    if a[0] == '(' {
      var k := NextParen(a, 1);
      forall m | 1 <= m < k ensures !IsParen(s[m]) {
        assert s[m] == a[m];
      }
      if k < |a| {
        assert s[k] == a[k];
        NextParenIs(s, 1, k);
      } else {
        assert s[|a|] == t[0];
        NextParenIs(s, 1, |a|);
      }
    }
  }

  /** `re.sub` on text followed by an opening parenthesis: the scan of the
      text ends exactly where the parenthesis begins, so the two parts are
      substituted independently. */
  lemma {:induction false} SubAllBeforeOpen(a: string, t: string)
    requires t != [] && t[0] == '('
    ensures SubAll(a + t) == SubAll(a) + SubAll(t)
    decreases |a|
  {
    if a == [] {
      EmptyEnds(t);
    } else {
      GroupLenBeforeOpen(a, t);
      var n := GroupLen(a);
      if n > 0 {
        DropConcat(a, t, n);
        SubAllBeforeOpen(a[n..], t);
      } else {
        DropConcat(a, t, 1);
        SubAllBeforeOpen(a[1..], t);
        ConsConcat(a[0], SubAll(a[1..]), SubAll(t));
      }
    }
  }

  /** `re.sub` removes a group wherever it stands and keeps the text on each
      side of it, substituted on its own. */
  lemma SubAllDropsGroup(a: string, g: string, b: string)
    requires GroupAt(g, 0, |g| - 1)
    ensures SubAll(a + g + b) == SubAll(a) + SubAll(b)
  {
    GroupLenOfGroup(g, b);
    DropConcat(g, b, |g|);
    EmptyEnds(b);
    assert SubAll(g + b) == SubAll(b);
    SubAllBeforeOpen(a, g + b);
    ConcatAssoc(a, g, b);
  }

  /** Dropping from the front of `a + t` within `a`. */
  lemma DropConcat(a: string, t: string, n: nat)
    requires n <= |a|
    ensures (a + t)[n..] == a[n..] + t
    ensures a != [] ==> (a + t)[0] == a[0]
  {
  }

  /** Regrouping a concatenation that starts with one character. */
  lemma ConsConcat(x: char, r: string, t: string)
    ensures [x] + r + t == [x] + (r + t)
  {
  }

  /** Concatenation is associative. */
  lemma ConcatAssoc(a: string, g: string, b: string)
    ensures a + g + b == a + (g + b)
  {
  }

  /** A group of `s` stays a group of `s` placed between other text. */
  lemma GroupAtShift(p: string, s: string, c: string, i: int, j: int)
    requires GroupAt(s, i, j)
    ensures GroupAt(p + s + c, |p| + i, |p| + j)
  {
    var x := p + s + c;
    forall m | |p| + i < m < |p| + j ensures !IsParen(x[m]) {
      assert x[m] == s[m - |p|];
    }
  }

  /** Deleting any one group leaves the fixpoint unchanged: the order in
      which groups are removed does not matter. */
  lemma {:induction false} DeleteGroupKeepsFixpoint(x: string, i: int, j: int)
    requires GroupAt(x, i, j)
    ensures Unparenthesized(x) == Unparenthesized(x[..i] + x[j + 1..])
    decreases |x|, 0, 0, 0
  {
    var a, g, b := x[..i], x[i..j + 1], x[j + 1..];
    SplitAround(x, i, j);
    GroupAtSlice(x, i, j);
    FixpointStep(x, i, j);
    SubAllDropsGroup(a, g, b);
    SubAllKeepsFixpoint(SubAll(a), b, []);
    SubAllKeepsFixpoint([], a, b);
    EmptyEnds(SubAll(a) + SubAll(b));
    EmptyEnds(SubAll(a) + b);
    EmptyEnds(SubAll(a));
    EmptyEnds(a);
  }

  /** A text with a group has the fixpoint of its substitution. */
  lemma FixpointStep(x: string, i: int, j: int)
    requires GroupAt(x, i, j)
    ensures Unparenthesized(x) == Unparenthesized(SubAll(x))
  {
    HasGroupIff(x);
  }

  /** A text is its part before `i`, its part `i..j`, and the rest. */
  lemma SplitAround(x: string, i: int, j: int)
    requires 0 <= i <= j < |x|
    ensures x == x[..i] + x[i..j + 1] + x[j + 1..]
  {
  }

  /** A group of a text, cut out, is a group spanning the whole cut. */
  lemma GroupAtSlice(x: string, i: int, j: int)
    requires GroupAt(x, i, j)
    ensures GroupAt(x[i..j + 1], 0, j - i)
  {
    var g := x[i..j + 1];
    forall m | 0 < m < j - i ensures !IsParen(g[m]) {
      assert g[m] == x[i + m];
    }
  }

  /** The empty text is a unit of concatenation. */
  lemma EmptyEnds(s: string)
    ensures s + [] == s && [] + s == s
  {
  }

  /** Substituting in the middle part of a text leaves the fixpoint of the
      whole unchanged. */
  lemma {:induction false} SubAllKeepsFixpoint(p: string, a: string, c: string)
    ensures Unparenthesized(p + SubAll(a) + c) == Unparenthesized(p + a + c)
    decreases |p| + |a| + |c|, 1, |a|, 1
  {
    if a == [] {
      assert SubAll(a) == a;
    } else if GroupLen(a) > 0 {
      GroupFirstKeepsFixpoint(p, a, c);
    } else {
      CharFirstKeepsFixpoint(p, a, c);
    }
  }

  /** `SubAllKeepsFixpoint` when `a` starts with a match. */
  lemma {:induction false} GroupFirstKeepsFixpoint(p: string, a: string, c: string)
    requires GroupLen(a) > 0
    ensures Unparenthesized(p + SubAll(a) + c) == Unparenthesized(p + a + c)
    decreases |p| + |a| + |c|, 1, |a|, 0
  {
    var n := GroupLen(a);
    GroupLenGroupAt(a);
    GroupAtShift(p, a, c, 0, n - 1);
    CutMiddle(p, a, c, n);
    DeleteGroupKeepsFixpoint(p + a + c, |p|, |p| + n - 1);
    SubAllKeepsFixpoint(p, a[n..], c);
    assert SubAll(a) == SubAll(a[n..]);
  }

  /** Cutting `n` characters at the start of the middle part of `p + a + c`. */
  lemma CutMiddle(p: string, a: string, c: string, n: nat)
    requires n <= |a|
    ensures var x := p + a + c; x[..|p|] + x[|p| + n..] == p + a[n..] + c
  {
    var x := p + a + c;
    assert x[..|p|] == p;
    assert x[|p| + n..] == a[n..] + c;
  }

  /** `SubAllKeepsFixpoint` when `a` does not start with a match. */
  lemma {:induction false} CharFirstKeepsFixpoint(p: string, a: string, c: string)
    requires a != [] && GroupLen(a) == 0
    ensures Unparenthesized(p + SubAll(a) + c) == Unparenthesized(p + a + c)
    decreases |p| + |a| + |c|, 1, |a|, 0
  {
    SubAllKeepsFixpoint(p + [a[0]], a[1..], c);
    assert SubAll(a) == [a[0]] + SubAll(a[1..]);
    Regroup(p, a[0], SubAll(a[1..]), c);
    Regroup(p, a[0], a[1..], c);
    ConsSplit(a);
  }

  /** Regrouping a concatenation around one character. */
  lemma Regroup(p: string, x: char, r: string, c: string)
    ensures p + [x] + r + c == p + ([x] + r) + c
  {
  }

  /** A non-empty text is its first character followed by the rest. */
  lemma ConsSplit(a: string)
    requires a != []
    ensures [a[0]] + a[1..] == a
  {
  }

  /** Removing all groups from a text with a group in it is removing them
      from the text without that group: the text on both sides is kept. */
  lemma UnparenthesizedDropsGroup(a: string, g: string, b: string)
    requires GroupAt(g, 0, |g| - 1)
    ensures Unparenthesized(a + g + b) == Unparenthesized(a + b)
  {
    var x := a + g + b;
    GroupAtShift(a, g, b, 0, |g| - 1);
    assert x[..|a|] == a && x[|a| + |g|..] == b;
    DeleteGroupKeepsFixpoint(x, |a|, |a| + |g| - 1);
  }

  /** `remove_nested_parentheses(string)`: the `while re.search(...)` loop. */
  method RemoveNestedParentheses(s: string) returns (r: string)
    ensures r == Unparenthesized(s)
    ensures !HasGroup(r)
    ensures !HasGroup(s) ==> r == s
  {
    r := s;
    while HasGroup(r)
      invariant Unparenthesized(r) == Unparenthesized(s)
      decreases |r|
    {
      r := SubAll(r);
    }
  }

  /** The first round removes only the innermost group of `a(b(c))`. */
  lemma NestedFirstRound()
    ensures HasGroup("a(b(c))") && SubAll("a(b(c))") == "a(b)"
  {
    var s := "a(b(c))";
    assert s[1..] == "(b(c))" && s[1..][1..] == "b(c))" && s[1..][1..][1..] == "(c))";
    assert NextParen("(b(c))", 1) == 2;
    assert GroupLen("(b(c))") == 0;
    assert NextParen("(c))", 1) == 2;
    assert GroupLen("(c))") == 3;
    assert "(c))"[3..] == ")";
    assert SubAll(")") == ")";
    assert SubAll("b(c))") == "b)";
    assert SubAll("(b(c))") == "(b)";
  }

  /** The second round removes the group that held it. */
  lemma NestedSecondRound()
    ensures HasGroup("a(b)") && SubAll("a(b)") == "a" && !HasGroup("a")
  {
    var s := "a(b)";
    assert s[1..] == "(b)";
    assert NextParen("(b)", 1) == 2;
    assert GroupLen("(b)") == 3;
    assert "(b)"[3..] == "";
    assert "a"[1..] == "";
  }

  /** Inner groups go first, and the group that held them goes on a later round. */
  lemma NestedExample()
    ensures Unparenthesized("a(b(c))") == "a"
  {
    NestedFirstRound();
    NestedSecondRound();
  }

  /** Empty pairs and unmatched parentheses stay where they are, also when a
      group beside them is removed. */
  lemma EmptyAndUnmatchedExample()
    ensures Unparenthesized("a() (b") == "a() (b"
    ensures Unparenthesized("a() (b(c)") == "a() (b"
  {
    HasGroupIff("a() (b");
    assert GroupAt("(c)", 0, 2);
    UnparenthesizedDropsGroup("a() (b", "(c)", "");
    assert "a() (b" + "(c)" + "" == "a() (b(c)";
    assert "a() (b" + "" == "a() (b";
  }

  const SearchUrlPrefix: string := "https://en.wikipedia.org/w/index.php?search="

  /** The default `count` of `get_wiki_urls`, also what its re-query uses. */
  const DefaultUrlCount: int := 2

  const DisambiguationMarker: string := "may refer to:"

  /** A result heading turned into a title: stripped, escape-decoded (the
      identity here) and with its parenthesised groups removed. */
  function CleanTitle(heading: string): (title: string)
    ensures !HasGroup(title)
  {
    Unparenthesized(Strip(heading))
  }

  /** One search URL per result heading, in heading order. */
  function SuggestionUrls(headings: seq<string>): (urls: seq<string>)
    ensures |urls| == |headings|
    ensures forall i :: 0 <= i < |headings| ==> urls[i] == SearchUrlPrefix + CleanTitle(headings[i])
  {
    seq(|headings|, i requires 0 <= i < |headings| => SearchUrlPrefix + CleanTitle(headings[i]))
  }

  /** Some stripped paragraph or list text contains "may refer to:". */
  predicate MentionsDisambiguation(blocks: seq<string>) {
    exists i :: 0 <= i < |blocks| && Contains(Strip(blocks[i]), DisambiguationMarker)
  }

  /** The list `get_wiki_urls(entity, count)` builds before cutting it: for
      the page answering the search URL (asked of `web`), with status 200 and
      result headings, one search URL per cleaned heading; with neither
      headings nor a disambiguation text, the search URL itself; on a
      disambiguation page, what the search for "[entity]" with the default
      count gives, at most `fuel` times over. Any other status gives nothing. */
  function FoundUrls(entity: string, web: Web, fuel: nat): (found: seq<string>)
    ensures forall u :: u in found ==> IsSearchUrl(u)
    decreases fuel, 0
  {
    var url := SearchUrlPrefix + entity;
    var page := web(url);
    if page.status != StatusOk then []
    else if page.headings != [] then SuggestionUrls(page.headings)
    else if MentionsDisambiguation(Blocks(page)) then
      (if fuel == 0 then [] else WikiUrls("[" + entity + "]", DefaultUrlCount, web, fuel - 1))
    else [url]
  }

  /** What `get_wiki_urls(entity, count)` returns: that list cut to `count`. */
  function WikiUrls(entity: string, count: int, web: Web, fuel: nat): (urls: seq<string>)
    ensures count >= 0 ==> |urls| <= count
    ensures forall u :: u in urls ==> IsSearchUrl(u)
    ensures web(SearchUrlPrefix + entity).status != StatusOk ==> urls == []
    ensures var page := web(SearchUrlPrefix + entity);
            page.status == StatusOk && page.headings != [] ==>
              urls == Prefix(SuggestionUrls(page.headings), count)
    ensures var page := web(SearchUrlPrefix + entity);
            page.status == StatusOk && page.headings == [] && !MentionsDisambiguation(Blocks(page)) ==>
              urls == Prefix([SearchUrlPrefix + entity], count)
    ensures var page := web(SearchUrlPrefix + entity);
            page.status == StatusOk && page.headings == [] && MentionsDisambiguation(Blocks(page)) ==>
              |urls| <= DefaultUrlCount
    decreases fuel, 1
  {
    Prefix(FoundUrls(entity, web, fuel), count)
  }

  /** `get_wiki_urls(entity, count)` as written: `url_list` starts empty, is
      extended by the suggestion URLs, by the URLs of the re-query (the
      function above, which this method computes) or by the search URL
      itself, and is cut to `count` at the end. */
  method GetWikiUrls(entity: string, web: Web, fuel: nat, count: int := DefaultUrlCount) returns (urls: seq<string>)
    ensures urls == WikiUrls(entity, count, web, fuel)
  {
    var url := SearchUrlPrefix + entity;
    var urlList: seq<string> := [];
    var response := web(url);
    if response.status == StatusOk {
      if response.headings != [] {
        urlList := urlList + SuggestionUrls(response.headings);
      } else if MentionsDisambiguation(Blocks(response)) {
        if fuel > 0 {
          urlList := urlList + WikiUrls("[" + entity + "]", DefaultUrlCount, web, fuel - 1);
        }
      } else {
        urlList := urlList + [url];
      }
    }
    assert urlList == FoundUrls(entity, web, fuel);
    urls := Prefix(urlList, count);
  }

  /** With headings, entry `i` of the result is the search URL of heading `i`,
      and there are as many entries as headings, up to `count`. */
  lemma WikiUrlsFromHeadings(entity: string, count: int, web: Web, fuel: nat)
    requires web(SearchUrlPrefix + entity).status == StatusOk
    requires web(SearchUrlPrefix + entity).headings != []
    requires count >= 0
    ensures var urls := WikiUrls(entity, count, web, fuel);
            var headings := web(SearchUrlPrefix + entity).headings;
            && |urls| == (if count < |headings| then count else |headings|)
            && forall i :: 0 <= i < |urls| ==> urls[i] == SearchUrlPrefix + CleanTitle(headings[i])
  {
    var urls := WikiUrls(entity, count, web, fuel);
    var all := SuggestionUrls(web(SearchUrlPrefix + entity).headings);
    assert urls == all[..|urls|];
    forall i | 0 <= i < |urls| ensures urls[i] == all[i] {
    }
  }

  /** A Wikipedia search URL: the search prefix followed by a term. */
  predicate IsSearchUrl(u: string) {
    SearchUrlPrefix <= u
  }
}
