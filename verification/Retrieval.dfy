/** Search over approved knowledge items: the tokenizer, the match, the ranking and the bounds. */
module Retrieval {
  import opened Wrappers
  import opened Knowledge

  const MAX_QUERY_LENGTH := 500
  const MAX_RESULT_LIMIT := 5
  const MAX_SNIPPET_LENGTH := 500
  const MAX_QUERY_TOKENS := 10
  const MIN_TOKEN_LENGTH := 2

  // -- Text --------------------------------------------------------------------------------------

  predicate IsTokenChar(c: char) {
    'a' <= c <= 'z' || '0' <= c <= '9'
  }

  /** What Python's `strip` removes. */
  predicate IsSpace(c: char) {
    var n := c as int;
    || 9 <= n <= 13 || 28 <= n <= 32 || n == 0x85 || n == 0xA0 || n == 0x1680 || 0x2000 <= n <= 0x200A
    || n == 0x2028 || n == 0x2029 || n == 0x202F || n == 0x205F || n == 0x3000
  }

  /**
   Python's `lower` as far as a token can tell: of the letters outside ASCII exactly two have ASCII in
   their lower case, the dotted capital I and the Kelvin sign. Every other one is kept, for neither it
   nor its lower case can be part of a token.
   */
  function LowerChar(c: char): string {
    if 'A' <= c <= 'Z' then [c - 'A' + 'a']
    else if c == '\U{130}' then ['i', '\U{307}']
    else if c == '\U{212A}' then ['k']
    else [c]
  }

  const UPPER_LETTERS := "ABCDEFGHIJKLMNOPQRSTUVWXYZ"
  const LOWER_LETTERS := "abcdefghijklmnopqrstuvwxyz"

  lemma AlphabetsInOrder(i: nat)
    requires i < 26
    ensures |UPPER_LETTERS| == |LOWER_LETTERS| == 26
    ensures UPPER_LETTERS[i] as int == 65 + i && LOWER_LETTERS[i] as int == 97 + i
  {
  }

  lemma DigitsInOrder(i: nat)
    requires i < 10
    ensures "0123456789"[i] as int == 48 + i
  {
  }

  /** Letter by letter: the capitals of the alphabet, the two letters outside it, and every other character. */
  lemma LowerLetters(c: char, i: nat)
    requires i < 26
    ensures |UPPER_LETTERS| == |LOWER_LETTERS| == 26
    ensures LowerChar(UPPER_LETTERS[i]) == [LOWER_LETTERS[i]]
    ensures c as int == 0x130 ==> LowerChar(c) == "i" + ['\U{307}']
    ensures c as int == 0x212A ==> LowerChar(c) == "k"
    ensures c !in UPPER_LETTERS && c as int != 0x130 && c as int != 0x212A ==> LowerChar(c) == [c]
  {
    AlphabetsInOrder(i);
    if 'A' <= c <= 'Z' {
      AlphabetsInOrder(c as int - 65);
    }
  }

  /** The characters of a token. */
  lemma TokenAlphabet(c: char)
    ensures IsTokenChar(c) <==> c in LOWER_LETTERS || c in "0123456789"
  {
    if c in LOWER_LETTERS {
      var i :| 0 <= i < |LOWER_LETTERS| && LOWER_LETTERS[i] == c;
      AlphabetsInOrder(i);
    } else if c in "0123456789" {
      var i :| 0 <= i < 10 && "0123456789"[i] == c;
      DigitsInOrder(i);
    } else {
      NoTokenChar(c);
    }
  }

  lemma NoTokenChar(c: char)
    ensures 'a' <= c <= 'z' ==> c in LOWER_LETTERS
    ensures '0' <= c <= '9' ==> c in "0123456789"
  {
    if 'a' <= c <= 'z' {
      AlphabetsInOrder(c as int - 97);
    } else if '0' <= c <= '9' {
      DigitsInOrder(c as int - 48);
    }
  }

  /** The 29 characters that `strip` and `rstrip` remove. */
  lemma SpaceAlphabet(c: char)
    ensures IsSpace(c) <==> c as int in {9, 10, 11, 12, 13, 28, 29, 30, 31, 32, 0x85, 0xA0, 0x1680, 0x2000, 0x2001, 0x2002,
                                         0x2003, 0x2004, 0x2005, 0x2006, 0x2007, 0x2008, 0x2009, 0x200A, 0x2028, 0x2029,
                                         0x202F, 0x205F, 0x3000}
  {
  }

  function MapEach(s: string, f: char -> string): string {
    if s == [] then [] else MapEach(s[..|s| - 1], f) + f(s[|s| - 1])
  }

  function Lower(s: string): string {
    MapEach(s, LowerChar)
  }

  lemma {:induction false} MapEachConcat(a: string, b: string, f: char -> string)
    ensures MapEach(a + b, f) == MapEach(a, f) + MapEach(b, f)
  {
    if b == [] {
      assert a + b == a;
    } else {
      var t, last := b[..|b| - 1], b[|b| - 1];
      MapEachConcat(a, t, f);
      assert (a + b)[..|a + b| - 1] == a + t;
      assert MapEach(a + b, f) == MapEach(a + t, f) + f(last);
    }
  }

  /** Lower case is taken character by character, in order. */
  lemma LowerByCharacter(a: string, c: char, b: string)
    ensures Lower(a + [c] + b) == Lower(a) + LowerChar(c) + Lower(b)
    ensures Lower("") == ""
  {
    assert [c][..0] == [];
    assert MapEach([c], LowerChar) == MapEach([], LowerChar) + LowerChar(c);
    MapEachConcat(a + [c], b, LowerChar);
    MapEachConcat(a, [c], LowerChar);
  }

  lemma {:induction false} MapEachIdentity(s: string, f: char -> string)
    requires forall i :: 0 <= i < |s| ==> f(s[i]) == [s[i]]
    ensures MapEach(s, f) == s
  {
    if s == [] {
      assert MapEach(s, f) == [];
    } else {
      MapEachIdentity(s[..|s| - 1], f);
    }
  }

  lemma LowerKeepsSpace(s: string)
    requires forall i :: 0 <= i < |s| ==> IsSpace(s[i])
    ensures Lower(s) == s
  {
    forall i | 0 <= i < |s| ensures LowerChar(s[i]) == [s[i]] {
    }
    MapEachIdentity(s, LowerChar);
  }

  predicate Contains(text: string, part: string) {
    exists i :: 0 <= i <= |text| - |part| && OccursAt(text, part, i)
  }

  predicate OccursAt(text: string, part: string, i: nat)
    requires i + |part| <= |text|
  {
    text[i..i + |part|] == part
  }

  /** One text contains another exactly if it is that text with something before and after it. */
  lemma ContainsIff(text: string, part: string)
    ensures Contains(text, part) <==> exists a, b :: text == a + part + b
  {
    if Contains(text, part) {
      var i :| 0 <= i <= |text| - |part| && OccursAt(text, part, i);
      assert text == text[..i] + part + text[i + |part|..];
    }
    if exists a, b :: text == a + part + b {
      var a, b :| text == a + part + b;
      assert text[|a|..|a| + |part|] == part;
      assert OccursAt(text, part, |a|);
    }
  }

  function TrimRight(s: string): (r: string)
    ensures r <= s && (r == [] || !IsSpace(r[|r| - 1]))
    ensures forall i :: |r| <= i < |s| ==> IsSpace(s[i])
  {
    if s != [] && IsSpace(s[|s| - 1]) then TrimRight(s[..|s| - 1]) else s
  }

  function Truncate(content: string): string {
    if |content| <= MAX_SNIPPET_LENGTH then content
    else TrimRight(content[..MAX_SNIPPET_LENGTH]) + "..."
  }

  /** The longest start of the first 500 characters that does not end in space. */
  ghost predicate IsHead(p: string, content: string) {
    && |content| > 500 && p <= content[..500]
    && (p == "" || !IsSpace(p[|p| - 1]))
    && forall i :: |p| <= i < 500 ==> IsSpace(content[i])
  }

  /** At most 503 characters: content of up to 500 as it is, and of longer content its head and an ellipsis. */
  lemma SnippetIsBounded(content: string)
    ensures |Truncate(content)| <= 503
    ensures |content| <= 500 ==> Truncate(content) == content
    ensures |content| > 500 ==> exists p :: IsHead(p, content) && Truncate(content) == p + "..."
  {
    if |content| > 500 {
      var p := TrimRight(content[..500]);
      assert IsHead(p, content);
    }
  }

  // -- Runs of token characters --------------------------------------------------------------------

  function RunEnd(s: string, i: nat): (j: nat)
    requires i <= |s|
    ensures i <= j <= |s|
    ensures forall k :: i <= k < j ==> IsTokenChar(s[k])
    ensures j < |s| ==> !IsTokenChar(s[j])
    decreases |s| - i
  {
    if i < |s| && IsTokenChar(s[i]) then RunEnd(s, i + 1) else i
  }

  type Span = (nat, nat)

  predicate WithinText(s: string, r: Span) {
    r.0 < r.1 <= |s|
  }

  /** The left-to-right, greedy, non-overlapping matches of the token pattern. */
  function Spans(s: string, from: nat): (spans: seq<Span>)
    requires from <= |s|
    ensures forall r :: r in spans ==> WithinText(s, r)
    decreases |s| - from
  {
    if from == |s| then []
    else
      var end := RunEnd(s, from);
      if end == from then Spans(s, from + 1) else [(from, end)] + Spans(s, end)
  }

  predicate IsMaximalRun(s: string, r: Span) {
    && WithinText(s, r)
    && (forall k :: r.0 <= k < r.1 ==> IsTokenChar(s[k]))
    && (r.0 > 0 ==> !IsTokenChar(s[r.0 - 1]))
    && (r.1 < |s| ==> !IsTokenChar(s[r.1]))
  }

  predicate Left(x: Span, y: Span) {
    x.1 < y.0
  }

  lemma {:induction false} SpansFrom(s: string, from: nat)
    requires from <= |s|
    requires 0 < from < |s| ==> !IsTokenChar(s[from - 1]) || !IsTokenChar(s[from])
    ensures forall r :: r in Spans(s, from) <==> IsMaximalRun(s, r) && from <= r.0
    ensures Ascending(Spans(s, from), Left)
    decreases |s| - from
  {
    if from < |s| {
      var end := RunEnd(s, from);
      if end == from {
        SpansFrom(s, from + 1);
      } else {
        SpansFrom(s, end);
        var rest := Spans(s, end);
        assert Spans(s, from) == [(from, end)] + rest;
        forall r: Span ensures r in Spans(s, from) <==> IsMaximalRun(s, r) && from <= r.0 {
          if IsMaximalRun(s, r) && from <= r.0 < end {
            assert r == (from, end);
          }
        }
        forall i | 0 <= i < |rest| ensures Left((from, end), rest[i]) {
          assert rest[i] in rest;
          assert IsMaximalRun(s, rest[i]) && end <= rest[i].0;
        }
      }
    }
  }

  /** The pattern finds the maximal runs, all of them, from left to right. */
  lemma SpansAreMaximalRuns(s: string)
    ensures forall r :: r in Spans(s, 0) <==> IsMaximalRun(s, r)
    ensures Ascending(Spans(s, 0), Left)
  {
    SpansFrom(s, 0);
  }

  function Runs(s: string): seq<string> {
    var spans := Spans(s, 0);
    seq(|spans|, i requires 0 <= i < |spans| => SpanText(s, spans[i]))
  }

  function SpanText(s: string, r: Span): string {
    if WithinText(s, r) then s[r.0..r.1] else ""
  }

  /** The runs are the texts of those spans, in their order. */
  lemma RunsAreTexts(s: string)
    ensures |Runs(s)| == |Spans(s, 0)|
    ensures forall i :: 0 <= i < |Runs(s)| ==>
              && 0 <= Spans(s, 0)[i].0 < Spans(s, 0)[i].1 <= |s|
              && Runs(s)[i] == s[Spans(s, 0)[i].0..Spans(s, 0)[i].1]
  {
    forall i | 0 <= i < |Runs(s)| ensures WithinText(s, Spans(s, 0)[i]) {
      assert Spans(s, 0)[i] in Spans(s, 0);
    }
  }

  lemma RunChars(s: string, t: string)
    requires t in Runs(s)
    ensures t != [] && forall k :: 0 <= k < |t| ==> IsTokenChar(t[k])
  {
    SpansAreMaximalRuns(s);
    var i :| 0 <= i < |Runs(s)| && Runs(s)[i] == t;
    assert Spans(s, 0)[i] in Spans(s, 0);
  }

  // -- Tokens ------------------------------------------------------------------------------------

  /** The runs long enough to count, each at its first occurrence. */
  function Distinct(runs: seq<string>): seq<string> {
    if runs == [] then []
    else
      var earlier, run := Distinct(runs[..|runs| - 1]), runs[|runs| - 1];
      if |run| < MIN_TOKEN_LENGTH || run in earlier then earlier else earlier + [run]
  }

  function FirstTokens(distinct: seq<string>): seq<string> {
    if |distinct| <= MAX_QUERY_TOKENS then distinct else distinct[..MAX_QUERY_TOKENS]
  }

  function Tokens(query: string): seq<string> {
    FirstTokens(Distinct(Runs(Lower(query))))
  }

  lemma {:induction false} DistinctGrows(runs: seq<string>, k: nat)
    requires k <= |runs|
    ensures Distinct(runs[..k]) <= Distinct(runs)
  {
    if k == |runs| {
      assert runs[..k] == runs;
    } else {
      DistinctGrows(runs[..|runs| - 1], k);
      assert runs[..|runs| - 1][..k] == runs[..k];
    }
  }

  /** Everything before `d[j]` in the answer occurs before position `p` in the text. */
  ghost predicate SeenBefore(runs: seq<string>, d: seq<string>, j: nat, p: nat)
    requires j <= |d| && p <= |runs|
  {
    forall i :: 0 <= i < j ==> d[i] in runs[..p]
  }

  ghost predicate InFirstOrder(runs: seq<string>, d: seq<string>) {
    forall j: nat, p: nat :: j < |d| && p < |runs| && runs[p] == d[j] ==> SeenBefore(runs, d, j, p)
  }

  ghost predicate NoRepeats(d: seq<string>) {
    forall i, j :: 0 <= i < j < |d| ==> d[i] != d[j]
  }

  lemma {:induction false} DistinctIsExact(runs: seq<string>)
    ensures forall t :: t in Distinct(runs) <==> t in runs && |t| >= MIN_TOKEN_LENGTH
    ensures NoRepeats(Distinct(runs))
    ensures InFirstOrder(runs, Distinct(runs))
  {
    if runs != [] {
      var n := |runs| - 1;
      var earlier, d := Distinct(runs[..n]), Distinct(runs);
      DistinctIsExact(runs[..n]);
      assert runs == runs[..n] + [runs[n]];
      forall j: nat, p: nat | j < |d| && p < |runs| && runs[p] == d[j] ensures SeenBefore(runs, d, j, p) {
        if p < n {
          assert runs[..n][..p] == runs[..p] && runs[..n][p] == d[j];
          assert d[j] in runs[..n] && |d[j]| >= MIN_TOKEN_LENGTH;
          assert j < |earlier| && SeenBefore(runs[..n], earlier, j, p);
        } else {
          assert forall i :: 0 <= i < j ==> d[i] in earlier;
        }
      }
    }
  }

  /**
   The tokens of a query: long runs without repeats, ordered by first occurrence, at most ten; a long
   run that is left out comes, wherever it occurs, after all ten.
   */
  lemma TokensAreFirstLongRuns(query: string)
    ensures var runs, tokens := Runs(Lower(query)), Tokens(query);
            && |tokens| <= 10
            && (forall t :: t in tokens ==> t in runs && |t| >= 2)
            && NoRepeats(tokens)
            && InFirstOrder(runs, tokens)
            && forall p: nat :: p < |runs| && |runs[p]| >= 2 && runs[p] !in tokens ==>
                 |tokens| == 10 && SeenBefore(runs, tokens, |tokens|, p)
  {
    var runs, tokens := Runs(Lower(query)), Tokens(query);
    var d := Distinct(runs);
    DistinctIsExact(runs);
    forall j: nat, p: nat | j < |tokens| && p < |runs| && runs[p] == tokens[j] ensures SeenBefore(runs, tokens, j, p) {
      assert SeenBefore(runs, d, j, p);
    }
    assert forall i :: 0 <= i < |tokens| ==> d[i] in tokens;
    forall p: nat | p < |runs| && |runs[p]| >= MIN_TOKEN_LENGTH && runs[p] !in tokens
      ensures |tokens| == MAX_QUERY_TOKENS && SeenBefore(runs, tokens, |tokens|, p)
    {
      assert runs[p] in d;
      var j: nat :| j < |d| && d[j] == runs[p];
      assert SeenBefore(runs, d, j, p);
    }
  }

  method Tokenize(query: string) returns (tokens: seq<string>)
    ensures tokens == Tokens(query)
  {
    var found := Runs(Lower(query));
    var seen: set<string> := {};
    tokens := [];
    var k := 0;
    while k < |found|
      invariant k <= |found|
      invariant tokens == Distinct(found[..k])
      invariant seen == set t | t in tokens
      invariant |tokens| < MAX_QUERY_TOKENS
    {
      var token := found[k];
      assert found[..k + 1][..k] == found[..k];
      k := k + 1;
      if |token| < MIN_TOKEN_LENGTH || token in seen {
        continue;
      }
      seen := seen + {token};
      tokens := tokens + [token];
      if |tokens| >= MAX_QUERY_TOKENS {
        DistinctGrows(found, k);
        return;
      }
    }
    assert found[..k] == found;
  }

  /** A blank query has no token, so the query is refused exactly when it is too long or has none. */
  lemma BlankHasNoTokens(query: string)
    requires forall i :: 0 <= i < |query| ==> IsSpace(query[i])
    ensures Tokens(query) == []
  {
    var text := Lower(query);
    LowerKeepsSpace(query);
    var spans := Spans(text, 0);
    assert |spans| > 0 ==> spans[0] in spans;
    SpansAreMaximalRuns(text);
    assert forall i :: 0 <= i < |text| ==> !IsTokenChar(text[i]);
    assert forall r: Span :: WithinText(text, r) ==> !IsTokenChar(text[r.0]);
  }

  // -- Matching ------------------------------------------------------------------------------------

  function SearchText(item: Item): string {
    Lower(item.title + "\n" + item.content)
  }

  lemma OccurrenceChars(text: string, t: string, i: nat, k: nat)
    requires i + |t| <= |text| && k < |t| && OccursAt(text, t, i)
    ensures text[i + k] in t
  {
    assert text[i..i + |t|][k] == t[k];
  }

  lemma ContainsSplit(a: string, c: char, b: string, t: string)
    requires c !in t
    ensures Contains(a + [c] + b, t) ==> Contains(a, t) || Contains(b, t)
  {
    var text := a + [c] + b;
    if Contains(text, t) {
      var i :| 0 <= i <= |text| - |t| && OccursAt(text, t, i);
      if i + |t| <= |a| {
        assert OccursAt(a, t, i);
      } else if i > |a| {
        assert text[i..i + |t|] == b[i - |a| - 1..i - |a| - 1 + |t|];
        assert OccursAt(b, t, i - |a| - 1);
      } else {
        OccurrenceChars(text, t, i, |a| - i);
      }
    }
  }

  lemma ContainsEither(a: string, c: char, b: string, t: string)
    ensures Contains(a, t) || Contains(b, t) ==> Contains(a + [c] + b, t)
  {
    var text := a + [c] + b;
    if Contains(a, t) {
      var i :| 0 <= i <= |a| - |t| && OccursAt(a, t, i);
      assert text[i..i + |t|] == a[i..i + |t|];
      assert OccursAt(text, t, i);
    } else if Contains(b, t) {
      var i :| 0 <= i <= |b| - |t| && OccursAt(b, t, i);
      assert text[i + |a| + 1..i + |a| + 1 + |t|] == b[i..i + |t|];
      assert OccursAt(text, t, i + |a| + 1);
    }
  }

  lemma TokenChars(query: string, t: string)
    requires t in Tokens(query)
    ensures t != [] && '\n' !in t
  {
    TokensAreFirstLongRuns(query);
    RunChars(Lower(query), t);
  }

  /** A token never straddles the line break: an item matches a token in its title or in its content. */
  lemma TokenIsInTitleOrContent(item: Item, query: string, t: string)
    requires t in Tokens(query)
    ensures Contains(SearchText(item), t) <==> Contains(Lower(item.title), t) || Contains(Lower(item.content), t)
  {
    TokenChars(query, t);
    MapEachConcat(item.title + "\n", item.content, LowerChar);
    MapEachConcat(item.title, "\n", LowerChar);
    LowerKeepsSpace("\n");
    assert SearchText(item) == Lower(item.title) + ['\n'] + Lower(item.content);
    ContainsSplit(Lower(item.title), '\n', Lower(item.content), t);
    ContainsEither(Lower(item.title), '\n', Lower(item.content), t);
  }

  predicate SourceActive(s: State, tenant: nat, source: nat) {
    OwnsSource(s, tenant, source) && s.sources[source].active
  }

  predicate MatchesAll(item: Item, tokens: seq<string>) {
    forall t :: t in tokens ==> Contains(SearchText(item), t)
  }

  predicate Matching(s: State, tenant: nat, approved: set<nat>, tokens: seq<string>, id: nat) {
    && id in approved
    && IsActiveItem(s, tenant, id)
    && SourceActive(s, tenant, s.items[id].source)
    && MatchesAll(s.items[id], tokens)
  }

  /**
   What a query finds: an approved, active item of the tenant, in an active source of the tenant, each
   token of the query somewhere in its title or in its content, whatever the case of its letters.
   */
  lemma MatchingIff(s: State, tenant: nat, approved: set<nat>, query: string, id: nat)
    ensures Matching(s, tenant, approved, Tokens(query), id) <==>
              && id in approved && id in s.items && s.items[id].tenant == tenant && s.items[id].status == Active
              && s.items[id].source in s.sources && s.sources[s.items[id].source].tenant == tenant
              && s.sources[s.items[id].source].active
              && forall t :: t in Tokens(query) ==>
                   (exists a, b :: Lower(s.items[id].title) == a + t + b) || (exists a, b :: Lower(s.items[id].content) == a + t + b)
  {
    if id in s.items {
      forall t | t in Tokens(query)
        ensures Contains(SearchText(s.items[id]), t) <==>
                (exists a, b :: Lower(s.items[id].title) == a + t + b) || (exists a, b :: Lower(s.items[id].content) == a + t + b)
      {
        TokenIsInTitleOrContent(s.items[id], query, t);
        ContainsIff(Lower(s.items[id].title), t);
        ContainsIff(Lower(s.items[id].content), t);
      }
    }
  }

  // -- Ranking -------------------------------------------------------------------------------------

  predicate LexLess(a: string, b: string) {
    if b == [] then false
    else if a == [] then true
    else a[0] < b[0] || (a[0] == b[0] && LexLess(a[1..], b[1..]))
  }

  lemma {:induction false} LexTotal(a: string, b: string)
    ensures !(LexLess(a, b) && LexLess(b, a))
    ensures a == b || LexLess(a, b) || LexLess(b, a)
    ensures !LexLess(a, a)
  {
    if a != [] {
      LexTotal(a[1..], if b == [] then [] else b[1..]);
      assert b != [] && a[0] == b[0] && a[1..] == b[1..] ==> a == [a[0]] + a[1..] == b;
    }
  }

  /** The texts agree before position `k`, and there the first one ends or has the smaller character. */
  ghost predicate SmallerAt(a: string, b: string, k: nat) {
    && k <= |a| && k < |b| && a[..k] == b[..k]
    && (k == |a| || a[k] < b[k])
  }

  lemma HeadsDiffer(a: string, b: string, k: nat)
    requires a != [] && b != [] && a[0] != b[0]
    ensures SmallerAt(a, b, k) ==> k == 0
  {
    if 0 < k <= |a| && k < |b| {
      assert a[..k][0] == a[0] && b[..k][0] == b[0];
    }
  }

  /** The order of texts is by the first character in which they differ, a prefix first. */
  lemma {:induction false} LexLessIff(a: string, b: string)
    ensures LexLess(a, b) <==> exists k: nat :: SmallerAt(a, b, k)
  {
    if a == [] || b == [] {
      assert b != [] ==> SmallerAt(a, b, 0);
    } else if a[0] != b[0] {
      assert a[0] < b[0] ==> SmallerAt(a, b, 0);
      forall k: nat ensures SmallerAt(a, b, k) ==> k == 0 {
        HeadsDiffer(a, b, k);
      }
    } else {
      var s, t := a[1..], b[1..];
      LexLessIff(s, t);
      forall k: nat | SmallerAt(s, t, k) ensures SmallerAt(a, b, k + 1) {
        assert a[..k + 1] == [a[0]] + s[..k] && b[..k + 1] == [b[0]] + t[..k];
      }
      forall k: nat | SmallerAt(a, b, k) ensures k > 0 && SmallerAt(s, t, k - 1) {
        assert k > 0 ==> s[..k - 1] == a[..k][1..] && t[..k - 1] == b[..k][1..];
      }
    }
  }

  /** A sorted listing is by title, and by id among equal titles. */
  lemma SortedByTitle(items: map<nat, Item>, ids: seq<nat>, i: nat, j: nat)
    requires IsSorted(items, ids) && i < j < |ids|
    ensures ids[i] in items && ids[j] in items
    ensures || (exists k: nat :: SmallerAt(items[ids[i]].title, items[ids[j]].title, k))
            || (items[ids[i]].title == items[ids[j]].title && ids[i] < ids[j])
  {
    assert ((x: nat, y: nat) => Precedes(items, x, y))(ids[i], ids[j]);
    LexLessIff(items[ids[i]].title, items[ids[j]].title);
  }

  lemma {:induction false} LexTransitive(a: string, b: string, c: string)
    requires LexLess(a, b) && LexLess(b, c)
    ensures LexLess(a, c)
  {
    if a != [] && a[0] == b[0] == c[0] {
      LexTransitive(a[1..], b[1..], c[1..]);
    }
  }

  /** The sort key (title, id). */
  predicate Precedes(items: map<nat, Item>, x: nat, y: nat) {
    && x in items && y in items
    && (LexLess(items[x].title, items[y].title) || (items[x].title == items[y].title && x < y))
  }

  lemma PrecedesIsTotal(items: map<nat, Item>, x: nat, y: nat)
    requires x in items && y in items
    ensures !(Precedes(items, x, y) && Precedes(items, y, x))
    ensures x == y || Precedes(items, x, y) || Precedes(items, y, x)
  {
    LexTotal(items[x].title, items[y].title);
    LexTotal(items[x].title, items[x].title);
  }

  lemma PrecedesIsTransitive(items: map<nat, Item>, x: nat, y: nat, z: nat)
    requires Precedes(items, x, y) && Precedes(items, y, z)
    ensures Precedes(items, x, z)
  {
    if LexLess(items[x].title, items[y].title) && LexLess(items[y].title, items[z].title) {
      LexTransitive(items[x].title, items[y].title, items[z].title);
    }
  }

  ghost predicate IsSorted(items: map<nat, Item>, ids: seq<nat>) {
    Ascending(ids, (x: nat, y: nat) => Precedes(items, x, y))
  }

  ghost predicate IsRanking(s: State, tenant: nat, approved: set<nat>, tokens: seq<string>, ids: seq<nat>) {
    && (forall id: nat :: id in ids <==> Matching(s, tenant, approved, tokens, id))
    && IsSorted(s.items, ids)
  }

  /** There is one ranking, so the answer does not depend on the order of rows in the database. */
  lemma RankingIsUnique(s: State, tenant: nat, approved: set<nat>, tokens: seq<string>, a: seq<nat>, b: seq<nat>)
    requires IsRanking(s, tenant, approved, tokens, a)
    requires IsRanking(s, tenant, approved, tokens, b)
    ensures a == b
  {
    forall id: nat ensures id in a <==> id in b {
      assert id in a <==> Matching(s, tenant, approved, tokens, id);
    }
    forall x, y | x in a && y in a ensures !(Precedes(s.items, x, y) && Precedes(s.items, y, x)) {
      PrecedesIsTotal(s.items, x, y);
    }
    SortedListingIsUnique(a, b, (x: nat, y: nat) => Precedes(s.items, x, y));
  }

  datatype Found = Found(item: nat, source: nat, title: string, snippet: string)

  function ToFound(items: map<nat, Item>, id: nat): Found
    requires id in items
  {
    Found(id, items[id].source, items[id].title, Truncate(items[id].content))
  }

  /** The result tells the item, its source and title, and the start of its content. */
  predicate IsExcerpt(found: Found, id: nat, item: Item) {
    && found.item == id && found.source == item.source && found.title == item.title
    && found.snippet == Truncate(item.content)
  }

  function BoundedLimit(limit: int): (n: nat)
    ensures 1 <= n <= MAX_RESULT_LIMIT && (1 <= limit <= MAX_RESULT_LIMIT ==> n == limit)
  {
    if limit < 1 then 1 else if limit > MAX_RESULT_LIMIT then MAX_RESULT_LIMIT else limit
  }

  /** The results are the first of the ranking, as many as the limit allows. */
  ghost predicate IsAnswer(s: State, ranking: seq<nat>, limit: int, results: seq<Found>) {
    && |results| == (if |ranking| < BoundedLimit(limit) then |ranking| else BoundedLimit(limit))
    && forall i :: 0 <= i < |results| ==> ranking[i] in s.items && results[i] == ToFound(s.items, ranking[i])
  }

  // -- Retrieval over time ---------------------------------------------------------------------------

  /** The foreign key of items on sources. */
  ghost predicate SourcesExist(s: State) {
    forall id :: id in s.items ==> OwnsSource(s, s.items[id].tenant, s.items[id].source)
  }

  /** Sources known before keep their tenant, and none becomes active again. */
  ghost predicate NoSourceReopened(s: State, s': State) {
    forall x :: x in s.sources ==>
      x in s'.sources && s'.sources[x].tenant == s.sources[x].tenant && (s'.sources[x].active ==> s.sources[x].active)
  }

  /** Whatever else happens: items released before can only drop out of the matches, never enter or change. */
  lemma MatchesShrink(s: State, s': State, tenant: nat, approved: set<nat>, tokens: seq<string>, id: nat)
    requires Aged(s, s') && SourcesExist(s) && NoSourceReopened(s, s')
    requires forall x :: x in approved ==> x in s.items && !s.items[x].status.Draft?
    requires Matching(s', tenant, approved, tokens, id)
    ensures Matching(s, tenant, approved, tokens, id)
    ensures ToFound(s'.items, id) == ToFound(s.items, id)
  {
    assert TriggerAccepts(s.items[id], s'.items[id]);
  }

  lemma {:induction false} ServiceKeepsSources(steps: seq<Step>, k: nat)
    requires AllNewIds(steps) && k <= |steps|
    ensures SourcesExist(After(steps))
    ensures NoSourceReopened(After(steps[..k]), After(steps))
  {
    if steps == [] {
      assert steps[..k] == steps;
    } else {
      var before := steps[..|steps| - 1];
      ServiceKeepsSources(before, if k < |steps| then k else 0);
      if k == |steps| {
        assert steps[..k] == steps;
      } else {
        assert before[..k] == steps[..k];
      }
    }
  }

  /**
   For an agent version accepted at step `k`: of two later moments, the matches of any query at the
   second are among those at the first, and each shared result reads the same.
   */
  lemma MatchesOnlyShrink(steps: seq<Step>, k: nat, j: nat, tenant: nat, approved: set<nat>, query: string, id: nat)
    requires AllNewIds(steps) && k <= j <= |steps|
    requires ReferencesAccepted(After(steps[..k]), tenant, approved)
    requires Matching(After(steps), tenant, approved, Tokens(query), id)
    ensures Matching(After(steps[..j]), tenant, approved, Tokens(query), id)
    ensures ToFound(After(steps).items, id) == ToFound(After(steps[..j]).items, id)
  {
    var s := After(steps[..j]);
    NewIdsOfPrefix(steps, j);
    assert steps[..j][..k] == steps[..k];
    RunsAge(steps, j);
    ServiceKeepsSources(steps, j);
    ServiceKeepsSources(steps[..j], 0);
    forall x | x in approved ensures x in s.items && !s.items[x].status.Draft? {
      AcceptedReferencesKeepMeaning(steps[..j], k, tenant, approved, x);
    }
    MatchesShrink(s, After(steps), tenant, approved, Tokens(query), id);
  }

  // -- The search ------------------------------------------------------------------------------------

  datatype SearchError = InvalidQuery

  predicate Blank(s: string) {
    forall i :: 0 <= i < |s| ==> IsSpace(s[i])
  }

  method InsertByKey(items: map<nat, Item>, id: nat, sorted: seq<nat>) returns (ids: seq<nat>)
    requires id in items && id !in sorted && IsSorted(items, sorted)
    requires forall x :: x in sorted ==> x in items
    ensures IsSorted(items, ids)
    ensures forall x: nat :: x in ids <==> x == id || x in sorted
  {
    var i := 0;
    while i < |sorted| && Precedes(items, sorted[i], id)
      invariant i <= |sorted|
      invariant forall k :: 0 <= k < i ==> Precedes(items, sorted[k], id)
    {
      i := i + 1;
    }
    ids := sorted[..i] + [id] + sorted[i..];
    forall k | i <= k < |sorted| ensures Precedes(items, id, sorted[k]) {
      PrecedesIsTotal(items, sorted[i], id);
      if i < k {
        PrecedesIsTransitive(items, id, sorted[i], sorted[k]);
      }
    }
  }

  /** In place sort of the matches by (title, id). */
  method Rank(items: map<nat, Item>, matched: set<nat>) returns (ids: seq<nat>)
    requires forall x :: x in matched ==> x in items
    ensures IsSorted(items, ids)
    ensures forall x: nat :: x in ids <==> x in matched
  {
    var left := matched;
    ids := [];
    while left != {}
      invariant left <= matched
      invariant IsSorted(items, ids)
      invariant forall x: nat :: x in ids <==> x in matched && x !in left
    {
      ghost var some := AnyOf(left);
      assert some in left;
      var id: nat :| id in left;
      ids := InsertByKey(items, id, ids);
      left := left - {id};
    }
  }

  /** The first of the ranking, with the start of their contents. */
  method TopResults(items: map<nat, Item>, ids: seq<nat>, top: nat) returns (results: seq<Found>)
    requires forall id :: id in ids ==> id in items
    ensures |results| == if |ids| < top then |ids| else top
    ensures forall k :: 0 <= k < |results| ==> ids[k] in items && results[k] == ToFound(items, ids[k])
  {
    results := [];
    for i := 0 to if |ids| < top then |ids| else top
      invariant |results| == i
      invariant forall k :: 0 <= k < i ==> ids[k] in items && results[k] == ToFound(items, ids[k])
    {
      assert ids[i] in ids;
      results := results + [ToFound(items, ids[i])];
    }
  }

  /** Refused exactly when over-long or without a token; otherwise the top of the one ranking. */
  method SearchItems(store: KnowledgeService, tenant: nat, approved: set<nat>, query: string, limit: int)
      returns (r: Result<seq<Found>, SearchError>, ghost ranking: seq<nat>)
    ensures r.Err? <==> |query| > 500 || Tokens(query) == []
    ensures r.Ok? ==>
              && IsRanking(store.Now(), tenant, approved, Tokens(query), ranking)
              && IsAnswer(store.Now(), ranking, limit, r.value)
    ensures r.Ok? ==>
              var most := if limit < 1 then 1 else if limit > 5 then 5 else limit;
              && |r.value| == (if |ranking| < most then |ranking| else most)
              && forall i :: 0 <= i < |r.value| ==>
                   ranking[i] in store.items && IsExcerpt(r.value[i], ranking[i], store.items[ranking[i]])
  {
    ranking := [];
    if Blank(query) || |query| > MAX_QUERY_LENGTH {
      if Blank(query) {
        BlankHasNoTokens(query);
      }
      return Err(InvalidQuery), ranking;
    }
    var tokens := Tokenize(query);
    if tokens == [] {
      return Err(InvalidQuery), ranking;
    }
    var s := State(store.sources, store.items);
    var candidates := set id | id in approved && IsActiveItem(s, tenant, id);
    var sourceIds := set id | id in candidates && id in s.items :: s.items[id].source;
    var activeSources := set x | x in sourceIds && SourceActive(s, tenant, x);
    candidates := set id | id in candidates && id in s.items && s.items[id].source in activeSources;
    var matched := set id | id in candidates && id in s.items && MatchesAll(s.items[id], tokens);
    assert forall id: nat :: id in matched <==> Matching(s, tenant, approved, tokens, id);
    var ids := Rank(s.items, matched);
    ranking := ids;
    var results := TopResults(s.items, ids, BoundedLimit(limit));
    r := Ok(results);
  }
}
