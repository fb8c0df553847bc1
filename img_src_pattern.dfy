/** The regular expression /<img[^>]+src=["']([^"']+)["']/ that both visit cards
    use to find a thumbnail, as a hand-written scanner that follows JavaScript's
    backtracking order, and the declarative meaning of a match that the scanner
    is proved to find.

    JavaScript tries start positions from left to right and, at a start
    position, lets the greedy `[^>]+` take as much as it can and gives back one
    character at a time. So the match found is the one with the leftmost
    `<img`, and within that tag the LAST `src=` before the first `>` whose
    quoted value completes. The group `([^"']+)` is then forced: the longest
    run of non-quote characters after the opening quote, which must be
    followed by a quote. */
module ImgSrcPattern {
  import opened Js

  predicate IsQuote(c: char)
  {
    c == '"' || c == '\''
  }

  /** `<img` starts at p. */
  predicate ImgAt(s: string, p: nat)
  {
    OccursAt(s, "<img", p)
  }

  /** `src=` starts at i. */
  predicate SrcAt(s: string, i: nat)
  {
    OccursAt(s, "src=", i)
  }

  /** `src=["']([^"']+)["']` matches at i, with the closing quote at e. */
  ghost predicate ValueSpan(s: string, i: nat, e: nat)
  {
    && SrcAt(s, i)
    && i + 5 < e < |s|
    && IsQuote(s[i + 4])
    && IsQuote(s[e])
    && (forall t :: i + 5 <= t < e ==> !IsQuote(s[t]))
  }

  /** The whole expression matches with `<img` at p, `src=` at i and the
      closing quote at e: at least one character and no `>` between `<img`
      and `src=`. */
  ghost predicate TagMatch(s: string, p: nat, i: nat, e: nat)
  {
    && ImgAt(s, p)
    && p + 5 <= i
    && ValueSpan(s, i, e)
    && (forall t :: p + 4 <= t < i ==> s[t] != '>')
  }

  /** Where a match lies: `<img` at `start`, `src=` at `src`, the closing quote
      at `close`. The captured group is s[src + 5 .. close]. */
  datatype Match = Match(start: nat, src: nat, close: nat)

  /** The match JavaScript's `String.prototype.match` reports: no match starts
      further left, and no `src=` further right in the same tag completes. */
  ghost predicate IsFirstMatch(s: string, m: Match)
  {
    && TagMatch(s, m.start, m.src, m.close)
    && (forall p: nat, i: nat, e: nat :: p < m.start ==> !TagMatch(s, p, i, e))
    && (forall i: nat, e: nat :: m.src < i ==> !TagMatch(s, m.start, i, e))
  }

  ghost predicate HasMatch(s: string)
  {
    exists p: nat, i: nat, e: nat :: TagMatch(s, p, i, e)
  }

  // ---------------------------------------------------------------------------
  // the scanner

  /** Index of the first `>` at or after j, or |s|: how far `[^>]+` reaches. */
  function FirstGt(s: string, j: nat): (g: nat)
    requires j <= |s|
    ensures j <= g <= |s|
    ensures forall t :: j <= t < g ==> s[t] != '>'
    ensures g < |s| ==> s[g] == '>'
    decreases |s| - j
  {
    if j == |s| || s[j] == '>' then j else FirstGt(s, j + 1)
  }

  /** Index of the first quote at or after j, or |s|: how far `[^"']+` reaches. */
  function FirstQuote(s: string, j: nat): (q: nat)
    requires j <= |s|
    ensures j <= q <= |s|
    ensures forall t :: j <= t < q ==> !IsQuote(s[t])
    ensures q < |s| ==> IsQuote(s[q])
    decreases |s| - j
  {
    if j == |s| || IsQuote(s[j]) then j else FirstQuote(s, j + 1)
  }

  /** Tries `src=["']([^"']+)["']` at i; returns the closing quote's index. */
  function ValueAt(s: string, i: nat): (r: Option<nat>)
    ensures r.Some? ==> ValueSpan(s, i, r.value)
    ensures r.None? ==> forall e: nat :: !ValueSpan(s, i, e)
  {
    if SrcAt(s, i) && i + 5 < |s| && IsQuote(s[i + 4]) && !IsQuote(s[i + 5]) then
      var e := FirstQuote(s, i + 5);
      if e < |s| then Some(e) else None
    else None
  }

  /** Backtracking over the end of `[^>]+`: tries `src=` at i, i - 1, ..., lo. */
  function Backtrack(s: string, lo: nat, i: nat): (r: Option<(nat, nat)>)
    requires lo <= i
    ensures r.Some? ==> lo <= r.value.0 <= i && ValueSpan(s, r.value.0, r.value.1)
    ensures r.Some? ==> forall j: nat, e: nat :: r.value.0 < j <= i ==> !ValueSpan(s, j, e)
    ensures r.None? ==> forall j: nat, e: nat :: lo <= j <= i ==> !ValueSpan(s, j, e)
    decreases i
  {
    match ValueAt(s, i)
    case Some(e) => Some((i, e))
    case None => if i == lo then None else Backtrack(s, lo, i - 1)
  }

  /** The expression anchored at p: `<img`, then the greedy `[^>]+` (which needs
      at least one character), then backtracking. */
  function MatchAt(s: string, p: nat): (r: Option<Match>)
    ensures r.Some? ==> r.value.start == p && TagMatch(s, p, r.value.src, r.value.close)
    ensures r.Some? ==> forall i: nat, e: nat :: r.value.src < i ==> !TagMatch(s, p, i, e)
    ensures r.None? ==> forall i: nat, e: nat :: !TagMatch(s, p, i, e)
  {
    if ImgAt(s, p) && p + 4 < |s| && s[p + 4] != '>' then
      var g := FirstGt(s, p + 4);
      match Backtrack(s, p + 5, g)
      case Some(found) => Some(Match(p, found.0, found.1))
      case None => None
    else None
  }

  /** Tries start positions p, p + 1, ... in turn. */
  function MatchFrom(s: string, p: nat): (r: Option<Match>)
    ensures r.Some? ==> p <= r.value.start && IsFirstMatchFrom(s, p, r.value)
    ensures r.None? ==> forall q: nat, i: nat, e: nat :: p <= q ==> !TagMatch(s, q, i, e)
    decreases |s| - p
  {
    if p >= |s| then None
    else
      match MatchAt(s, p)
      case Some(m) => Some(m)
      case None => MatchFrom(s, p + 1)
  }

  ghost predicate IsFirstMatchFrom(s: string, p: nat, m: Match)
  {
    && TagMatch(s, m.start, m.src, m.close)
    && (forall q: nat, i: nat, e: nat :: p <= q < m.start ==> !TagMatch(s, q, i, e))
    && (forall i: nat, e: nat :: m.src < i ==> !TagMatch(s, m.start, i, e))
  }

  /** `s.match(/<img[^>]+src=["']([^"']+)["']/)` */
  function Exec(s: string): (r: Option<Match>)
    ensures r.Some? ==> IsFirstMatch(s, r.value)
    ensures r.None? <==> !HasMatch(s)
  {
    MatchFrom(s, 0)
  }

  /** `match[1]`: the captured `src` value. */
  function Group(s: string, m: Match): (g: string)
    requires TagMatch(s, m.start, m.src, m.close)
    ensures g != "" && forall k :: 0 <= k < |g| ==> !IsQuote(g[k])
    ensures OccursAt(s, g, m.src + 5) && IsQuote(s[m.src + 4]) && IsQuote(s[m.src + 5 + |g|])
  {
    s[m.src + 5..m.close]
  }

  /** `match ? match[1] : null` */
  function FirstImgSrc(s: string): (r: Option<string>)
    ensures r.None? <==> !HasMatch(s)
  {
    match Exec(s)
    case Some(m) => Some(Group(s, m))
    case None => None
  }

  // ---------------------------------------------------------------------------
  // properties

  /** The specification determines the match: there is at most one first match. */
  lemma FirstMatchUnique(s: string, m1: Match, m2: Match)
    requires IsFirstMatch(s, m1) && IsFirstMatch(s, m2)
    ensures m1 == m2
  {
    assert m1.start == m2.start;
    assert m1.src == m2.src;
  }

  /** The result is exactly the group of the first match, and there is one
      exactly when some `<img ... src="...">` matches at all. */
  lemma FirstImgSrcSpec(s: string)
    ensures FirstImgSrc(s).Some? <==> HasMatch(s)
    ensures FirstImgSrc(s).Some? ==>
      exists m :: IsFirstMatch(s, m) && FirstImgSrc(s).value == Group(s, m)
  {
    if Exec(s).Some? {
      assert IsFirstMatch(s, Exec(s).value);
    }
  }

  /** What a found value looks like: non-empty, free of quotes, right after
      `src=` and a quote, right before a quote, and with `src=` inside an
      `<img` tag (no `>` between the two). */
  lemma FoundValueShape(s: string)
    requires FirstImgSrc(s).Some?
    ensures var v := FirstImgSrc(s).value;
      && v != []
      && (forall k :: 0 <= k < |v| ==> !IsQuote(v[k]))
      && exists p: nat, i: nat :: QuotedSrcInTag(s, v, p, i)
  {
    var m := Exec(s).value;
    var v := FirstImgSrc(s).value;
    assert v == s[m.src + 5..m.close];
    assert forall k :: 0 <= k < |v| ==> v[k] == s[m.src + 5 + k];
    var gap := s[m.start + 4..m.src];
    assert forall k :: 0 <= k < |gap| ==> gap[k] == s[m.start + 4 + k];
    assert OccursAt(s, v, m.src + 5);
    assert QuotedSrcInTag(s, v, m.start, m.src);
  }

  /** v is quoted right after a `src=` at i that sits inside the tag opened by
      `<img` at p. */
  ghost predicate QuotedSrcInTag(s: string, v: string, p: nat, i: nat)
  {
    && ImgAt(s, p) && p + 5 <= i <= |s| && '>' !in s[p + 4..i]
    && SrcAt(s, i) && i + 5 + |v| < |s|
    && IsQuote(s[i + 4]) && OccursAt(s, v, i + 5) && IsQuote(s[i + 5 + |v|])
  }

  /** Content with no `<img` in it has no thumbnail. */
  lemma NoImgNoMatch(s: string)
    requires !Contains(s, "<img")
    ensures FirstImgSrc(s) == None
  {
  }

  /** The leftmost `<img` that yields a match wins: whenever some match starts
      at p, the match found starts at p or further left, and if at p, it uses
      the same `src=` or a later one in that tag. */
  lemma LeftmostWins(s: string, p: nat, i: nat, e: nat)
    requires TagMatch(s, p, i, e)
    ensures Exec(s).Some?
    ensures Exec(s).value.start <= p
    ensures Exec(s).value.start == p ==> i <= Exec(s).value.src
  {
  }

  /** `<img src=` + quote + v + quote + `>` yields exactly v, for any non-empty
      quote-free v and any pair of quotes (they need not be alike). */
  lemma {:induction false} SingleImgTag(open: char, v: string, close: char)
    requires IsQuote(open) && IsQuote(close)
    requires v != [] && forall k :: 0 <= k < |v| ==> !IsQuote(v[k])
    ensures FirstImgSrc("<img src=" + [open] + v + [close] + ">") == Some(v)
  {
    var s := "<img src=" + [open] + v + [close] + ">";
    var e := 10 + |v|;
    SingleImgTagMatch(open, v, close);
    var m := Exec(s).value;
    FirstMatchUnique(s, m, Match(0, 5, e));
  }

  /** The one match of `<img src=` + quote + v + quote + `>`, and where v lies in it. */
  lemma {:induction false} SingleImgTagMatch(open: char, v: string, close: char)
    requires IsQuote(open) && IsQuote(close)
    requires v != [] && forall k :: 0 <= k < |v| ==> !IsQuote(v[k])
    ensures var s := "<img src=" + [open] + v + [close] + ">";
      IsFirstMatch(s, Match(0, 5, 10 + |v|)) && s[10..10 + |v|] == v
  {
    var s := "<img src=" + [open] + v + [close] + ">";
    var e := 10 + |v|;
    assert |s| == e + 2;
    assert s[..4] == "<img";
    assert s[5..9] == "src=";
    assert s[9] == open && s[e] == close && s[e + 1] == '>';
    assert forall k :: 0 <= k < |v| ==> s[10 + k] == v[k];
    assert TagMatch(s, 0, 5, e);
    // every other start or `src=` position fails
    forall p: nat, i: nat, e': nat | TagMatch(s, p, i, e')
      ensures p == 0 && i == 5 && e' == e
    {
      assert IsQuote(s[i + 4]);
      if i != 5 {
        assert false;
      }
    }
    assert s[10..e] == v;
  }

  /** A found value is never "", so `thumbnail && ...` is the same test as
      `thumbnail !== null`. */
  lemma FoundValueNonEmpty(s: string)
    ensures FirstImgSrc(s) != Some("")
  {
    if FirstImgSrc(s).Some? {
      FoundValueShape(s);
    }
  }

  /** Greedy `[^>]+`: in `<img src="a" data-src="b">` the later `src=` of the
      same tag wins, so the value is "b". */
  lemma LastSrcInTagWins(s: string)
    requires s == "<img src=\"a\" data-src=\"b\">"
    ensures FirstImgSrc(s) == Some("b")
  {
    assert s[..4] == "<img";
    assert s[18..22] == "src=";
    assert TagMatch(s, 0, 18, 24);
    forall p: nat | ImgAt(s, p)
      ensures p == 0
    {
      assert s[p..p + 4][0] == s[p];
    }
    forall i: nat | 18 < i
      ensures !SrcAt(s, i)
    {
      assert i < |s| ==> s[i] != 's';
      assert i + 4 <= |s| ==> s[i..i + 4][0] == s[i];
    }
    assert IsFirstMatch(s, Match(0, 18, 24));
    FirstImgSrcSpec(s);
    var m :| IsFirstMatch(s, m) && FirstImgSrc(s).value == Group(s, m);
    FirstMatchUnique(s, m, Match(0, 18, 24));
    assert Group(s, m) == s[23..24] == "b";
  }

  /** A `src=` after the tag's `>` is not inside the tag and does not count:
      `<img alt="a">src="x"` has no thumbnail. */
  lemma SrcAfterTagCloseIgnored(s: string)
    requires s == "<img alt=\"a\">src=\"x\""
    ensures FirstImgSrc(s) == None
  {
    forall p: nat | ImgAt(s, p)
      ensures p == 0
    {
      assert s[p..p + 4][0] == s[p];
    }
    forall i: nat | i <= 12
      ensures !SrcAt(s, i)
    {
      assert s[i] != 's';
      assert i + 4 <= |s| ==> s[i..i + 4][0] == s[i];
    }
    assert s[12] == '>';
    assert !HasMatch(s);
    FirstImgSrcSpec(s);
  }
}
