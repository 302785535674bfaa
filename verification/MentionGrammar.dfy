/** The parser finds exactly the leftmost non-overlapping matches of the declared
    grammar, and printing a mention inverts it. */
module MentionGrammar {
  import opened Options
  import opened Text
  import opened Mentions

  // ---------------------------------------------------------------------
  // The scanning helpers are determined by what they promise
  // ---------------------------------------------------------------------

  lemma {:induction false} FirstChar(s: string, c: char, from: nat, i: nat)
    requires from <= i < |s| && s[i] == c && c !in s[from..i]
    ensures FindChar(s, c, from) == Some(i)
    decreases i - from
  {
    if from < i {
      assert s[from..i] == [s[from]] + s[from + 1..i];
      FirstChar(s, c, from + 1, i);
    }
  }

  lemma PunctuationIsNotSpace(c: char)
    requires IsPunctuation(c)
    ensures !IsWhitespace(c)
  {
  }

  lemma {:induction false} FirstWhitespace(s: string, from: nat, e: nat)
    requires from <= e <= |s| && (e == |s| || IsWhitespace(s[e]))
    requires forall i | from <= i < e :: !IsWhitespace(s[i])
    ensures FindWhitespace(s, from) == e
    decreases e - from
  {
    if from < e { FirstWhitespace(s, from + 1, e); }
  }

  lemma {:induction false} TrimmedTo(s: string, lo: nat, end: nat, hi: nat)
    requires lo <= end <= hi <= |s| && (end > lo ==> !IsPunctuation(s[end - 1]))
    requires forall i | end <= i < hi :: IsPunctuation(s[i])
    ensures TrimPunctuation(s, lo, hi) == end
    decreases hi
  {
    if hi > end { TrimmedTo(s, lo, end, hi - 1); }
  }

  lemma BareEnds(rest: string, v: nat, end: nat, e: nat)
    requires v <= end <= e <= |rest| && NoWhitespace(rest[v..end])
    requires end > v ==> !IsPunctuation(rest[end - 1])
    requires forall i | end <= i < e :: IsPunctuation(rest[i])
    requires e == |rest| || IsWhitespace(rest[e])
    ensures FindWhitespace(rest, v) == e
    ensures TrimPunctuation(rest, v, e) == end
  {
    forall i | v <= i < e ensures !IsWhitespace(rest[i]) {
      if i < end { assert rest[v..end][i - v] == rest[i]; } else { PunctuationIsNotSpace(rest[i]); }
    }
    FirstWhitespace(rest, v, e);
    TrimmedTo(rest, v, end, e);
  }

  // ---------------------------------------------------------------------
  // The matcher and the grammar
  // ---------------------------------------------------------------------

  lemma SplitIsDenotes(kind: Kind, value: string, entity: string, capability: Option<string>)
    requires value != ""
    ensures Split(kind, value) == Some((entity, capability)) <==> Denotes(kind, value, entity, capability)
  {
    if (kind.Peer? || kind.Lobe?) && '/' in value {
      var i := FindChar(value, '/', 0);
      assert value[0..] == value;
      assert i.Some?;
      assert value == value[..i.value] + "/" + value[i.value + 1..];
      if Denotes(kind, value, entity, capability) {
        FirstChar(value, '/', 0, |entity|);
        assert value[0..|entity|] == entity;
        assert value[..|entity|] == entity;
        if capability.Some? { assert value[|entity| + 1..] == capability.value; }
      }
    } else {
      assert value[0..] == value;
    }
  }

  lemma ValueIs(rest: string, v: nat, value: string, end: nat)
    requires v <= |rest|
    ensures ValueAt(rest, v) == Some((value, end)) <==> Quoted(rest, v, end, value) || Bare(rest, v, end, value)
  {
    if Quoted(rest, v, end, value) {
      FirstChar(rest, '"', v + 1, end - 1);
    }
    if Bare(rest, v, end, value) {
      var e: nat :| WordEnds(rest, end, e);
      BareEnds(rest, v, end, e);
    }
    if ValueAt(rest, v) == Some((value, end)) && !(v < |rest| && rest[v] == '"') {
      var e := FindWhitespace(rest, v);
      assert WordEnds(rest, end, e);
      assert forall i | 0 <= i < |value| :: value[i] == rest[v..e][i];
    }
  }

  lemma GrammarMatches(rest: string, t: Token)
    requires rest != "" && rest[0] == '@' && IsToken(rest, t)
    ensures MatchRest(rest) == Some(t)
  {
    var head := Head(t.kind);
    var v := |head|;
    assert rest[1..v - 1] == KindName(t.kind) && rest[v - 1] == ':' by {
      assert rest[..v] == head;
      assert rest[..v][1..v - 1] == head[1..v - 1] == KindName(t.kind);
    }
    FirstChar(rest, ':', 1, v - 1);
    var value: string :| TokenValue(rest, t, value);
    ValueIs(rest, v, value, t.len);
    SplitIsDenotes(t.kind, value, t.entity, t.capability);
  }

  lemma MatchesAreGrammar(rest: string, t: Token)
    requires rest != "" && rest[0] == '@' && MatchRest(rest) == Some(t)
    ensures IsToken(rest, t)
  {
    var colon := FindChar(rest, ':', 1).value;
    assert rest[..colon + 1] == "@" + rest[1..colon] + ":";
    assert rest[..colon + 1] == Head(t.kind);
    var value := ValueAt(rest, colon + 1).value.0;
    ValueIs(rest, colon + 1, value, t.len);
    SplitIsDenotes(t.kind, value, t.entity, t.capability);
    assert TokenValue(rest, t, value);
  }

  /** The loop body accepts exactly what the grammar declares. */
  lemma MatcherIsGrammar(rest: string, t: Token)
    requires rest != "" && rest[0] == '@'
    ensures MatchRest(rest) == Some(t) <==> IsToken(rest, t)
  {
    if IsToken(rest, t) { GrammarMatches(rest, t); }
    if MatchRest(rest) == Some(t) { MatchesAreGrammar(rest, t); }
  }

  lemma MatchAtIsMention(text: string, at: nat, m: Mention)
    requires at < |text|
    ensures MatchAt(text, at) == Some(m) <==> IsMention(text, m) && m.start == at
  {
    hide MatchRest, IsToken;
    if text[at] == '@' && m.start <= m.end {
      MatcherIsGrammar(text[at..], Token(m.kind, m.entity, m.capability, m.end - m.start));
    }
  }

  // ---------------------------------------------------------------------
  // Leftmost, non-overlapping, complete
  // ---------------------------------------------------------------------

  ghost predicate Covers(ms: seq<Mention>, m: Mention) {
    exists i :: 0 <= i < |ms| && ms[i].start <= m.start < ms[i].end && (m.start == ms[i].start ==> m == ms[i])
  }

  /** `ms` lists matches from `from` to `n`, in order and disjoint, and every
      match there is either listed or starts inside a listed one. */
  ghost predicate Greedy(match_: Mention -> bool, n: nat, from: nat, ms: seq<Mention>) {
    && (forall i | 0 <= i < |ms| :: match_(ms[i]) && from <= ms[i].start < ms[i].end <= n)
    && (forall i, j | 0 <= i < j < |ms| :: ms[i].end <= ms[j].start)
    && (forall m | match_(m) && m.start >= from :: Covers(ms, m))
  }

  lemma GreedyTail(match_: Mention -> bool, n: nat, from: nat, ms: seq<Mention>)
    requires Greedy(match_, n, from, ms) && ms != []
    ensures Greedy(match_, n, ms[0].end, ms[1..])
  {
    forall m | match_(m) && m.start >= ms[0].end ensures Covers(ms[1..], m) {
      assert Covers(ms, m);
      var i :| 0 <= i < |ms| && ms[i].start <= m.start < ms[i].end && (m.start == ms[i].start ==> m == ms[i]);
      assert ms[1..][i - 1] == ms[i];
    }
  }

  lemma GreedyHeads(match_: Mention -> bool, n: nat, from: nat, ms: seq<Mention>, ns: seq<Mention>)
    requires Greedy(match_, n, from, ms) && Greedy(match_, n, from, ns) && ms != []
    ensures ns != [] && ns[0].start <= ms[0].start
    ensures ns[0].start == ms[0].start ==> ns[0] == ms[0]
  {
    assert Covers(ns, ms[0]);
    var i :| 0 <= i < |ns| && ns[i].start <= ms[0].start < ns[i].end && (ms[0].start == ns[i].start ==> ms[0] == ns[i]);
  }

  /** A list with that property is the only one. */
  lemma {:induction false} GreedyIsUnique(
    match_: Mention -> bool, n: nat, from: nat, ms: seq<Mention>, ns: seq<Mention>)
    requires Greedy(match_, n, from, ms) && Greedy(match_, n, from, ns)
    ensures ms == ns
    decreases |ms|
  {
    if ms != [] {
      GreedyHeads(match_, n, from, ms, ns);
      GreedyHeads(match_, n, from, ns, ms);
      GreedyTail(match_, n, from, ms);
      GreedyTail(match_, n, from, ns);
      GreedyIsUnique(match_, n, ms[0].end, ms[1..], ns[1..]);
      assert ms == [ms[0]] + ms[1..] && ns == [ns[0]] + ns[1..];
    } else if ns != [] {
      GreedyHeads(match_, n, from, ns, ms);
    }
  }

  lemma GreedySkip(match_: Mention -> bool, n: nat, from: nat, next: nat, ms: seq<Mention>)
    requires from <= next && Greedy(match_, n, next, ms)
    requires forall m | match_(m) && m.start >= from :: next <= m.start
    ensures Greedy(match_, n, from, ms)
  {
  }

  lemma ConsOrder(hit: Mention, rest: seq<Mention>, ms: seq<Mention>)
    requires ms == [hit] + rest && hit.start < hit.end
    requires forall i | 0 <= i < |rest| :: hit.end <= rest[i].start
    requires forall i, j | 0 <= i < j < |rest| :: rest[i].end <= rest[j].start
    ensures forall i, j | 0 <= i < j < |ms| :: ms[i].end <= ms[j].start
  {
    forall i, j | 0 <= i < j < |ms| ensures ms[i].end <= ms[j].start {
      if i > 0 { assert rest[i - 1].end <= rest[j - 1].start; }
    }
  }

  lemma GreedyCons(match_: Mention -> bool, n: nat, from: nat, hit: Mention, rest: seq<Mention>, ms: seq<Mention>)
    requires ms == [hit] + rest && match_(hit) && from <= hit.start < hit.end <= n
    requires forall m | match_(m) && m.start >= from :: hit.start <= m.start && (m.start == hit.start ==> hit == m)
    requires Greedy(match_, n, hit.end, rest)
    ensures Greedy(match_, n, from, ms)
  {
    forall m | match_(m) && m.start >= from ensures Covers(ms, m) {
      if m.start >= hit.end {
        assert Covers(rest, m);
        var i :| && 0 <= i < |rest| && rest[i].start <= m.start < rest[i].end
                 && (m.start == rest[i].start ==> m == rest[i]);
        assert ms[i + 1] == rest[i];
      } else {
        assert ms[0] == hit;
      }
    }
    ConsOrder(hit, rest, ms);
    forall i | 0 <= i < |ms| ensures match_(ms[i]) && from <= ms[i].start < ms[i].end <= n {
      if i > 0 { assert ms[i] == rest[i - 1]; }
    }
  }

  /** The mentions of `text` from `from` on, leftmost first. */
  ghost predicate Leftmost(text: string, from: nat, ms: seq<Mention>) {
    Greedy(m => IsMention(text, m), |text|, from, ms)
  }

  lemma {:induction false} FindsNoLater(s: string, c: char, from: nat, k: nat)
    requires from <= k < |s| && s[k] == c
    ensures FindChar(s, c, from).Some? && FindChar(s, c, from).value <= k
    decreases k - from
  {
    if from < k { FindsNoLater(s, c, from + 1, k); }
  }

  lemma {:induction false} ScanIsLeftmost(text: string, idx: nat)
    requires idx <= |text|
    ensures Leftmost(text, idx, Scan(text, idx))
    decreases |text| - idx
  {
    var match_ := m => IsMention(text, m);
    var found := FindChar(text, '@', idx);
    forall m | match_(m) && m.start >= idx ensures found.Some? && found.value <= m.start {
      FindsNoLater(text, '@', idx, m.start);
    }
    if found.Some? {
      var at := found.value;
      var hit := MatchAt(text, at);
      var next := if hit.None? then at + 1 else hit.value.end;
      ScanIsLeftmost(text, next);
      forall m | match_(m) && m.start >= idx ensures at <= m.start && (m.start == at ==> hit == Some(m)) {
        MatchAtIsMention(text, at, m);
      }
      if hit.Some? {
        MatchAtIsMention(text, at, hit.value);
        GreedyCons(match_, |text|, idx, hit.value, Scan(text, next), Scan(text, idx));
      } else {
        GreedySkip(match_, |text|, idx, next, Scan(text, next));
      }
    }
  }

  /** The parser's result is exactly the leftmost non-overlapping matches. */
  lemma ParseIsExact(text: string, ms: seq<Mention>)
    ensures Leftmost(text, 0, ms) <==> ms == Parse(text)
  {
    ScanIsLeftmost(text, 0);
    if Leftmost(text, 0, ms) {
      GreedyIsUnique(m => IsMention(text, m), |text|, 0, ms, Parse(text));
    }
  }
}
