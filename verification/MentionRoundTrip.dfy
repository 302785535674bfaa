/** Printing inverts parsing, and stripping keeps exactly the rest of the text. */
module MentionRoundTrip {
  import opened Options
  import opened Text
  import opened Mentions
  import opened MentionGrammar

  // ---------------------------------------------------------------------
  // Parsing a suffix in place
  // ---------------------------------------------------------------------

  function Shift(m: Mention, n: nat): Mention {
    m.(start := m.start + n, end := m.end + n)
  }

  function ShiftAll(ms: seq<Mention>, n: nat): seq<Mention> {
    if ms == [] then [] else [Shift(ms[0], n)] + ShiftAll(ms[1..], n)
  }

  lemma {:induction false} FindCharShift(after: string, c: char, k: nat, t: string, n: nat)
    requires k <= |after| && |t| == n + |after|
    requires forall i | 0 <= i < |after| :: t[n + i] == after[i]
    ensures FindChar(t, c, n + k)
         == if FindChar(after, c, k).None? then None else Some(n + FindChar(after, c, k).value)
    decreases |after| - k
  {
    if k < |after| && after[k] != c { FindCharShift(after, c, k + 1, t, n); }
  }

  lemma MatchAtShift(after: string, k: nat, t: string, n: nat)
    requires k < |after| && (k > 0 || after[0] != '@') && |t| == n + |after|
    requires forall i | 0 <= i < |after| :: t[n + i] == after[i]
    ensures MatchAt(t, n + k)
         == if MatchAt(after, k).None? then None else Some(Shift(MatchAt(after, k).value, n))
  {
    hide MatchRest;
    assert t[n + k..] == after[k..];
    assert k > 0 ==> t[n + k - 1] == after[k - 1];
  }

  lemma ScanNone(text: string, idx: nat)
    requires idx <= |text| && FindChar(text, '@', idx).None?
    ensures Scan(text, idx) == []
  {
  }

  lemma ScanMiss(text: string, idx: nat, at: nat)
    requires idx <= |text| && FindChar(text, '@', idx) == Some(at) && MatchAt(text, at).None?
    ensures Scan(text, idx) == Scan(text, at + 1)
  {
  }

  lemma ScanHit(text: string, idx: nat, at: nat, m: Mention)
    requires idx <= |text| && FindChar(text, '@', idx) == Some(at) && MatchAt(text, at) == Some(m)
    ensures Scan(text, idx) == [m] + Scan(text, m.end)
  {
  }

  /** A suffix that does not open with `@` parses the same behind any text. */
  lemma {:induction false} ScanShift(after: string, k: nat, t: string, n: nat)
    requires k <= |after| && (after == "" || after[0] != '@') && |t| == n + |after|
    requires forall i | 0 <= i < |after| :: t[n + i] == after[i]
    ensures Scan(t, n + k) == ShiftAll(Scan(after, k), n)
    decreases |after| - k
  {
    hide MatchAt, Scan;
    FindCharShift(after, '@', k, t, n);
    var found := FindChar(after, '@', k);
    if found.Some? {
      var at := found.value;
      MatchAtShift(after, at, t, n);
      if MatchAt(after, at).None? {
        ScanShift(after, at + 1, t, n);
        ScanMiss(t, n + k, n + at);
        ScanMiss(after, k, at);
      } else {
        var m := MatchAt(after, at).value;
        ScanShift(after, m.end, t, n);
        ScanHit(t, n + k, n + at, Shift(m, n));
        ScanHit(after, k, at, m);
        ShiftCons(m, Scan(after, m.end), Scan(t, n + m.end), n);
      }
    } else {
      ScanNone(t, n + k);
      ScanNone(after, k);
    }
  }

  lemma ShiftCons(m: Mention, ra: seq<Mention>, rt: seq<Mention>, n: nat)
    requires rt == ShiftAll(ra, n)
    ensures [Shift(m, n)] + rt == ShiftAll([m] + ra, n)
  {
    assert ([m] + ra)[1..] == ra;
  }

  // ---------------------------------------------------------------------
  // Round trip
  // ---------------------------------------------------------------------

  /** The value can be spelled: quotes are only needed around a value that holds
      none itself. */
  predicate Spellable(value: string) {
    NeedsQuotes(value) ==> '"' !in value
  }

  /** What the parser promises about the value a mention prints. */
  lemma PrintedValue(text: string, m: Mention)
    requires IsMention(text, m)
    ensures ValueOf(m) != ""
    ensures Denotes(m.kind, ValueOf(m), m.entity, m.capability)
    ensures ValueOf(m)[0] == '"' ==> '"' !in ValueOf(m)
  {
    var rest := text[m.start..];
    var t := Token(m.kind, m.entity, m.capability, m.end - m.start);
    var value: string :| TokenValue(rest, t, value);
    var v := |Head(m.kind)|;
    if Bare(rest, v, t.len, value) { assert value[0] == rest[v]; }
    assert value == ValueOf(m) || value == ValueOf(m) + "/";
    if value == ValueOf(m) + "/" && '"' in ValueOf(m) { assert '"' in value; }
  }

  lemma PrintedQuoted(kind: Kind, value: string, after: string, token: string, rest: string)
    requires NeedsQuotes(value) && '"' !in value
    requires token == Head(kind) + "\"" + value + "\"" && rest == token + after
    ensures Quoted(rest, |Head(kind)|, |token|, value)
  {
    assert rest[|Head(kind)| + 1..|token| - 1] == value;
  }

  lemma PrintedBare(kind: Kind, value: string, after: string, token: string, rest: string)
    requires !NeedsQuotes(value) && value[0] != '"' && (after == "" || IsWhitespace(after[0]))
    requires token == Head(kind) + value && rest == token + after
    ensures Bare(rest, |Head(kind)|, |token|, value)
  {
    assert rest[|Head(kind)|..|token|] == value;
    assert WordEnds(rest, |token|, |token|);
  }

  lemma PrintedToken(
    kind: Kind, entity: string, capability: Option<string>, value: string, after: string, token: string)
    requires value != "" && Denotes(kind, value, entity, capability) && Spellable(value)
    requires value[0] == '"' ==> '"' !in value
    requires after == "" || IsWhitespace(after[0])
    requires token == Head(kind) + QuoteIfNeeded(value)
    ensures IsToken(token + after, Token(kind, entity, capability, |token|))
  {
    hide KindName, Denotes, Quoted, Bare, NeedsQuotes;
    var rest := token + after;
    if NeedsQuotes(value) {
      assert token == Head(kind) + "\"" + value + "\"";
      PrintedQuoted(kind, value, after, token, rest);
    } else {
      assert value[0] in value;
      PrintedBare(kind, value, after, token, rest);
    }
    assert TokenValue(rest, Token(kind, entity, capability, |token|), value);
  }

  /** Text a token may be dropped into without changing its reading. */
  predicate Around(before: string, after: string) {
    && (before == "" || ('@' !in before && IsWhitespace(before[|before| - 1])))
    && (after == "" || IsWhitespace(after[0]))
  }

  lemma TokenOpens(m: Mention)
    ensures ToToken(m) != "" && ToToken(m)[0] == '@'
  {
    assert Head(m.kind)[0] == '@';
  }

  lemma PrintedMention(text: string, m: Mention, before: string, after: string, t: string, m': Mention)
    requires IsMention(text, m) && Spellable(ValueOf(m)) && Around(before, after)
    requires t == before + (ToToken(m) + after)
    requires m' == m.(start := |before|, end := |before| + |ToToken(m)|)
    ensures IsMention(t, m')
  {
    hide IsToken, Denotes, KindName, ValueOf, NeedsQuotes;
    assert ToToken(m) + after != "" && (ToToken(m) + after)[0] == '@' by { TokenOpens(m); }
    PrintedValue(text, m);
    PrintedToken(m.kind, m.entity, m.capability, ValueOf(m), after, ToToken(m));
    assert t[|before|..] == ToToken(m) + after;
    assert t[|before|] == '@';
  }

  /** For every mention the parser returns whose value can be spelled: its token,
      alone or in any surrounding text, parses back to exactly that mention,
      spanning exactly the token, and the text after it parses as on its own. */
  lemma RoundTrip(text: string, m: Mention, before: string, after: string, t: string, m': Mention)
    requires m in Parse(text) && Spellable(ValueOf(m)) && Around(before, after)
    requires t == before + ToToken(m) + after
    requires m' == m.(start := |before|, end := |before| + |ToToken(m)|)
    ensures Parse(t) == [m'] + ShiftAll(Parse(after), m'.end)
  {
    hide IsMention, ToToken, ValueOf, Scan, ShiftAll;
    ParsedIsMention(text, m);
    assert t == before + (ToToken(m) + after);
    PrintedMention(text, m, before, after, t, m');
    ScanFirst(before, ToToken(m) + after, t, m');
    ScanShift(after, 0, t, m'.end);
  }

  lemma ScanFirst(before: string, rest: string, t: string, m: Mention)
    requires t == before + rest && '@' !in before && m.start == |before| && IsMention(t, m)
    ensures m.end <= |t| && Parse(t) == [m] + Scan(t, m.end)
  {
    MatchAtIsMention(t, |before|, m);
    assert t[0..|before|] == before;
    FirstChar(t, '@', 0, |before|);
    ScanHit(t, 0, |before|, m);
  }

  lemma ParsedIsMention(text: string, m: Mention)
    requires m in Parse(text)
    ensures IsMention(text, m)
  {
    ScanIsLeftmost(text, 0);
  }

  /** A value that cannot be spelled never comes back: whatever is read where the
      token stands, it is not that mention. */
  lemma UnspellableIsLost(text: string, m: Mention, before: string, after: string, t: string, m': Mention)
    requires m in Parse(text) && !Spellable(ValueOf(m)) && Around(before, after)
    requires t == before + ToToken(m) + after
    requires m' in Parse(t) && m'.start == |before|
    ensures !(m'.kind == m.kind && m'.entity == m.entity && m'.capability == m.capability)
  {
    ParsedIsMention(t, m');
    TokenRest(m, before, after, t);
    if m'.kind == m.kind {
      QuotedHoldsNoQuote(t[m'.start..], Token(m'.kind, m'.entity, m'.capability, m'.end - m'.start), m');
    }
  }

  lemma TokenRest(m: Mention, before: string, after: string, t: string)
    requires NeedsQuotes(ValueOf(m)) && t == before + ToToken(m) + after
    ensures Head(m.kind) + "\"" <= t[|before|..]
  {
    hide KindName, ValueOf;
    var rest := t[|before|..];
    assert rest == ToToken(m) + after;
    assert ToToken(m) == Head(m.kind) + "\"" + (ValueOf(m) + "\"");
  }

  lemma QuotedHoldsNoQuote(rest: string, tok: Token, m: Mention)
    requires IsToken(rest, tok) && Head(tok.kind) + "\"" <= rest
    requires tok.kind == m.kind && tok.entity == m.entity && tok.capability == m.capability
    ensures '"' !in ValueOf(m)
  {
    var v := |Head(tok.kind)|;
    assert rest[v] == (Head(tok.kind) + "\"")[v];
    var value: string :| TokenValue(rest, tok, value);
    assert Quoted(rest, v, tok.len, value);
    QuotesComeFromValue(tok.kind, value, m);
  }

  lemma QuotesComeFromValue(kind: Kind, value: string, m: Mention)
    requires '"' !in value && Denotes(kind, value, m.entity, m.capability)
    ensures '"' !in ValueOf(m)
  {
    assert value == ValueOf(m) || value == ValueOf(m) + "/";
  }

  /** Which mentions those are: a peer or a lobe written bare with a trailing `/`,
      which the parser drops, after a value that holds a double quote and ends in
      sentence punctuation. */
  lemma UnspellableIsDroppedSlash(text: string, m: Mention, value: string)
    requires m in Parse(text) && value == ValueOf(m)
    ensures m.start <= m.end <= |text| && value != ""
    ensures !Spellable(value) <==>
      && text[m.start..m.end] == Head(m.kind) + value + "/"
      && '"' in value && IsPunctuation(value[|value| - 1])
    ensures !Spellable(value) ==> m.kind in {Peer, Lobe} && m.capability == None
  {
    hide KindName, ValueOf, Spellable, Scan;
    var written := WrittenValue(text, m);
    var rest := text[m.start..];
    var t := Token(m.kind, m.entity, m.capability, m.end - m.start);
    assert text[m.start..m.end] == rest[..t.len];
    if !Spellable(value) {
      UnspellableToken(rest, t, m, written, value);
    } else {
      SpellableIf(value);
    }
  }

  lemma SpellableIf(value: string)
    requires Spellable(value) && value != ""
    ensures !('"' in value && IsPunctuation(value[|value| - 1]))
  {
  }

  /** The value between the head of a parsed mention and its end. */
  lemma WrittenValue(text: string, m: Mention) returns (written: string)
    requires m in Parse(text)
    ensures m.start <= m.end <= |text| && Head(m.kind) <= text[m.start..] && ValueOf(m) != ""
    ensures TokenValue(text[m.start..], Token(m.kind, m.entity, m.capability, m.end - m.start), written)
  {
    ParsedIsMention(text, m);
    PrintedValue(text, m);
    var t := Token(m.kind, m.entity, m.capability, m.end - m.start);
    written :| TokenValue(text[m.start..], t, written);
    WrittenEnds(text[m.start..], t, written);
  }

  lemma UnspellableToken(rest: string, t: Token, m: Mention, written: string, value: string)
    requires TokenValue(rest, t, written) && Head(t.kind) <= rest && t.len <= |rest|
    requires (t.kind, t.entity, t.capability) == (m.kind, m.entity, m.capability)
    requires value == ValueOf(m) && value != "" && !Spellable(value)
    ensures rest[..t.len] == Head(m.kind) + value + "/"
    ensures '"' in value && IsPunctuation(value[|value| - 1])
    ensures m.kind in {Peer, Lobe} && m.capability == None
  {
    hide KindName, Denotes, Quoted, Bare, ValueOf, NeedsQuotes;
    assert !Quoted(rest, |Head(t.kind)|, t.len, written) by {
      if Quoted(rest, |Head(t.kind)|, t.len, written) { QuotedSpells(rest, t, m, written); }
    }
    BareWritten(rest, |Head(t.kind)|, t.len, written, Head(t.kind));
    WrittenOrSlash(m, written, value);
    assert Head(m.kind) + (value + "/") == Head(m.kind) + value + "/";
  }

  lemma QuotedSpells(rest: string, t: Token, m: Mention, written: string)
    requires Quoted(rest, |Head(t.kind)|, t.len, written) && Denotes(m.kind, written, m.entity, m.capability)
    ensures Spellable(ValueOf(m))
  {
    QuotesComeFromValue(m.kind, written, m);
  }

  lemma WrittenEnds(rest: string, t: Token, written: string)
    requires TokenValue(rest, t, written)
    ensures t.len <= |rest|
  {
  }

  lemma BareWritten(rest: string, v: nat, end: nat, value: string, head: string)
    requires Bare(rest, v, end, value) && |head| == v && head <= rest
    ensures rest[..end] == head + value && NoWhitespace(value)
    ensures value != "" ==> !IsPunctuation(value[|value| - 1])
  {
    assert rest[..end] == rest[..v] + rest[v..end];
  }

  /** A bare value is what the mention prints, or that and a slash. */
  lemma WrittenOrSlash(m: Mention, written: string, value: string)
    requires Denotes(m.kind, written, m.entity, m.capability) && value == ValueOf(m) && value != "" && !Spellable(value)
    requires NoWhitespace(written) && written != "" && !IsPunctuation(written[|written| - 1])
    ensures written == value + "/" && m.kind in {Peer, Lobe} && m.capability == None
    ensures '"' in value && IsPunctuation(value[|value| - 1])
  {
    assert written == value || written == value + "/";
    if written == value + "/" {
      assert NoWhitespace(value) by {
        forall i | 0 <= i < |value| ensures !IsWhitespace(value[i]) { assert written[i] == value[i]; }
      }
      assert '/' in written;
    }
  }

  /** A bare token alone in a message parses to what it denotes. */
  lemma BareAlone(text: string, kind: Kind, value: string, entity: string, capability: Option<string>)
    requires text == Head(kind) + value && value != "" && !NeedsQuotes(value) && value[0] != '"'
    requires Denotes(kind, value, entity, capability)
    ensures Parse(text) == [Mention(kind, entity, capability, 0, |text|)]
  {
    hide KindName, NeedsQuotes, Denotes;
    var m := Mention(kind, entity, capability, 0, |text|);
    assert IsToken(text, Token(kind, entity, capability, |text|)) by {
      assert value[0] in value;
      PrintedBare(kind, value, "", text, text + "");
      assert text + "" == text;
      assert TokenValue(text, Token(kind, entity, capability, |text|), value);
    }
    assert text[0..] == text && text[0] == '@';
    assert IsMention(text, m);
    hide IsMention, IsToken, Scan;
    assert "" + text == text;
    ScanFirst("", text, text, m);
    ScanNone(text, |text|);
  }

  /** Quotes are put only where a bare value would not be read back: around an empty
      value, one with whitespace, or one that ends in sentence punctuation. */
  lemma QuotesOnlyWhenNeeded(m: Mention, value: string)
    requires value == if m.capability.Some? then m.entity + "/" + m.capability.value else m.entity
    ensures ToToken(m) == "@" + KindName(m.kind) + ":" + value <==>
      value != "" && (forall c | c in value :: !IsWhitespace(c)) && !IsPunctuation(value[|value| - 1])
    ensures ToToken(m) != "@" + KindName(m.kind) + ":" + value ==>
      ToToken(m) == "@" + KindName(m.kind) + ":" + ("\"" + value + "\"")
  {
    hide KindName, IsPunctuation;
    assert (forall c | c in value :: !IsWhitespace(c)) <==> NoWhitespace(value);
    assert ToToken(m) == Head(m.kind) + QuoteIfNeeded(value);
    assert |"\"" + value + "\""| != |value|;
  }

  /** The flat forms of the documentation, */
  lemma FlatForms()
    ensures Parse("@file:a/b.pdf") == [Mention(File, "a/b.pdf", None, 0, 13)]
    ensures Parse("@cap:sum") == [Mention(Cap, "sum", None, 0, 8)]
  {
    hide Parse;
    assert "@file:a/b.pdf" == Head(File) + "a/b.pdf";
    BareAlone("@file:a/b.pdf", File, "a/b.pdf", "a/b.pdf", None);
    assert "@cap:sum" == Head(Cap) + "sum";
    BareAlone("@cap:sum", Cap, "sum", "sum", None);
  }

  /** and those that descend to a capability. */
  lemma DescendingForms()
    ensures Parse("@peer:al/sum") == [Mention(Peer, "al", Some("sum"), 0, 12)]
    ensures Parse("@lobe:me/sum") == [Mention(Lobe, "me", Some("sum"), 0, 12)]
  {
    hide Parse;
    assert "@peer:al/sum" == Head(Peer) + "al/sum" && "al/sum" == "al" + "/" + "sum" && "al/sum"[2] == '/';
    BareAlone("@peer:al/sum", Peer, "al/sum", "al", Some("sum"));
    assert "@lobe:me/sum" == Head(Lobe) + "me/sum" && "me/sum" == "me" + "/" + "sum" && "me/sum"[2] == '/';
    BareAlone("@lobe:me/sum", Lobe, "me/sum", "me", Some("sum"));
  }

  /** It happens: this message holds one mention, of the peer `a"b.`, whose token
      no longer denotes it. */
  lemma UnspellableOccurs(text: string, m: Mention)
    requires text == "@peer:a\"b./" && m == Mention(Peer, "a\"b.", None, 0, 11)
    ensures Parse(text) == [m] && !Spellable(ValueOf(m))
  {
    var value := "a\"b./";
    assert text[6..11] == value && text[..6] == Head(Peer);
    assert text[0..] == text;
    assert WordEnds(text, 11, 11);
    assert Bare(text, 6, 11, value);
    assert value == "a\"b." + "/";
    assert Denotes(Peer, value, "a\"b.", None);
    assert TokenValue(text, Token(Peer, "a\"b.", None, 11), value);
    assert IsMention(text, m);
    MatchAtIsMention(text, 0, m);
    assert FindChar(text, '@', 0) == Some(0);
    ScanHit(text, 0, 0, m);
    ScanNone(text, 11);
    assert IsPunctuation('.') && ValueOf(m)[3] == '.' && ValueOf(m)[1] == '"';
  }

  // ---------------------------------------------------------------------
  // Stripping
  // ---------------------------------------------------------------------

  ghost predicate Inside(ms: seq<Mention>, i: nat) {
    exists k :: 0 <= k < |ms| && ms[k].start <= i < ms[k].end
  }

  /** The characters of `text` from `i` on that no span covers. */
  ghost function Outside(text: string, ms: seq<Mention>, i: nat): string
    decreases |text| - i
  {
    if i >= |text| then ""
    else if Inside(ms, i) then Outside(text, ms, i + 1)
    else [text[i]] + Outside(text, ms, i + 1)
  }

  lemma {:induction false} OrderedFromIndex(text: string, ms: seq<Mention>, cursor: nat)
    requires cursor <= |text|
    requires forall i | 0 <= i < |ms| :: cursor <= ms[i].start < ms[i].end <= |text|
    requires forall i, j | 0 <= i < j < |ms| :: ms[i].end <= ms[j].start
    ensures InOrder(text, ms, cursor)
  {
    if ms != [] { OrderedFromIndex(text, ms[1..], ms[0].end); }
  }

  lemma ParseInOrder(text: string)
    ensures InOrder(text, Parse(text), 0)
  {
    ScanIsLeftmost(text, 0);
    OrderedFromIndex(text, Parse(text), 0);
  }

  /** `strip_mentions`: the trimmed text outside every mention. */
  method StripMentions(text: string) returns (r: string)
    ensures r == Trim(Outside(text, Parse(text), 0))
  {
    var ms := ParseMentions(text);
    ParseInOrder(text);
    var out := "";
    var cursor: nat := 0;
    for i := 0 to |ms|
      invariant InOrder(text, ms[i..], cursor)
      invariant out + Gaps(text, ms[i..], cursor) == Gaps(text, ms, 0)
    {
      assert ms[i..][0] == ms[i] && ms[i..][1..] == ms[i + 1..];
      out := out + text[cursor..ms[i].start];
      cursor := ms[i].end;
    }
    out := out + text[cursor..];
    GapsAreOutside(text, ms, 0, ms);
    r := Trim(out);
  }

  /** A stretch no span touches is kept, a span is dropped. */
  lemma {:induction false} KeepStretch(text: string, all: seq<Mention>, lo: nat, hi: nat)
    requires lo <= hi <= |text|
    requires forall i | lo <= i < hi :: !Inside(all, i)
    ensures Outside(text, all, lo) == text[lo..hi] + Outside(text, all, hi)
    decreases hi - lo
  {
    if lo < hi {
      KeepStretch(text, all, lo + 1, hi);
      Regroup(text, lo, hi, Outside(text, all, hi));
    }
  }

  lemma Regroup(text: string, lo: nat, hi: nat, tail: string)
    requires lo < hi <= |text|
    ensures [text[lo]] + (text[lo + 1..hi] + tail) == text[lo..hi] + tail
  {
    assert text[lo..hi] == [text[lo]] + text[lo + 1..hi];
  }

  lemma {:induction false} DropStretch(text: string, all: seq<Mention>, lo: nat, hi: nat)
    requires lo <= hi <= |text|
    requires forall i | lo <= i < hi :: Inside(all, i)
    ensures Outside(text, all, lo) == Outside(text, all, hi)
    decreases hi - lo
  {
    if lo < hi { DropStretch(text, all, lo + 1, hi); }
  }

  lemma {:induction false} LaterSpans(text: string, ms: seq<Mention>, cursor: nat, i: nat)
    requires InOrder(text, ms, cursor) && i < cursor
    ensures !Inside(ms, i)
    decreases |ms|
  {
    if ms != [] {
      LaterSpans(text, ms[1..], ms[0].end, i);
      forall k | 0 <= k < |ms| ensures !(ms[k].start <= i < ms[k].end) {
        if k > 0 { assert ms[k] == ms[1..][k - 1]; }
      }
    }
  }

  lemma {:induction false} GapsAreOutside(text: string, all: seq<Mention>, cursor: nat, ms: seq<Mention>)
    requires InOrder(text, ms, cursor)
    requires forall i: nat | i >= cursor :: Inside(all, i) <==> Inside(ms, i)
    ensures Gaps(text, ms, cursor) == Outside(text, all, cursor)
    decreases |ms|
  {
    if ms == [] {
      KeepStretch(text, all, cursor, |text|);
      assert text[cursor..|text|] == text[cursor..];
    } else {
      var m := ms[0];
      forall i | cursor <= i < m.start ensures !Inside(ms, i) { BeforeFirst(text, ms, cursor, i); }
      KeepStretch(text, all, cursor, m.start);
      forall i | m.start <= i < m.end ensures Inside(ms, i) { }
      DropStretch(text, all, m.start, m.end);
      forall i: nat | i >= m.end ensures Inside(all, i) <==> Inside(ms[1..], i) { PastFirst(ms, i); }
      GapsAreOutside(text, all, m.end, ms[1..]);
    }
  }

  lemma BeforeFirst(text: string, ms: seq<Mention>, cursor: nat, i: nat)
    requires InOrder(text, ms, cursor) && ms != [] && i < ms[0].start
    ensures !Inside(ms, i)
  {
    LaterSpans(text, ms[1..], ms[0].end, i);
    forall k | 0 <= k < |ms| ensures !(ms[k].start <= i < ms[k].end) {
      if k > 0 { assert ms[k] == ms[1..][k - 1]; }
    }
  }

  lemma PastFirst(ms: seq<Mention>, i: nat)
    requires ms != [] && i >= ms[0].end
    ensures Inside(ms, i) <==> Inside(ms[1..], i)
  {
    if Inside(ms, i) {
      var k :| 0 <= k < |ms| && ms[k].start <= i < ms[k].end;
      assert ms[1..][k - 1] == ms[k];
    }
    if Inside(ms[1..], i) {
      var k :| 0 <= k < |ms[1..]| && ms[1..][k].start <= i < ms[1..][k].end;
      assert ms[k + 1] == ms[1..][k];
    }
  }
}
