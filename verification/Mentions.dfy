/** Mentions typed in the composer: parser, printer and stripper
    (crates/node/src/mention.rs). Positions count characters; the source's byte
    offsets are their images under the UTF-8 length of the prefix. */
module Mentions {
  import opened Options
  import opened Text

  datatype Kind = File | Peer | Lobe | Cap

  function KindName(k: Kind): (s: string)
    ensures ':' !in s && 0 < |s| <= 4
  {
    match k
    case File => "file"
    case Peer => "peer"
    case Lobe => "lobe"
    case Cap => "cap"
  }

  function FromPrefix(s: string): (r: Option<Kind>)
    ensures forall k: Kind :: r == Some(k) <==> s == KindName(k)
  {
    if s == "file" then Some(File)
    else if s == "peer" then Some(Peer)
    else if s == "lobe" then Some(Lobe)
    else if s == "cap" then Some(Cap)
    else None
  }

  datatype Mention = Mention(kind: Kind, entity: string, capability: Option<string>, start: nat, end: nat)

  predicate IsPunctuation(c: char) {
    c in {'.', ',', ';', ':', '!', '?', ')', ']', '}', '"', '\''}
  }

  /** End of `s[lo..hi]` after dropping trailing punctuation. */
  function TrimPunctuation(s: string, lo: nat, hi: nat): (e: nat)
    requires lo <= hi <= |s|
    ensures lo <= e <= hi
    ensures e > lo ==> !IsPunctuation(s[e - 1])
    ensures forall i | e <= i < hi :: IsPunctuation(s[i])
    decreases hi
  {
    if hi > lo && IsPunctuation(s[hi - 1]) then TrimPunctuation(s, lo, hi - 1) else hi
  }

  /** What a mention denotes and how many characters it takes. */
  datatype Token = Token(kind: Kind, entity: string, capability: Option<string>, len: nat)

  /** The entity and the capability a value stands for; none when the entity
      would be empty. */
  function Split(kind: Kind, value: string): Option<(string, Option<string>)> {
    match kind
    case File => Some((value, None))
    case Cap => Some((value, None))
    case _ =>
      match FindChar(value, '/', 0)
      case None => Some((value, None))
      case Some(i) =>
        if i == 0 then None
        else Some((value[..i], if i + 1 == |value| then None else Some(value[i + 1..])))
  }

  /** The value that opens `rest` at `v`, and where it stops: a quoted value runs
      to its closing quote, a bare one to the first whitespace less trailing
      punctuation. */
  function ValueAt(rest: string, v: nat): Option<(string, nat)>
    requires v <= |rest|
  {
    if v < |rest| && rest[v] == '"' then
      match FindChar(rest, '"', v + 1)
      case None => None
      case Some(close) => Some((rest[v + 1..close], close + 1))
    else
      var e := TrimPunctuation(rest, v, FindWhitespace(rest, v));
      Some((rest[v..e], e))
  }

  /** The loop body from the `@` at `rest[0]` on. */
  function MatchRest(rest: string): (r: Option<Token>)
    requires rest != ""
    ensures r.Some? ==> 1 <= r.value.len <= |rest|
  {
    match FindChar(rest, ':', 1)
    case None => None
    case Some(colon) =>
      match FromPrefix(rest[1..colon])
      case None => None
      case Some(kind) =>
        match ValueAt(rest, colon + 1)
        case None => None
        case Some((value, end)) =>
          if value == "" then None
          else
            match Split(kind, value)
            case None => None
            case Some((entity, capability)) => Some(Token(kind, entity, capability, end))
  }

  /** The `@` must open a token: start of input, or after whitespace. */
  predicate OpensToken(text: string, at: nat)
    requires at < |text|
  {
    text[at] == '@' && (at == 0 || IsWhitespace(text[at - 1]))
  }

  function MatchAt(text: string, at: nat): (r: Option<Mention>)
    requires at < |text|
    ensures r.Some? ==> r.value.start == at < r.value.end <= |text|
  {
    if !OpensToken(text, at) then None
    else
      match MatchRest(text[at..])
      case None => None
      case Some(t) => Some(Mention(t.kind, t.entity, t.capability, at, at + t.len))
  }

  function Scan(text: string, idx: nat): seq<Mention>
    requires idx <= |text|
    decreases |text| - idx
  {
    match FindChar(text, '@', idx)
    case None => []
    case Some(at) =>
      match MatchAt(text, at)
      case None => Scan(text, at + 1)
      case Some(m) => [m] + Scan(text, m.end)
  }

  function Parse(text: string): seq<Mention> {
    Scan(text, 0)
  }

  /** One turn of the loop, as `Scan` sees it. */
  lemma ScanStep(text: string, idx: nat, at: nat, out: seq<Mention>)
    requires idx <= |text| && FindChar(text, '@', idx) == Some(at)
    ensures MatchAt(text, at).None? ==> Scan(text, idx) == Scan(text, at + 1)
    ensures MatchAt(text, at).Some? ==>
              out + Scan(text, idx) == (out + [MatchAt(text, at).value]) + Scan(text, MatchAt(text, at).value.end)
  {
  }

  method ParseMentions(text: string) returns (out: seq<Mention>)
    ensures out == Parse(text)
  {
    out := [];
    var idx := 0;
    var found := FindChar(text, '@', idx);
    while found.Some?
      invariant 0 <= idx <= |text| && found == FindChar(text, '@', idx)
      invariant out + Scan(text, idx) == Parse(text)
      decreases |text| - idx
    {
      var at := found.value;
      ScanStep(text, idx, at, out);
      var m := MatchAt(text, at);
      if m.None? {
        idx := at + 1;
      } else {
        out := out + [m.value];
        idx := m.value.end;
      }
      found := FindChar(text, '@', idx);
    }
  }

  // ---------------------------------------------------------------------
  // Printing, and the text outside the mentions
  // ---------------------------------------------------------------------

  /** A value that could not be parsed back bare. */
  predicate NeedsQuotes(value: string) {
    value == "" || !NoWhitespace(value) || IsPunctuation(value[|value| - 1])
  }

  function QuoteIfNeeded(value: string): string {
    if NeedsQuotes(value) then "\"" + value + "\"" else value
  }

  function ValueOf(m: Mention): string {
    if m.capability.Some? then m.entity + "/" + m.capability.value else m.entity
  }

  function Head(kind: Kind): string {
    "@" + KindName(kind) + ":"
  }

  function ToToken(m: Mention): string {
    Head(m.kind) + QuoteIfNeeded(ValueOf(m))
  }

  /** Spans in order, disjoint and inside the text, from `cursor` on. */
  predicate InOrder(text: string, ms: seq<Mention>, cursor: nat) {
    if ms == [] then cursor <= |text|
    else cursor <= ms[0].start <= ms[0].end <= |text| && InOrder(text, ms[1..], ms[0].end)
  }

  /** The text before, between and after the listed spans, from `cursor` on. */
  function Gaps(text: string, ms: seq<Mention>, cursor: nat): string
    requires InOrder(text, ms, cursor)
  {
    if ms == [] then text[cursor..]
    else text[cursor..ms[0].start] + Gaps(text, ms[1..], ms[0].end)
  }

  // ---------------------------------------------------------------------
  // The declared grammar
  // ---------------------------------------------------------------------

  /** `value` in quotes from `v` up to `end`. */
  predicate Quoted(rest: string, v: nat, end: nat, value: string) {
    && v + 2 <= end <= |rest|
    && rest[v] == '"' && rest[end - 1] == '"'
    && value == rest[v + 1..end - 1] && '"' !in value
  }

  /** From `end` to the end of the word at `e` there is only punctuation. */
  predicate WordEnds(rest: string, end: nat, e: nat) {
    && end <= e <= |rest|
    && (forall i | end <= i < e :: IsPunctuation(rest[i]))
    && (e == |rest| || IsWhitespace(rest[e]))
  }

  /** `value` bare from `v` up to `end`: no whitespace, no trailing punctuation,
      and nothing but punctuation between it and the next whitespace. */
  ghost predicate Bare(rest: string, v: nat, end: nat, value: string) {
    && v <= end <= |rest|
    && (v == |rest| || rest[v] != '"')
    && value == rest[v..end] && NoWhitespace(value)
    && (value != "" ==> !IsPunctuation(value[|value| - 1]))
    && exists e: nat :: WordEnds(rest, end, e)
  }

  /** A value denotes an entity, and past its first `/` a capability. */
  ghost predicate Denotes(kind: Kind, value: string, entity: string, capability: Option<string>) {
    if kind.File? || kind.Cap? || '/' !in value then entity == value && capability == None
    else
      && entity != "" && '/' !in entity
      && (|| (value == entity + "/" && capability == None)
          || (capability.Some? && capability.value != "" && value == entity + "/" + capability.value))
  }

  ghost predicate TokenValue(rest: string, t: Token, value: string) {
    && value != ""
    && (Quoted(rest, |Head(t.kind)|, t.len, value) || Bare(rest, |Head(t.kind)|, t.len, value))
    && Denotes(t.kind, value, t.entity, t.capability)
  }

  /** `rest` opens with the token `t`: `@kind:value`. */
  ghost predicate IsToken(rest: string, t: Token) {
    && Head(t.kind) <= rest
    && exists value: string :: TokenValue(rest, t, value)
  }

  ghost predicate IsMention(text: string, m: Mention) {
    && m.start < |text| && OpensToken(text, m.start) && m.start <= m.end
    && IsToken(text[m.start..], Token(m.kind, m.entity, m.capability, m.end - m.start))
  }
}
