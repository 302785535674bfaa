/** Normalising a blob path, and the provisional path of a capability's output
    (`sanitize_blob_path`, `derive_output_path`, crates/core/src/blob.rs). */
module BlobPath {
  import opened Options
  import opened Text

  const MAX_BLOB_PATH_LEN: nat := 255

  /** Backslashes folded to `/`, control characters dropped. */
  function Clean(raw: string): (r: string)
    ensures forall i | 0 <= i < |r| :: r[i] != '\\' && !IsControl(r[i])
  {
    if raw == "" then ""
    else
      var c := if raw[0] == '\\' then '/' else raw[0];
      if IsControl(c) then Clean(raw[1..]) else [c] + Clean(raw[1..])
  }

  /** `str::split('/')`: always at least one piece. */
  function Split(s: string): (r: seq<string>)
    ensures r != []
    ensures forall i | 0 <= i < |r| :: '/' !in r[i]
  {
    if s == "" then [""]
    else
      var rest := Split(s[1..]);
      if s[0] == '/' then [""] + rest else [[s[0]] + rest[0]] + rest[1..]
  }

  predicate IsDot(seg: string) { seg == "." || seg == ".." }

  /** What the segment loop keeps: trimmed, not empty, not a dot segment. */
  function Kept(segs: seq<string>): seq<string> {
    if segs == [] then []
    else
      var seg := Trim(segs[0]);
      if seg == "" || IsDot(seg) then Kept(segs[1..]) else [seg] + Kept(segs[1..])
  }

  function Join(segs: seq<string>): string {
    if segs == [] then ""
    else if |segs| == 1 then segs[0]
    else segs[0] + "/" + Join(segs[1..])
  }

  /** Characters of the longest prefix that fits `limit` bytes. */
  function Fitting(s: string, limit: nat): (k: nat)
    ensures k <= |s| && ByteLen(s[..k]) <= limit
    ensures k < |s| ==> ByteLen(s[..k + 1]) > limit
  {
    if ByteLen(s) <= limit then assert s[..|s|] == s; |s|
    else
      var front := s[..|s| - 1];
      var k := Fitting(front, limit);
      assert forall i | 0 <= i <= |front| :: front[..i] == s[..i];
      assert s[..|s|] == s;
      k
  }

  function TrimSlashes(s: string): string {
    if s != "" && s[|s| - 1] == '/' then TrimSlashes(s[..|s| - 1]) else s
  }

  /** The joined path, before the length limit. */
  function Joined(raw: string): string {
    Join(Kept(Split(Clean(raw))))
  }

  /** The path cut to the limit and tidied at its end. */
  function Truncated(out: string): string {
    Trim(TrimSlashes(out[..Fitting(out, MAX_BLOB_PATH_LEN)]))
  }

  function Sanitize(raw: string): Option<string> {
    if Kept(Split(Clean(raw))) == [] then None
    else
      var out := Joined(raw);
      if ByteLen(out) <= MAX_BLOB_PATH_LEN then Some(out)
      else if Truncated(out) == "" then None
      else Some(Truncated(out))
  }

  /** `is_char_boundary` at a byte offset. */
  predicate IsBoundary(s: string, b: nat) {
    exists k: nat | k <= |s| :: ByteLen(s[..k]) == b
  }

  /** The source's loops: over the segments, then back from byte 255 to a
      character boundary. */
  method SanitizeBlobPath(raw: string) returns (r: Option<string>)
    ensures r == Sanitize(raw)
  {
    var parts := Split(Clean(raw));
    var segments: seq<string> := [];
    for i := 0 to |parts|
      invariant segments + Kept(parts[i..]) == Kept(parts)
    {
      assert parts[i..][0] == parts[i] && parts[i..][1..] == parts[i + 1..];
      var seg := Trim(parts[i]);
      if seg == "" || seg == "." || seg == ".." { continue; }
      segments := segments + [seg];
    }
    assert segments == Kept(parts);
    if segments == [] { return None; }
    var out := Join(segments);
    if ByteLen(out) > MAX_BLOB_PATH_LEN {
      var cut: nat := MAX_BLOB_PATH_LEN;
      while cut > 0 && !IsBoundary(out, cut)
        invariant ByteLen(out[..Fitting(out, MAX_BLOB_PATH_LEN)]) <= cut <= MAX_BLOB_PATH_LEN
      {
        assert cut != ByteLen(out[..Fitting(out, MAX_BLOB_PATH_LEN)]);
        cut := cut - 1;
      }
      BoundaryIsFitting(out, cut);
      var trimmed := Trim(TrimSlashes(out[..Fitting(out, cut)]));
      if trimmed == "" { return None; }
      out := trimmed;
    }
    r := Some(out);
  }

  /** Walking back from the limit stops at the longest prefix that fits. */
  lemma BoundaryIsFitting(out: string, cut: nat)
    requires ByteLen(out[..Fitting(out, MAX_BLOB_PATH_LEN)]) <= cut <= MAX_BLOB_PATH_LEN
    requires IsBoundary(out, cut)
    ensures Fitting(out, cut) == Fitting(out, MAX_BLOB_PATH_LEN)
    ensures ByteLen(out[..Fitting(out, cut)]) == cut
  {
    hide Fitting, ByteLen;
    var k: nat :| k <= |out| && ByteLen(out[..k]) == cut;
    var f, g := Fitting(out, MAX_BLOB_PATH_LEN), Fitting(out, cut);
    if k < f { PrefixBytesGrow(out, k, f); }
    if f + 1 < k { PrefixBytesGrow(out, f + 1, k); }
    if k < g { PrefixBytesGrow(out, k, g); }
    if g + 1 < k { PrefixBytesGrow(out, g + 1, k); }
  }

  // ---------------------------------------------------------------- segments

  /** Free of backslashes and control characters. */
  predicate Plain(s: string) {
    forall i | 0 <= i < |s| :: s[i] != '\\' && !IsControl(s[i])
  }

  /** A segment a path may hold: plain, not empty, without separator, with no
      whitespace at either end. */
  predicate Good(seg: string) {
    && seg != "" && Plain(seg) && '/' !in seg
    && !IsWhitespace(seg[0]) && !IsWhitespace(seg[|seg| - 1])
  }

  predicate AllGood(segs: seq<string>) {
    forall i | 0 <= i < |segs| :: Good(segs[i])
  }

  predicate NoDots(segs: seq<string>) {
    forall i | 0 <= i < |segs| :: !IsDot(segs[i])
  }

  lemma TrimIs(s: string)
    requires Plain(s) && '/' !in s && Trim(s) != ""
    ensures Good(Trim(s))
  {
    TrimStartIs(s);
    TrimEndIs(TrimStart(s));
  }

  lemma TrimKeeps(s: string)
    requires s != "" ==> !IsWhitespace(s[0]) && !IsWhitespace(s[|s| - 1])
    ensures Trim(s) == s
  {
  }

  lemma {:induction false} KeptIsGood(segs: seq<string>)
    requires forall i | 0 <= i < |segs| :: Plain(segs[i]) && '/' !in segs[i]
    ensures AllGood(Kept(segs)) && NoDots(Kept(segs))
  {
    hide Trim, Good;
    if segs != [] {
      KeptIsGood(segs[1..]);
      if Trim(segs[0]) != "" { TrimIs(segs[0]); }
    }
  }

  lemma {:induction false} KeptKeeps(segs: seq<string>)
    requires AllGood(segs) && NoDots(segs)
    ensures Kept(segs) == segs
  {
    if segs != [] {
      TrimKeeps(segs[0]);
      KeptKeeps(segs[1..]);
    }
  }

  lemma {:induction false} SplitPlain(s: string)
    requires Plain(s)
    ensures forall i | 0 <= i < |Split(s)| :: Plain(Split(s)[i])
  {
    if s != "" { SplitPlain(s[1..]); }
  }

  lemma {:induction false} CleanKeeps(s: string)
    requires Plain(s)
    ensures Clean(s) == s
  {
    if s != "" { CleanKeeps(s[1..]); }
  }

  lemma {:induction false} SplitOne(s: string)
    requires '/' !in s
    ensures Split(s) == [s]
  {
    if s != "" {
      SplitOne(s[1..]);
      assert s == [s[0]] + s[1..];
    }
  }

  lemma {:induction false} SplitFirst(s: string, rest: string)
    requires '/' !in s
    ensures Split(s + "/" + rest) == [s] + Split(rest)
  {
    var whole := s + "/" + rest;
    if s == "" {
      assert whole[1..] == rest;
    } else {
      assert whole[1..] == s[1..] + "/" + rest;
      SplitFirst(s[1..], rest);
      assert s == [s[0]] + s[1..];
    }
  }

  /** Splitting undoes joining. */
  lemma {:induction false} SplitJoin(segs: seq<string>)
    requires segs != [] && forall i | 0 <= i < |segs| :: '/' !in segs[i]
    ensures Split(Join(segs)) == segs
  {
    if |segs| == 1 {
      SplitOne(segs[0]);
    } else {
      SplitFirst(segs[0], Join(segs[1..]));
      SplitJoin(segs[1..]);
    }
  }

  lemma {:induction false} JoinPlain(segs: seq<string>)
    requires AllGood(segs)
    ensures Plain(Join(segs))
  {
    if |segs| > 1 { JoinPlain(segs[1..]); }
  }

  lemma {:induction false} JoinEnds(segs: seq<string>)
    requires segs != [] && AllGood(segs)
    ensures Join(segs) != "" && Join(segs)[0] == segs[0][0]
    ensures LastChar(Join(segs)) == LastChar(segs[|segs| - 1])
  {
    if |segs| > 1 {
      hide Good;
      NonEmpty(segs);
      JoinEnds(segs[1..]);
    } else {
      NonEmpty(segs);
    }
  }

  lemma NonEmpty(segs: seq<string>)
    requires AllGood(segs)
    ensures forall i | 0 <= i < |segs| :: segs[i] != ""
    ensures segs != [] ==> AllGood(segs[1..])
  {
  }

  function LastChar(s: string): Option<char> {
    if s == "" then None else Some(s[|s| - 1])
  }

  /** The pieces the joined path is made of. */
  lemma PiecesAreGood(raw: string)
    ensures AllGood(Kept(Split(Clean(raw)))) && NoDots(Kept(Split(Clean(raw))))
  {
    SplitPlain(Clean(raw));
    KeptIsGood(Split(Clean(raw)));
  }

  /** A path of good segments goes through the segment loop unchanged, but for
      its dot segments. */
  lemma JoinedAgain(segs: seq<string>)
    requires segs != [] && AllGood(segs)
    ensures Kept(Split(Clean(Join(segs)))) == Kept(segs)
  {
    JoinPlain(segs);
    CleanKeeps(Join(segs));
    SplitJoin(segs);
  }

  // -------------------------------------------------------------- truncation

  /** The segments left of the first `k` characters of the joined path. */
  function CutSegs(segs: seq<string>, k: nat): seq<string>
    requires segs != [] && k <= |Join(segs)|
  {
    if |segs| == 1 || k <= |segs[0]| then
      var last := TrimEnd(segs[0][..k]);
      if last == "" then [] else [last]
    else [segs[0]] + CutSegs(segs[1..], k - |segs[0]| - 1)
  }

  lemma CutPiece(seg: string, k: nat)
    requires Good(seg) && 1 <= k <= |seg|
    ensures Good(TrimEnd(seg[..k]))
  {
    var p := seg[..k];
    TrimEndIs(p);
    assert !IsWhitespace(p[0]);
  }

  lemma {:induction false} CutIsGood(segs: seq<string>, k: nat, cut: seq<string>)
    requires segs != [] && AllGood(segs) && NoDots(segs) && 1 <= k <= |Join(segs)|
    requires cut == CutSegs(segs, k)
    ensures cut != [] && AllGood(cut) && NoDots(cut[..|cut| - 1])
    decreases segs
  {
    if |segs| == 1 || k <= |segs[0]| {
      CutPiece(segs[0], k);
    } else {
      var k' := k - |segs[0]| - 1;
      var rest := CutSegs(segs[1..], k');
      if k' >= 1 {
        CutIsGood(segs[1..], k', rest);
        assert cut[..|cut| - 1] == [segs[0]] + rest[..|rest| - 1];
      } else {
        assert segs[1][..0] == "";
        assert rest == [];
      }
    }
  }

  /** Tidying the end of a cut path tidies its last segment. */
  function Tidy(s: string): string { TrimEnd(TrimSlashes(s)) }

  lemma {:induction false} TidyAfter(p: string, s: string)
    requires Tidy(s) != ""
    ensures Tidy(p + s) == p + Tidy(s)
  {
    SlashesAfter(p, s);
    EndAfter(p, TrimSlashes(s));
  }

  lemma {:induction false} SlashesAfter(p: string, s: string)
    requires TrimSlashes(s) != ""
    ensures TrimSlashes(p + s) == p + TrimSlashes(s)
  {
    if s[|s| - 1] == '/' {
      assert (p + s)[..|p + s| - 1] == p + s[..|s| - 1];
      SlashesAfter(p, s[..|s| - 1]);
    }
  }

  lemma {:induction false} EndAfter(p: string, s: string)
    requires TrimEnd(s) != ""
    ensures TrimEnd(p + s) == p + TrimEnd(s)
  {
    if IsWhitespace(s[|s| - 1]) {
      assert (p + s)[..|p + s| - 1] == p + s[..|s| - 1];
      EndAfter(p, s[..|s| - 1]);
    }
  }

  /** Cutting the joined path is cutting its segments. */
  lemma {:induction false} CutIsTidy(segs: seq<string>, k: nat)
    requires segs != [] && AllGood(segs) && NoDots(segs) && 1 <= k <= |Join(segs)|
    ensures Tidy(Join(segs)[..k]) == Join(CutSegs(segs, k))
    decreases segs
  {
    hide Good, Tidy;
    var out := Join(segs);
    if |segs| == 1 || k <= |segs[0]| {
      assert out[..k] == segs[0][..k];
      TidyPiece(segs[0], k);
    } else {
      var head := segs[0] + "/";
      var k' := k - |head|;
      var tail := Join(segs[1..]);
      assert out == head + tail;
      if k' == 0 {
        assert out[..k] == head;
        TidyHead(segs[0]);
        assert segs[1][..0] == "";
        assert CutSegs(segs[1..], 0) == [];
      } else {
        CutIsTidy(segs[1..], k');
        CutIsGood(segs[1..], k', CutSegs(segs[1..], k'));
        JoinEnds(CutSegs(segs[1..], k'));
        assert out[..k] == head + tail[..k'];
        TidyAfter(head, tail[..k']);
      }
    }
  }

  lemma TidyPiece(seg: string, k: nat)
    requires Good(seg) && 1 <= k <= |seg|
    ensures TrimEnd(seg[..k]) != "" && Tidy(seg[..k]) == TrimEnd(seg[..k])
  {
    CutPiece(seg, k);
    var p := seg[..k];
    assert p[|p| - 1] in seg;
  }

  lemma TidyHead(seg: string)
    requires Good(seg)
    ensures Tidy(seg + "/") == seg
  {
    var head := seg + "/";
    assert head[..|head| - 1] == seg;
    assert TrimSlashes(head) == TrimSlashes(seg) == seg;
  }

  lemma {:induction false} FirstFits(s: string)
    requires s != ""
    ensures Fitting(s, MAX_BLOB_PATH_LEN) >= 1
  {
    assert s[..1][..0] == "";
    assert ByteLen(s[..1]) == ByteLen(s[..1][..0]) + Utf8Len(s[0]);
  }

  /** The segments of the result: those of the joined path, cut to the limit. */
  function Limited(segs: seq<string>): seq<string>
    requires segs != []
  {
    CutSegs(segs, Fitting(Join(segs), MAX_BLOB_PATH_LEN))
  }

  lemma TruncatedIs(segs: seq<string>)
    requires segs != [] && AllGood(segs) && NoDots(segs)
    ensures Limited(segs) != [] && AllGood(Limited(segs))
    ensures NoDots(Limited(segs)[..|Limited(segs)| - 1])
    ensures Truncated(Join(segs)) == Join(Limited(segs)) != ""
  {
    var out := Join(segs);
    JoinEnds(segs);
    FirstFits(out);
    var k := Fitting(out, MAX_BLOB_PATH_LEN);
    CutIsGood(segs, k, Limited(segs));
    CutIsTidy(segs, k);
    JoinEnds(Limited(segs));
    CutStart(out[..k]);
  }

  /** A cut path starts with no whitespace, so `trim` works at its end only. */
  lemma CutStart(s: string)
    requires s != "" && !IsWhitespace(s[0]) && s[0] != '/'
    ensures Trim(TrimSlashes(s)) == Tidy(s)
  {
    SlashesIs(s);
  }

  lemma {:induction false} SlashesIs(s: string)
    ensures TrimSlashes(s) <= s
    ensures s != "" && s[0] != '/' ==> TrimSlashes(s) != ""
  {
    if s != "" && s[|s| - 1] == '/' { SlashesIs(s[..|s| - 1]); }
  }

  // ------------------------------------------------------------ what it promises

  /** A result fits the limit and is made of good segments, none of them a dot
      segment if and only if the limit did not fall just behind a `.` or `..`.
      `None` says that no segment was usable: the cut itself never loses everything. */
  lemma SanitizedIsSound(raw: string)
    ensures Sanitize(raw).None? <==> Kept(Split(Clean(raw))) == []
    ensures Sanitize(raw).Some? ==> IsSound(Sanitize(raw).value)
    ensures Sanitize(raw).Some? ==> (NoDots(Split(Sanitize(raw).value)) <==> !CutLeavesDot(raw))
    ensures ByteLen(Joined(raw)) <= MAX_BLOB_PATH_LEN ==> !CutLeavesDot(raw)
  {
    hide Clean, Split, Kept, ByteLen, Truncated, IsSound, AllGood, NoDots;
    var segs := Kept(Split(Clean(raw)));
    PiecesAreGood(raw);
    if segs != [] {
      if ByteLen(Joined(raw)) <= MAX_BLOB_PATH_LEN {
        UncutIsSound(segs);
      } else {
        CutIsSound(raw, segs);
      }
    }
  }

  lemma NoSeparators(segs: seq<string>)
    requires AllGood(segs)
    ensures forall i | 0 <= i < |segs| :: '/' !in segs[i]
  {
  }

  lemma UncutIsSound(segs: seq<string>)
    requires segs != [] && AllGood(segs) && NoDots(segs) && ByteLen(Join(segs)) <= MAX_BLOB_PATH_LEN
    ensures IsSound(Join(segs)) && NoDots(Split(Join(segs)))
  {
    hide ByteLen, Split, Join, Good;
    NoSeparators(segs);
    SplitJoin(segs);
    JoinPlain(segs);
  }

  lemma CutIsSound(raw: string, segs: seq<string>)
    requires segs != [] && AllGood(segs) && NoDots(segs) && segs == Kept(Split(Clean(raw)))
    requires ByteLen(Joined(raw)) > MAX_BLOB_PATH_LEN
    ensures IsSound(Truncated(Join(segs))) && Truncated(Join(segs)) != ""
    ensures NoDots(Split(Truncated(Join(segs)))) <==> !CutLeavesDot(raw)
  {
    hide ByteLen, Split, Clean, Kept, Join, Fitting, CutSegs, Truncated, TrimEnd, Good, IsDot;
    var cut := Limited(segs);
    var out := Join(segs);
    TruncatedIs(segs);
    TruncatedFits(out);
    NoSeparators(cut);
    SplitJoin(cut);
    JoinPlain(cut);
    JoinEnds(segs);
    FirstFits(out);
    LastPieceOfCut(segs, Fitting(out, MAX_BLOB_PATH_LEN), cut);
    DotsAreLast(cut);
  }

  lemma DotsAreLast(segs: seq<string>)
    requires segs != [] && NoDots(segs[..|segs| - 1])
    ensures NoDots(segs) <==> !IsDot(segs[|segs| - 1])
  {
    if !IsDot(segs[|segs| - 1]) {
      forall i | 0 <= i < |segs| ensures !IsDot(segs[i]) {
        if i < |segs| - 1 { assert segs[..|segs| - 1][i] == segs[i]; }
      }
    }
  }

  /** At most 255 bytes, plain, no empty or untrimmed segment, and no dot
      segment before the last. */
  predicate IsSound(path: string) {
    && ByteLen(path) <= MAX_BLOB_PATH_LEN
    && Plain(path)
    && AllGood(Split(path))
    && NoDots(Split(path)[..|Split(path)| - 1])
  }

  lemma TruncatedFits(out: string)
    ensures ByteLen(Truncated(out)) <= MAX_BLOB_PATH_LEN
  {
    var p := out[..Fitting(out, MAX_BLOB_PATH_LEN)];
    var q := TrimSlashes(p);
    SlashesIs(p);
    PrefixFits(p, q);
    TrimStartIs(q);
    SuffixFits(q, |q| - |TrimStart(q)|);
    TrimEndIs(TrimStart(q));
    PrefixFits(TrimStart(q), Trim(q));
  }

  lemma PrefixFits(s: string, p: string)
    requires p <= s
    ensures ByteLen(p) <= ByteLen(s)
  {
    assert s[..|s|] == s && s[..|p|] == p;
    if |p| < |s| { PrefixBytesGrow(s, |p|, |s|); }
  }

  lemma {:induction false} SuffixFits(s: string, i: nat)
    requires i <= |s|
    ensures ByteLen(s[i..]) <= ByteLen(s)
  {
    if i < |s| {
      SuffixFits(s[..|s| - 1], i);
      assert s[i..][..|s[i..]| - 1] == s[..|s| - 1][i..];
    }
  }

  /** Sanitising a result again changes nothing, unless the cut left a dot
      segment at the end: exactly when that segment is absent. */
  lemma SanitizeAgain(raw: string)
    requires Sanitize(raw).Some?
    ensures Sanitize(Sanitize(raw).value) == Sanitize(raw) <==> !CutLeavesDot(raw)
    ensures ByteLen(Joined(raw)) <= MAX_BLOB_PATH_LEN ==> Sanitize(Sanitize(raw).value) == Sanitize(raw)
  {
    hide Clean, Split, Kept, ByteLen, Fitting, CutSegs, Truncated, Good, TrimEnd;
    var segs := Kept(Split(Clean(raw)));
    PiecesAreGood(raw);
    if ByteLen(Joined(raw)) <= MAX_BLOB_PATH_LEN {
      FixedPoint(segs);
    } else {
      var cut := Limited(segs);
      TruncatedIs(segs);
      TruncatedFits(Join(segs));
      JoinEnds(segs);
      FirstFits(Join(segs));
      LastPieceOfCut(segs, Fitting(Join(segs), MAX_BLOB_PATH_LEN), cut);
      FixedPointIff(cut);
    }
  }

  /** The text after the last separator. */
  function LastPiece(s: string): string {
    Split(s)[|Split(s)| - 1]
  }

  /** The limit falls just behind a `.` or `..` that opens a longer segment
      (whitespace between them aside). */
  predicate CutLeavesDot(raw: string) {
    var out := Joined(raw);
    && ByteLen(out) > MAX_BLOB_PATH_LEN
    && IsDot(TrimEnd(LastPiece(out[..Fitting(out, MAX_BLOB_PATH_LEN)])))
  }

  lemma FixedPoint(segs: seq<string>)
    requires segs != [] && AllGood(segs) && NoDots(segs) && ByteLen(Join(segs)) <= MAX_BLOB_PATH_LEN
    ensures Sanitize(Join(segs)) == Some(Join(segs))
  {
    JoinedAgain(segs);
    KeptKeeps(segs);
  }

  lemma FixedPointIff(segs: seq<string>)
    requires segs != [] && AllGood(segs) && ByteLen(Join(segs)) <= MAX_BLOB_PATH_LEN
    requires NoDots(segs[..|segs| - 1])
    ensures Sanitize(Join(segs)) == Some(Join(segs)) <==> !IsDot(segs[|segs| - 1])
  {
    hide Split, Clean, Kept, Join, ByteLen, Fitting, Truncated, AllGood;
    if !IsDot(segs[|segs| - 1]) {
      FixedPoint(segs);
    } else {
      var n := |segs| - 1;
      var front := segs[..n];
      assert segs == front + [segs[n]];
      JoinedAgain(segs);
      assert AllGood(front) by { FrontIsGood(segs, n); }
      KeptDropsDot(front, segs[n]);
      if front != [] {
        JoinSnoc(front, segs[n]);
        PrefixFits(Join(segs), Join(front));
      }
    }
  }

  lemma FrontIsGood(segs: seq<string>, n: nat)
    requires AllGood(segs) && n <= |segs|
    ensures AllGood(segs[..n])
  {
  }

  lemma {:induction false} KeptDropsDot(segs: seq<string>, dot: string)
    requires AllGood(segs) && NoDots(segs) && IsDot(dot)
    ensures Kept(segs + [dot]) == segs
  {
    if segs == [] {
      TrimKeeps(dot);
    } else {
      TrimKeeps(segs[0]);
      assert (segs + [dot])[1..] == segs[1..] + [dot];
      KeptDropsDot(segs[1..], dot);
    }
  }

  lemma {:induction false} JoinSnoc(segs: seq<string>, last: string)
    requires segs != []
    ensures Join(segs + [last]) == Join(segs) + "/" + last
  {
    assert (segs + [last])[1..] == segs[1..] + [last];
    if |segs| > 1 { JoinSnoc(segs[1..], last); }
  }

  lemma {:induction false} LastPieceOfCut(segs: seq<string>, k: nat, cut: seq<string>)
    requires segs != [] && AllGood(segs) && NoDots(segs) && 1 <= k <= |Join(segs)|
    requires cut == CutSegs(segs, k) && cut != []
    ensures IsDot(cut[|cut| - 1]) <==> IsDot(TrimEnd(LastPiece(Join(segs)[..k])))
    decreases segs
  {
    var out := Join(segs);
    if |segs| == 1 || k <= |segs[0]| {
      assert out[..k] == segs[0][..k];
      SplitOne(segs[0][..k]);
    } else {
      var tail := Join(segs[1..]);
      var k' := k - |segs[0]| - 1;
      assert out[..k] == segs[0] + "/" + tail[..k'];
      SplitFirst(segs[0], tail[..k']);
      assert LastPiece(out[..k]) == LastPiece(tail[..k']);
      if k' == 0 {
        assert segs[1][..0] == "" && CutSegs(segs[1..], 0) == [];
        assert cut == [segs[0]];
      } else {
        CutIsGood(segs[1..], k', CutSegs(segs[1..], k'));
        LastPieceOfCut(segs[1..], k', CutSegs(segs[1..], k'));
      }
    }
  }

  function Spaces(n: nat): (r: string)
    ensures |r| == n && forall i | 0 <= i < n :: r[i] == ' '
  {
    seq(n, _ => ' ')
  }

  /** A file name that opens with `..` and a long run of spaces sanitises to
      `..` itself, which a second pass would refuse altogether: the promise that
      dot segments are dropped fails on a cut. */
  lemma CutCanLeaveParent(n: nat)
    requires n >= 253
    ensures Sanitize(".." + Spaces(n) + "x") == Some("..") && !NoDots(Split(".."))
    ensures Sanitize("..").None?
  {
    hide Clean, Split, Kept, Truncated, ByteLen, Fitting;
    var raw := ".." + Spaces(n) + "x";
    assert Kept(Split(Clean(raw))) == [raw] by { OneSegment(raw); }
    assert Truncated(raw) == ".." by { LongDots(n); }
    assert ByteLen(raw) == |raw| by { AsciiBytes(raw); }
    assert Split("..") == [".."] by { SplitOne(".."); }
    assert !NoDots([".."]) by { assert IsDot([".."][0]); }
    assert Kept(Split(Clean(".."))) == [] by {
      JoinedAgain([".."]);
      KeptDropsDot([], "..");
      assert [] + [".."] == [".."];
    }
  }

  lemma OneSegment(seg: string)
    requires Good(seg) && !IsDot(seg)
    ensures Kept(Split(Clean(seg))) == [seg]
  {
    JoinedAgain([seg]);
    KeptKeeps([seg]);
  }

  lemma LongDots(n: nat)
    requires n >= 253
    ensures Truncated(".." + Spaces(n) + "x") == ".."
  {
    hide ByteLen, Fitting;
    var raw := ".." + Spaces(n) + "x";
    var k := Fitting(raw, MAX_BLOB_PATH_LEN);
    AsciiBytes(raw[..k]);
    if k < |raw| { AsciiBytes(raw[..k + 1]); }
    assert raw[..k] == ".." + Spaces(253);
    DropSpaces("..", 253);
  }

  lemma {:induction false} DropSpaces(p: string, n: nat)
    requires p != "" && !IsWhitespace(p[|p| - 1]) && !IsWhitespace(p[0])
    ensures TrimEnd(p + Spaces(n)) == p
  {
    if n == 0 {
      assert p + Spaces(0) == p;
    } else {
      assert (p + Spaces(n))[..|p| + n - 1] == p + Spaces(n - 1);
      DropSpaces(p, n - 1);
    }
  }

  predicate IsAscii(s: string) {
    forall i | 0 <= i < |s| :: s[i] as int < 0x80
  }

  lemma {:induction false} AsciiBytes(s: string)
    requires IsAscii(s)
    ensures ByteLen(s) == |s|
  {
    if s != "" { AsciiBytes(s[..|s| - 1]); }
  }

  // ------------------------------------------------------ provisional output paths

  predicate IsAsciiAlnum(c: char) {
    '0' <= c <= '9' || 'a' <= c <= 'z' || 'A' <= c <= 'Z'
  }

  /** Characters a derived path is made of, separators aside. */
  predicate IsSafe(c: char) {
    IsAsciiAlnum(c) || c == '.' || c == '-' || c == '_'
  }

  predicate AllSafe(s: string) {
    forall i | 0 <= i < |s| :: IsSafe(s[i])
  }

  function Mapped(capability: string): (r: string)
    ensures |r| == |capability| && AllSafe(r)
  {
    seq(|capability|, i requires 0 <= i < |capability| => if IsSafe(capability[i]) then capability[i] else '-')
  }

  function Take(s: string, n: nat): (r: string)
    ensures r <= s && |r| <= n
  {
    if |s| <= n then s else s[..n]
  }

  predicate IsMark(c: char) { c == '.' || c == '-' || c == '_' }

  /** `trim_matches(['.', '-', '_'])`. */
  function TrimMarks(s: string): (r: string)
    ensures |r| <= |s|
    ensures AllSafe(s) ==> AllSafe(r)
    ensures r != "" ==> !IsMark(r[0]) && !IsMark(r[|r| - 1])
    decreases |s|
  {
    if s != "" && IsMark(s[0]) then TrimMarks(s[1..])
    else if s != "" && IsMark(s[|s| - 1]) then TrimMarks(s[..|s| - 1])
    else s
  }

  function CapabilityDir(capability: string): string {
    var cap := TrimMarks(Take(Mapped(capability), 64));
    if cap == "" then "output" else cap
  }

  /** Decimal digits, zero-padded to `width`. */
  function Digits(n: nat, width: nat): (r: string)
    ensures |r| >= width && forall i | 0 <= i < |r| :: '0' <= r[i] <= '9'
    ensures n < 10 ==> |r| <= if width == 0 then 1 else width
    ensures n < 100 ==> |r| <= if width < 2 then 2 else width
    ensures n < 1000 ==> |r| <= if width < 3 then 3 else width
    ensures n < 10000 ==> |r| <= if width < 4 then 4 else width
    decreases n, width
  {
    var d := [('0' as int + n % 10) as char];
    if n < 10 && width <= 1 then d
    else Digits(n / 10, if width == 0 then 0 else width - 1) + d
  }

  /** A calendar date and time as the time library yields it. */
  datatype Civil = Civil(year: int, month: nat, day: nat, hour: nat, minute: nat, second: nat)

  ghost predicate IsCivil(t: Civil) {
    -9999 <= t.year <= 9999 && 1 <= t.month <= 12 && 1 <= t.day <= 31 && t.hour < 24 && t.minute < 60 && t.second < 60
  }

  /** `{:04}` of a signed number: the sign counts towards the width. */
  function Year(y: int): string {
    if y >= 0 then Digits(y, 4) else "-" + Digits(-y, 3)
  }

  function Stamp(t: Option<Civil>): string {
    match t
    case None => "unknown"
    case Some(c) =>
      Year(c.year) + "-" + Digits(c.month, 2) + "-" + Digits(c.day, 2) + "-"
      + Digits(c.hour, 2) + Digits(c.minute, 2) + Digits(c.second, 2)
  }

  /** The text before the first `c`, and after the last one. */
  function Before(s: string, c: char): string {
    if s == "" || s[0] == c then "" else [s[0]] + Before(s[1..], c)
  }

  function AfterLast(s: string, c: char): string {
    if s == "" || s[|s| - 1] == c then "" else AfterLast(s[..|s| - 1], c) + [s[|s| - 1]]
  }

  function Alnum(s: string): (r: string)
    ensures forall i | 0 <= i < |r| :: IsAsciiAlnum(r[i])
  {
    if s == "" then ""
    else if IsAsciiAlnum(s[0]) then [s[0]] + Alnum(s[1..])
    else Alnum(s[1..])
  }

  const KnownExtensions: map<string, string> := map[
    "text/plain" := "txt", "text/markdown" := "md", "text/csv" := "csv", "text/html" := "html",
    "application/json" := "json", "application/pdf" := "pdf", "application/zip" := "zip",
    "image/jpeg" := "jpg", "image/png" := "png", "image/gif" := "gif", "image/webp" := "webp",
    "image/svg+xml" := "svg", "audio/mpeg" := "mp3", "audio/wav" := "wav", "video/mp4" := "mp4"
  ]

  /** Any Unicode lower-casing serves: the result is filtered afterwards. */
  function ExtensionForMime(mime: string, lower: string -> string): string {
    var m := lower(Trim(Before(mime, ';')));
    if m in KnownExtensions then KnownExtensions[m]
    else
      var ext := Take(Alnum(Before(AfterLast(m, '/'), '+')), 8);
      if ext == "" then "bin" else ext
  }

  function DeriveOutputPath(capability: string, mime: string, t: Option<Civil>, lower: string -> string): string {
    CapabilityDir(capability) + "/" + (Stamp(t) + "." + ExtensionForMime(mime, lower))
  }

  lemma ExtensionIs(mime: string, lower: string -> string)
    ensures var e := ExtensionForMime(mime, lower);
      1 <= |e| <= 8 && AllSafe(e)
  {
  }

  lemma DigitsAreSafe(n: nat, width: nat)
    ensures AllSafe(Digits(n, width))
  {
  }

  lemma SafeConcat(a: string, b: string)
    requires AllSafe(a) && AllSafe(b)
    ensures AllSafe(a + b)
  {
  }

  lemma YearIs(y: int)
    requires -9999 <= y <= 9999
    ensures 4 <= |Year(y)| <= 5 && AllSafe(Year(y))
  {
  }

  lemma StampIs(t: Option<Civil>)
    requires t.Some? ==> IsCivil(t.value)
    ensures 7 <= |Stamp(t)| <= 18 && AllSafe(Stamp(t))
  {
    if t.Some? {
      hide Digits, Year, AllSafe;
      var c := t.value;
      YearIs(c.year);
      var date := Year(c.year) + "-" + Digits(c.month, 2) + "-" + Digits(c.day, 2) + "-";
      assert AllSafe("-") by { SafeMark(); }
      DigitsAreSafe(c.month, 2);
      DigitsAreSafe(c.day, 2);
      SafeConcat(Year(c.year), "-");
      SafeConcat(Year(c.year) + "-", Digits(c.month, 2));
      SafeConcat(Year(c.year) + "-" + Digits(c.month, 2), "-");
      SafeConcat(Year(c.year) + "-" + Digits(c.month, 2) + "-", Digits(c.day, 2));
      SafeConcat(Year(c.year) + "-" + Digits(c.month, 2) + "-" + Digits(c.day, 2), "-");
      DigitsAreSafe(c.hour, 2);
      DigitsAreSafe(c.minute, 2);
      DigitsAreSafe(c.second, 2);
      SafeConcat(date, Digits(c.hour, 2));
      SafeConcat(date + Digits(c.hour, 2), Digits(c.minute, 2));
      SafeConcat(date + Digits(c.hour, 2) + Digits(c.minute, 2), Digits(c.second, 2));
    }
  }

  lemma SafeMark()
    ensures AllSafe("-") && AllSafe(".")
  {
  }

  /** Every derived path is already in sanitised form, whatever the capability's
      name, the MIME type and the timestamp. */
  lemma DerivedIsFixedPoint(capability: string, mime: string, t: Option<Civil>, lower: string -> string)
    requires t.Some? ==> IsCivil(t.value)
    ensures var p := DeriveOutputPath(capability, mime, t, lower);
      Sanitize(p) == Some(p) && Split(p) == [CapabilityDir(capability), Stamp(t) + "." + ExtensionForMime(mime, lower)]
  {
    hide Stamp, ExtensionForMime, CapabilityDir, Sanitize, AllSafe, Split;
    var dir, stamp, ext := CapabilityDir(capability), Stamp(t), ExtensionForMime(mime, lower);
    var file := stamp + "." + ext;
    DirIs(capability);
    StampIs(t);
    ExtensionIs(mime, lower);
    SafeMark();
    SafeConcat(stamp, ".");
    SafeConcat(stamp + ".", ext);
    SafeIsGood(dir);
    SafeIsGood(file);
    assert Join([dir, file]) == DeriveOutputPath(capability, mime, t, lower);
    AsciiBytes(dir + "/" + file);
    SplitJoin([dir, file]);
    assert !IsDot(dir);
    FixedPoint([dir, file]);
  }

  lemma DirIs(capability: string)
    ensures var d := CapabilityDir(capability);
      1 <= |d| <= 64 && AllSafe(d) && !IsMark(d[0]) && !IsMark(d[|d| - 1])
  {
  }

  lemma SafeIsGood(seg: string)
    requires seg != "" && AllSafe(seg)
    ensures Good(seg) && IsAscii(seg)
  {
  }

  // ------------------------------------------------- derived paths sort by time

  lemma {:induction false} LexConcat(a: string, b: string, x: string, y: string)
    requires |a| == |b|
    ensures LexLess(a + x, b + y) <==> LexLess(a, b) || (a == b && LexLess(x, y))
  {
    if a == "" {
      assert a + x == x && b + y == y;
    } else {
      assert (a + x)[1..] == a[1..] + x && (b + y)[1..] == b[1..] + y;
      LexConcat(a[1..], b[1..], x, y);
      assert a == [a[0]] + a[1..] && b == [b[0]] + b[1..];
    }
  }

  function Pow10(w: nat): nat { if w == 0 then 1 else 10 * Pow10(w - 1) }

  /** Zero-padded numbers sort as numbers do. */
  lemma {:induction false} DigitsOrder(m: nat, n: nat, w: nat)
    requires w >= 1 && m < Pow10(w) && n < Pow10(w)
    ensures |Digits(m, w)| == |Digits(n, w)| == w
    ensures LexLess(Digits(m, w), Digits(n, w)) <==> m < n
    ensures Digits(m, w) == Digits(n, w) <==> m == n
  {
    var c, d := ('0' as int + m % 10) as char, ('0' as int + n % 10) as char;
    assert LexLess([c], [d]) <==> c < d;
    if w == 1 {
      assert Digits(m, 1) == [c] && Digits(n, 1) == [d];
    } else {
      DigitsOrder(m / 10, n / 10, w - 1);
      var a, b := Digits(m / 10, w - 1), Digits(n / 10, w - 1);
      assert Digits(m, w) == a + [c] && Digits(n, w) == b + [d];
      LexConcat(a, b, [c], [d]);
      assert a + [c] == b + [d] <==> a == b && c == d by { SnocEqual(a, c, b, d); }
    }
  }

  lemma SnocEqual(a: string, c: char, b: string, d: char)
    requires |a| == |b|
    ensures a + [c] == b + [d] <==> a == b && c == d
  {
    assert (a + [c])[..|a|] == a && (b + [d])[..|a|] == b;
    assert (a + [c])[|a|] == c && (b + [d])[|a|] == d;
  }

  lemma LexField(m: nat, n: nat, w: nat, x: string, y: string)
    requires w >= 1 && m < Pow10(w) && n < Pow10(w)
    ensures LexLess(Digits(m, w) + x, Digits(n, w) + y) <==> m < n || (m == n && LexLess(x, y))
  {
    DigitsOrder(m, n, w);
    LexConcat(Digits(m, w), Digits(n, w), x, y);
  }

  lemma LexDash(x: string, y: string)
    ensures LexLess("-" + x, "-" + y) <==> LexLess(x, y)
  {
    LexConcat("-", "-", x, y);
  }

  /** The stamp, nested from the right. */
  function Clock(c: Civil): string {
    Digits(c.hour, 2) + (Digits(c.minute, 2) + (Digits(c.second, 2) + ""))
  }

  function MonthOn(c: Civil): string {
    Digits(c.month, 2) + ("-" + (Digits(c.day, 2) + ("-" + Clock(c))))
  }

  lemma StampNests(c: Civil)
    ensures Stamp(Some(c)) == Year(c.year) + ("-" + MonthOn(c))
  {
    hide Digits, Year;
  }

  /** `a` is an earlier moment than `b`. */
  predicate Earlier(a: Civil, b: Civil) {
    || a.year < b.year
    || (a.year == b.year && (a.month < b.month
    || (a.month == b.month && (a.day < b.day
    || (a.day == b.day && (a.hour < b.hour
    || (a.hour == b.hour && (a.minute < b.minute
    || (a.minute == b.minute && a.second < b.second)))))))))
  }

  /** Within a year, what follows the year sorts in the order of the moments. */
  lemma RestSorts(a: Civil, b: Civil)
    requires IsCivil(a) && IsCivil(b) && a.year == b.year
    ensures LexLess("-" + MonthOn(a), "-" + MonthOn(b)) <==> Earlier(a, b)
  {
    hide Digits, LexLess;
    assert Pow10(2) == 100;
    LexDash(MonthOn(a), MonthOn(b));
    var u, v := Digits(a.day, 2) + ("-" + Clock(a)), Digits(b.day, 2) + ("-" + Clock(b));
    LexField(a.month, b.month, 2, "-" + u, "-" + v);
    LexDash(Digits(a.day, 2) + ("-" + Clock(a)), Digits(b.day, 2) + ("-" + Clock(b)));
    LexField(a.day, b.day, 2, "-" + Clock(a), "-" + Clock(b));
    LexDash(Clock(a), Clock(b));
    var x, y := Digits(a.minute, 2) + (Digits(a.second, 2) + ""), Digits(b.minute, 2) + (Digits(b.second, 2) + "");
    LexField(a.hour, b.hour, 2, x, y);
    LexField(a.minute, b.minute, 2, Digits(a.second, 2) + "", Digits(b.second, 2) + "");
    LexField(a.second, b.second, 2, "", "");
    NothingBelowEmpty();
  }

  /** The sign does not widen a year of four digits. */
  lemma WideDigits(n: nat)
    requires 1000 <= n < 10000
    ensures Digits(n, 3) == Digits(n, 4) == Digits(n / 10, 3) + [('0' as int + n % 10) as char]
  {
    assert Digits(n, 3) == Digits(n / 10, 2) + [('0' as int + n % 10) as char];
    assert Digits(n / 10, 2) == Digits(n / 10 / 10, 1) + [('0' as int + n / 10 % 10) as char];
    assert Digits(n / 10, 3) == Digits(n / 10 / 10, 2) + [('0' as int + n / 10 % 10) as char];
    var h := n / 10 / 10;
    assert Digits(h, 1) == Digits(h / 10, 0) + [('0' as int + h % 10) as char];
    assert Digits(h, 2) == Digits(h / 10, 1) + [('0' as int + h % 10) as char];
  }

  /** Years before zero compare by their digits, and the one with fewer digits
      against the other's first three. */
  lemma NegativeYears(m: nat, n: nat, x: string, y: string)
    requires 1 <= m < 10000 && 1 <= n < 10000
    ensures (m < 1000 <==> n < 1000) ==>
      (LexLess(Digits(m, 3) + ("-" + x), Digits(n, 3) + ("-" + y)) <==> m < n || (m == n && LexLess("-" + x, "-" + y)))
    ensures n < 1000 <= m ==> (LexLess(Digits(m, 3) + ("-" + x), Digits(n, 3) + ("-" + y)) <==> m / 10 < n)
    ensures m < 1000 <= n ==> (LexLess(Digits(m, 3) + ("-" + x), Digits(n, 3) + ("-" + y)) <==> m <= n / 10)
  {
    hide Digits;
    assert Pow10(3) == 1000 && Pow10(4) == 10000;
    if m < 1000 && n < 1000 {
      LexField(m, n, 3, "-" + x, "-" + y);
    } else if 1000 <= m && 1000 <= n {
      WideDigits(m);
      WideDigits(n);
      LexField(m, n, 4, "-" + x, "-" + y);
    } else if 1000 <= m {
      WideDigits(m);
      var d := [('0' as int + m % 10) as char];
      assert Digits(m, 3) + ("-" + x) == Digits(m / 10, 3) + (d + ("-" + x));
      LexField(m / 10, n, 3, d + ("-" + x), "-" + y);
      assert (d + ("-" + x))[0] > '-' && ("-" + y)[0] == '-';
    } else {
      WideDigits(n);
      var d := [('0' as int + n % 10) as char];
      assert Digits(n, 3) + ("-" + y) == Digits(n / 10, 3) + (d + ("-" + y));
      LexField(m, n / 10, 3, "-" + x, d + ("-" + y));
      assert (d + ("-" + y))[0] > '-' && ("-" + x)[0] == '-';
    }
  }

  /** Years whose stamps sort as they should: any two unless both lie before zero;
      then equal ones, and one of four digits whose first three come before the
      other's. */
  predicate YearsSort(a: int, b: int) {
    || a >= 0 || b >= 0 || a == b
    || (a <= -1000 < b && -a / 10 < -b)
    || (b <= -1000 < a && -b / 10 < -a)
  }

  /** Stamps sort in the order of the moments they name exactly for such years. */
  lemma StampsSortByTime(a: Civil, b: Civil)
    requires IsCivil(a) && IsCivil(b)
    ensures (LexLess(Stamp(Some(a)), Stamp(Some(b))) <==> Earlier(a, b)) <==> YearsSort(a.year, b.year)
  {
    hide Digits, LexLess, Stamp, MonthOn, Year;
    StampNests(a);
    StampNests(b);
    if a.year == b.year { RestSorts(a, b); }
    YearsCompare(a.year, b.year, MonthOn(a), MonthOn(b));
  }

  /** How two stamps compare, by their years and what follows. */
  lemma YearsCompare(a: int, b: int, x: string, y: string)
    requires -9999 <= a <= 9999 && -9999 <= b <= 9999
    ensures a == b ==> (LexLess(Year(a) + ("-" + x), Year(b) + ("-" + y)) <==> LexLess("-" + x, "-" + y))
    ensures a != b ==> ((LexLess(Year(a) + ("-" + x), Year(b) + ("-" + y)) <==> a < b) <==> YearsSort(a, b))
  {
    hide Digits, LexLess;
    assert Pow10(4) == 10000;
    if a >= 0 && b >= 0 {
      LexField(a, b, 4, "-" + x, "-" + y);
    } else if a < 0 && b < 0 {
      assert Year(a) + ("-" + x) == "-" + (Digits(-a, 3) + ("-" + x));
      assert Year(b) + ("-" + y) == "-" + (Digits(-b, 3) + ("-" + y));
      LexDash(Digits(-a, 3) + ("-" + x), Digits(-b, 3) + ("-" + y));
      NegativeYears(-a, -b, x, y);
    } else if a < 0 {
      SignFirst(-a, b, "-" + x, "-" + y);
    } else {
      SignFirst(-b, a, "-" + y, "-" + x);
    }
  }

  lemma SignFirst(m: nat, n: nat, x: string, y: string)
    requires m > 0
    ensures LexLess("-" + Digits(m, 3) + x, Digits(n, 4) + y) && !LexLess(Digits(n, 4) + y, "-" + Digits(m, 3) + x)
  {
    var d := Digits(n, 4);
    assert d[0] > '-' && (d + y)[0] == d[0];
  }

  lemma NothingBelowEmpty()
    ensures !LexLess("", "")
  {
  }

  // ------------------------------------------------- what the clean-up makes of a name

  /** One character: backslashes fold, control characters go, the rest stays. */
  lemma CleanOne(c: char)
    ensures Clean([c]) == if c == '\\' then "/" else if IsControl(c) then "" else [c]
  {
    assert [c][1..] == "";
  }

  lemma {:induction false} CleanConcat(a: string, b: string)
    ensures Clean(a + b) == Clean(a) + Clean(b)
  {
    if a == "" {
      assert a + b == b;
    } else {
      assert (a + b)[1..] == a[1..] + b;
      CleanConcat(a[1..], b);
    }
  }

  lemma {:induction false} SplitConcat(a: string, b: string)
    ensures Split(a + "/" + b) == Split(a) + Split(b)
  {
    var whole := a + "/" + b;
    if a == "" {
      assert whole[1..] == b;
    } else {
      assert whole[1..] == a[1..] + "/" + b;
      SplitConcat(a[1..], b);
    }
  }

  lemma {:induction false} KeptConcat(a: seq<string>, b: seq<string>)
    ensures Kept(a + b) == Kept(a) + Kept(b)
  {
    if a == [] {
      assert a + b == b;
    } else {
      assert (a + b)[1..] == a[1..] + b;
      KeptConcat(a[1..], b);
    }
  }

  /** The segments a name sanitises to; its path is their join, cut to the limit. */
  function Segments(raw: string): seq<string> { Kept(Split(Clean(raw))) }

  lemma SegmentsDecide(a: string, b: string)
    requires Segments(a) == Segments(b)
    ensures Sanitize(a) == Sanitize(b)
  {
  }

  /** Around a separator the segments of both sides count separately. */
  lemma SegmentsConcat(a: string, b: string)
    ensures Segments(a + "/" + b) == Segments(a) + Segments(b)
  {
    CleanConcat(a + "/", b);
    CleanConcat(a, "/");
    CleanOne('/');
    SplitConcat(Clean(a), Clean(b));
    KeptConcat(Split(Clean(a)), Split(Clean(b)));
  }

  /** A plain piece without separator is one segment, its ends trimmed, unless that
      leaves nothing or a dot segment. */
  lemma SegmentsOfPiece(piece: string)
    requires Plain(piece) && '/' !in piece
    ensures Segments(piece) == if Trim(piece) == "" || Trim(piece) in {".", ".."} then [] else [Trim(piece)]
  {
    CleanKeeps(piece);
    SplitOne(piece);
    assert [piece][1..] == [] && Kept([]) == [];
    var seg := Trim(piece);
    assert Kept([piece]) == if seg == "" || IsDot(seg) then Kept([]) else [seg] + Kept([]);
    assert IsDot(seg) <==> seg in {".", ".."};
  }

  /** Backslashes count as separators. */
  lemma BackslashesFold(a: string, b: string)
    ensures Sanitize(a + "\\" + b) == Sanitize(a + "/" + b)
  {
    CleanConcat(a + "\\", b);
    CleanConcat(a, "\\");
    CleanConcat(a + "/", b);
    CleanConcat(a, "/");
    CleanOne('\\');
    CleanOne('/');
    SegmentsDecide(a + "\\" + b, a + "/" + b);
  }

  /** Control characters make no difference. */
  lemma ControlsGo(a: string, c: char, b: string)
    requires IsControl(c)
    ensures Sanitize(a + [c] + b) == Sanitize(a + b)
  {
    CleanConcat(a + [c], b);
    CleanConcat(a, [c]);
    CleanConcat(a, b);
    CleanOne(c);
    assert Clean(a) + "" == Clean(a);
    SegmentsDecide(a + [c] + b, a + b);
  }

  /** Dot segments, empty ones and blank ones make no difference either: between
      two separators, in front, or at the end. */
  lemma IdleSegmentsGo(a: string, idle: string, b: string)
    requires Plain(idle) && '/' !in idle && Trim(idle) in {"", ".", ".."}
    ensures Sanitize(a + "/" + idle + "/" + b) == Sanitize(a + "/" + b)
    ensures Sanitize(idle + "/" + b) == Sanitize(b)
    ensures Sanitize(a + "/" + idle) == Sanitize(a)
  {
    SegmentsOfPiece(idle);
    SegmentsConcat(a + "/" + idle, b);
    SegmentsConcat(a, idle);
    SegmentsConcat(a, b);
    SegmentsConcat(idle, b);
    hide Segments, Sanitize;
    assert Segments(a) + [] == Segments(a) && [] + Segments(b) == Segments(b);
    SegmentsDecide(a + "/" + idle + "/" + b, a + "/" + b);
    SegmentsDecide(idle + "/" + b, b);
    SegmentsDecide(a + "/" + idle, a);
  }

  // ------------------------------------------------- extensions and directories

  lemma {:induction false} BeforeIs(s: string, c: char)
    ensures Before(s, c) <= s && c !in Before(s, c)
    ensures c in s ==> |Before(s, c)| < |s| && s[|Before(s, c)|] == c
    ensures c !in s ==> Before(s, c) == s
  {
    if s != "" && s[0] != c {
      BeforeIs(s[1..], c);
      assert s == [s[0]] + s[1..];
    }
  }

  lemma {:induction false} AfterLastIs(s: string, c: char)
    ensures |AfterLast(s, c)| <= |s| && s[|s| - |AfterLast(s, c)|..] == AfterLast(s, c) && c !in AfterLast(s, c)
    ensures c in s ==> |AfterLast(s, c)| < |s| && s[|s| - |AfterLast(s, c)| - 1] == c
    ensures c !in s ==> AfterLast(s, c) == s
  {
    if s != "" && s[|s| - 1] != c {
      AfterLastIs(s[..|s| - 1], c);
      assert s == s[..|s| - 1] + [s[|s| - 1]];
    }
  }

  /** A type of the table has its extension, with or without parameters and blanks
      and in any case. */
  lemma KnownTypes(mime: string, lower: string -> string, known: string)
    requires known in KnownExtensions && lower(Trim(Before(mime, ';'))) == known
    ensures ExtensionForMime(mime, lower) == KnownExtensions[known]
  {
  }

  /** Any other has the first eight letters and digits between its last `/` and the
      next `+`, or `bin` when there are none. */
  lemma OtherTypes(mime: string, m: string, subtype: string, suffix: string, lower: string -> string)
    requires m == lower(Trim(Before(mime, ';'))) && m !in KnownExtensions
    requires '/' !in subtype + suffix && '+' !in subtype && (suffix == "" || suffix[0] == '+')
    requires m == subtype + suffix || exists family: string :: m == family + "/" + (subtype + suffix)
    ensures Alnum(subtype) == "" ==> ExtensionForMime(mime, lower) == "bin"
    ensures 0 < |Alnum(subtype)| <= 8 ==> ExtensionForMime(mime, lower) == Alnum(subtype)
    ensures |Alnum(subtype)| > 8 ==> ExtensionForMime(mime, lower) == Alnum(subtype)[..8]
  {
    var last := subtype + suffix;
    if m == last {
      AfterLastIs(m, '/');
    } else {
      var family: string :| m == family + "/" + last;
      AfterSlash(family, last);
    }
    assert AfterLast(m, '/') == last;
    BeforePlus(subtype, suffix);
  }

  lemma {:induction false} AfterSlash(family: string, last: string)
    requires '/' !in last
    ensures AfterLast(family + "/" + last, '/') == last
  {
    var s := family + "/" + last;
    if last != "" {
      assert s[..|s| - 1] == family + "/" + last[..|last| - 1];
      AfterSlash(family, last[..|last| - 1]);
      assert last == last[..|last| - 1] + [last[|last| - 1]];
    }
  }

  lemma {:induction false} BeforePlus(subtype: string, suffix: string)
    requires '+' !in subtype && (suffix == "" || suffix[0] == '+')
    ensures Before(subtype + suffix, '+') == subtype
  {
    if subtype != "" {
      assert (subtype + suffix)[1..] == subtype[1..] + suffix;
      BeforePlus(subtype[1..], suffix);
    } else {
      assert subtype + suffix == suffix;
    }
  }

  /** The letters and digits of a string, in order. */
  lemma {:induction false} AlnumIs(a: string, b: string)
    ensures Alnum(a + b) == Alnum(a) + Alnum(b)
    ensures forall c: char :: Alnum([c]) == if IsAsciiAlnum(c) then [c] else ""
  {
    assert forall c: char :: [c][1..] == "";
    if a == "" {
      assert a + b == b;
    } else {
      assert (a + b)[1..] == a[1..] + b;
      AlnumIs(a[1..], b);
    }
  }

  /** A subtype with a dash loses it: the extension of `application/x-foo` is
      `xfoo`, although its comment says `x-foo`. */
  lemma DashesGo(lower: string -> string)
    requires lower("application/x-foo") == "application/x-foo"
    ensures ExtensionForMime("application/x-foo", lower) == "xfoo"
  {
    hide ExtensionForMime, Before, AfterLast, Alnum, Trim;
    var m := "application/x-foo";
    BeforeIs(m, ';');
    assert Trim(m) == m by { TrimKeeps(m); }
    assert m == "application" + "/" + ("x-foo" + "");
    DashedAlnum();
    OtherTypes(m, m, "x-foo", "", lower);
  }

  lemma DashedAlnum()
    ensures Alnum("x-foo") == "xfoo"
  {
    assert "x-foo"[1..] == "-foo" && "-foo"[1..] == "foo" && "foo"[1..] == "oo" && "oo"[1..] == "o" && "o"[1..] == "";
  }

  /** A capability whose name is safe already, short and without marks at its ends
      gives its directory that very name. */
  lemma SafeNamesAreKept(capability: string)
    requires capability != "" && |capability| <= 64 && AllSafe(capability)
    requires !IsMark(capability[0]) && !IsMark(capability[|capability| - 1])
    ensures CapabilityDir(capability) == capability
  {
    assert Mapped(capability) == capability;
  }

  /** The directory of any other is its first 64 characters, unsafe ones replaced
      by dashes, without the marks at its ends; `output` when nothing is left. */
  lemma DirectoryIs(capability: string, lead: string, middle: string, trail: string)
    requires Take(Mapped(capability), 64) == lead + middle + trail
    requires (forall c | c in lead + trail :: IsMark(c)) && middle != ""
    requires !IsMark(middle[0]) && !IsMark(middle[|middle| - 1])
    ensures CapabilityDir(capability) == middle
  {
    TrimMarksIs(lead, middle, trail);
  }

  lemma {:induction false} TrimMarksIs(lead: string, middle: string, trail: string)
    requires (forall c | c in lead + trail :: IsMark(c)) && middle != ""
    requires !IsMark(middle[0]) && !IsMark(middle[|middle| - 1])
    ensures TrimMarks(lead + middle + trail) == middle
    decreases |lead| + |trail|
  {
    var s := lead + middle + trail;
    if lead != "" {
      assert lead[0] in lead + trail;
      assert s[1..] == lead[1..] + middle + trail;
      TrimMarksIs(lead[1..], middle, trail);
    } else if trail != "" {
      assert trail[|trail| - 1] in lead + trail;
      assert s[0] == middle[0] && s[|s| - 1] == trail[|trail| - 1];
      assert s[..|s| - 1] == lead + middle + trail[..|trail| - 1];
      TrimMarksIs(lead, middle, trail[..|trail| - 1]);
    } else {
      assert s == middle;
    }
  }

  lemma {:induction false} MarksOnlyGiveOutput(s: string)
    requires forall c | c in s :: IsMark(c)
    ensures TrimMarks(s) == ""
  {
    if s != "" { MarksOnlyGiveOutput(s[1..]); }
  }

  lemma OutputDirectory(capability: string)
    requires forall c | c in Take(Mapped(capability), 64) :: IsMark(c)
    ensures CapabilityDir(capability) == "output"
  {
    MarksOnlyGiveOutput(Take(Mapped(capability), 64));
  }
}
