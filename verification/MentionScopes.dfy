/** The catalogue narrowing a message asks for (`MentionScope::from_text`,
    crates/node/src/mention.rs). */
module MentionScopes {
  import opened Options
  import opened Mentions

  /** The lists of a scope, and what one mention adds to each. */
  datatype List = Peers | Lobes | Capabilities | Files

  function Entity(k: Kind, m: Mention): seq<string> {
    if m.kind == k then [m.entity] else []
  }

  function Picks(l: List, m: Mention): seq<string> {
    match l
    case Peers => Entity(Peer, m)
    case Lobes => Entity(Lobe, m)
    case Files => Entity(File, m)
    case Capabilities => Entity(Cap, m) + if m.capability.Some? then [m.capability.value] else []
  }

  /** All that a list is offered, mention by mention. */
  function Offered(ms: seq<Mention>, l: List): seq<string> {
    if ms == [] then [] else Offered(ms[..|ms| - 1], l) + Picks(l, ms[|ms| - 1])
  }

  lemma OfferedSnoc(ms: seq<Mention>, i: nat, l: List)
    requires i < |ms|
    ensures Offered(ms[..i + 1], l) == Offered(ms[..i], l) + Picks(l, ms[i])
  {
    assert ms[..i + 1][..i] == ms[..i];
  }

  /** First occurrences, in order. */
  function Unique(s: seq<string>): seq<string> {
    if s == [] then []
    else
      var u := Unique(s[..|s| - 1]);
      if s[|s| - 1] in u then u else u + [s[|s| - 1]]
  }

  lemma {:induction false} UniqueIs(s: seq<string>)
    ensures forall x :: x in Unique(s) <==> x in s
    ensures forall i, j | 0 <= i < j < |Unique(s)| :: Unique(s)[i] != Unique(s)[j]
  {
    if s != [] {
      UniqueIs(s[..|s| - 1]);
      assert s == s[..|s| - 1] + [s[|s| - 1]];
    }
  }

  lemma UniqueSnoc(s: seq<string>, x: string)
    ensures Unique(s + [x]) == if x in Unique(s) then Unique(s) else Unique(s) + [x]
  {
    assert (s + [x])[..|s|] == s;
  }

  lemma {:induction false} OfferedIs(ms: seq<Mention>, l: List, x: string)
    ensures x in Offered(ms, l) <==> exists m | m in ms :: x in Picks(l, m)
  {
    if ms != [] {
      OfferedIs(ms[..|ms| - 1], l, x);
      assert ms == ms[..|ms| - 1] + [ms[|ms| - 1]];
    }
  }

  datatype Scope = Scope(peers: seq<string>, lobes: seq<string>, capabilities: seq<string>, files: seq<string>)

  /** `push_unique`, for all a mention adds to one list. */
  method PushUnique(v: seq<string>, items: seq<string>, ghost offered: seq<string>) returns (r: seq<string>)
    requires v == Unique(offered)
    ensures r == Unique(offered + items)
  {
    r := v;
    assert offered + [] == offered;
    for k := 0 to |items|
      invariant r == Unique(offered + items[..k])
    {
      assert offered + items[..k + 1] == (offered + items[..k]) + [items[k]];
      UniqueSnoc(offered + items[..k], items[k]);
      if items[k] !in r { r := r + [items[k]]; }
    }
    assert items[..|items|] == items;
  }

  /** Mentions of one kind union: each list holds what the text mentions, once,
      in order of first mention. */
  method FromText(text: string) returns (scope: Scope)
    ensures scope.peers == Unique(Offered(Parse(text), Peers))
    ensures scope.lobes == Unique(Offered(Parse(text), Lobes))
    ensures scope.files == Unique(Offered(Parse(text), Files))
    ensures scope.capabilities == Unique(Offered(Parse(text), Capabilities))
  {
    hide Unique, Picks;
    var ms := ParseMentions(text);
    NothingOffered();
    var peers, lobes, capabilities, files := [], [], [], [];
    for i := 0 to |ms|
      invariant peers == Unique(Offered(ms[..i], Peers))
      invariant lobes == Unique(Offered(ms[..i], Lobes))
      invariant files == Unique(Offered(ms[..i], Files))
      invariant capabilities == Unique(Offered(ms[..i], Capabilities))
    {
      hide Offered;
      OfferedSnoc(ms, i, Peers);
      OfferedSnoc(ms, i, Lobes);
      OfferedSnoc(ms, i, Files);
      OfferedSnoc(ms, i, Capabilities);
      peers := PushUnique(peers, Picks(Peers, ms[i]), Offered(ms[..i], Peers));
      lobes := PushUnique(lobes, Picks(Lobes, ms[i]), Offered(ms[..i], Lobes));
      files := PushUnique(files, Picks(Files, ms[i]), Offered(ms[..i], Files));
      capabilities := PushUnique(capabilities, Picks(Capabilities, ms[i]), Offered(ms[..i], Capabilities));
    }
    assert ms[..|ms|] == ms;
    scope := Scope(peers, lobes, capabilities, files);
  }

  lemma NothingOffered()
    ensures forall l: List :: Offered([], l) == []
    ensures Unique([]) == []
  {
  }

  /** Peers, lobes and files in scope are the entities of the mentions of that kind. */
  lemma EntitiesInScope(text: string, l: List, k: Kind, x: string)
    requires (l, k) in {(Peers, Peer), (Lobes, Lobe), (Files, File)}
    ensures x in Unique(Offered(Parse(text), l)) <==> exists m | m in Parse(text) :: m.kind == k && m.entity == x
  {
    Holds(Parse(text), l, x);
    hide Parse, Unique, Offered;
    assert forall m: Mention :: x in Picks(l, m) <==> m.kind == k && m.entity == x;
  }

  /** Capabilities in scope are those mentioned by name, or behind a peer or a lobe. */
  lemma CapabilitiesInScope(text: string, x: string)
    ensures x in Unique(Offered(Parse(text), Capabilities)) <==>
      exists m | m in Parse(text) :: (m.kind.Cap? && m.entity == x) || m.capability == Some(x)
  {
    Holds(Parse(text), Capabilities, x);
    hide Parse, Unique, Offered;
    assert forall m: Mention ::
      x in Picks(Capabilities, m) <==> (m.kind.Cap? && m.entity == x) || m.capability == Some(x);
  }

  lemma Holds(ms: seq<Mention>, l: List, x: string)
    ensures x in Unique(Offered(ms, l)) <==> exists m | m in ms :: x in Picks(l, m)
  {
    UniqueIs(Offered(ms, l));
    OfferedIs(ms, l, x);
  }

  lemma NothingTwice(text: string, l: List, i: nat, j: nat)
    requires i < j < |Unique(Offered(Parse(text), l))|
    ensures Unique(Offered(Parse(text), l))[i] != Unique(Offered(Parse(text), l))[j]
  {
    UniqueIs(Offered(Parse(text), l));
  }
}
