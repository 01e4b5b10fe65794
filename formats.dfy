/**
 * `parseProxies`: turns pasted text into proxy profiles. The text is
 * tokenised twice (words and lines), every token is dispatched to one
 * built-in decoder chosen by its scheme or else to every plugin that
 * declares a matching prefix, and the longer result wins, ties going to
 * the line stream. A subscription link anywhere aborts the whole call.
 *
 * Decoders, the plugin registry and the profile type are parameters: a
 * profile is any `P`, a decoder maps a token to `Some(profile)` or to
 * `None` when it throws.
 */
module Formats {
  import opened Optional
  import opened Text
  import opened Json

  /** What `parseProxies` ends with: the profiles, or the link carried by `SubscriptionFoundException`. */
  datatype Outcome<P> = Profiles(profiles: seq<P>) | Redirect(link: string)

  /** What a profile (an `AbstractBean`) offers the parser. */
  datatype ProfileOps<!P> = ProfileOps(
    initializeDefaultValues: P -> P,
    displayName: P -> string,
    equal: (P, P) -> bool)   // `bean == lineBean`, i.e. `equals`

  /** The built-in decoders, in the order `parseLink` tries their schemes. */
  datatype Scheme =
    | Universal      // parseUniversal
    | Socks          // parseSOCKS
    | Http           // parseHttp
    | VMess          // parseV2Ray
    | Trojan         // parseTrojan
    | TrojanGo       // parseTrojanGo
    | Shadowsocks    // parseShadowsocks
    | ShadowsocksR   // parseShadowsocksR
    | Naive          // parseNaive
    | Hysteria       // parseHysteria

  /** A plugin protocol descriptor as `NekoPluginManager.getProtocols()` lists it. */
  datatype Protocol = Protocol(plgId: string, protocolId: string, protocolConfig: map<string, Json>)

  /** The decoders `parseLink` calls; `None` stands for a thrown exception. */
  datatype Decoders<P> = Decoders(
    builtin: (Scheme, string) -> Option<P>,
    shareLink: (string, string, string) -> Option<P>)   // parseShareLink(plgId, protocolId, link)

  // ---------------------------------------------------------------------
  // Recognising a token

  /** A token that makes `parseLink` throw `SubscriptionFoundException`. */
  predicate IsSubscriptionLink(link: string)
  {
    StartsWith(link, "clash://install-config?") || StartsWith(link, "sn://subscription?")
  }

  /** The characters Java's `.` does not match outside DOTALL mode. */
  predicate IsLineTerminator(c: char)
  {
    c == '\n' || c == '\r' || c == '\U{0085}' || c == '\U{2028}' || c == '\U{2029}'
  }

  /** `matches("(http|https)://.*".toRegex())`: the whole token must match. */
  predicate MatchesHttp(link: string)
  {
    && (StartsWith(link, "http://") || StartsWith(link, "https://"))
    && forall i :: 0 <= i < |link| ==> !IsLineTerminator(link[i])
  }

  /** The branch condition of scheme `s` in `parseLink`, taken on its own. */
  predicate Recognises(s: Scheme, link: string)
  {
    match s
    case Universal => StartsWith(link, "sn://")
    case Socks =>
      || StartsWith(link, "socks://") || StartsWith(link, "socks4://")
      || StartsWith(link, "socks4a://") || StartsWith(link, "socks5://")
    case Http => MatchesHttp(link)
    case VMess => StartsWith(link, "vmess://")
    case Trojan => StartsWith(link, "trojan://")
    case TrojanGo => StartsWith(link, "trojan-go://")
    case Shadowsocks => StartsWith(link, "ss://")
    case ShadowsocksR => StartsWith(link, "ssr://")
    case Naive => StartsWith(link, "naive+")
    case Hysteria => StartsWith(link, "hysteria://")
  }

  /** The position of each branch in the `if`/`else if` chain. */
  function Rank(s: Scheme): nat
  {
    match s
    case Universal => 0
    case Socks => 1
    case Http => 2
    case VMess => 3
    case Trojan => 4
    case TrojanGo => 5
    case Shadowsocks => 6
    case ShadowsocksR => 7
    case Naive => 8
    case Hysteria => 9
  }

  /** The schemes in the order the `if`/`else if` chain of `parseLink` tests them. */
  const Chain: seq<Scheme> := [Universal, Socks, Http, VMess, Trojan, TrojanGo, Shadowsocks, ShadowsocksR, Naive, Hysteria]

  /** The first scheme of `chain` whose condition holds for the token. */
  function FirstRecognised(chain: seq<Scheme>, link: string): Option<Scheme>
  {
    if chain == [] then None
    else if Recognises(chain[0], link) then Some(chain[0])
    else FirstRecognised(chain[1..], link)
  }

  /** The built-in decoder the chain selects, or none (and then the plugins are consulted). */
  function BuiltinScheme(link: string): Option<Scheme>
  {
    FirstRecognised(Chain, link)
  }

  lemma {:induction false} FirstRecognisedIsFirst(chain: seq<Scheme>, link: string)
    ensures var r := FirstRecognised(chain, link);
      && (r.Some? ==> exists i :: 0 <= i < |chain| && chain[i] == r.value && Recognises(chain[i], link)
                        && forall j :: 0 <= j < i ==> !Recognises(chain[j], link))
      && (r.None? ==> forall j :: 0 <= j < |chain| ==> !Recognises(chain[j], link))
  {
    if chain != [] && !Recognises(chain[0], link) {
      FirstRecognisedIsFirst(chain[1..], link);
      if FirstRecognised(chain, link).Some? {
        var i :| 0 <= i < |chain[1..]| && chain[1..][i] == FirstRecognised(chain, link).value && Recognises(chain[1..][i], link)
                 && forall j :: 0 <= j < i ==> !Recognises(chain[1..][j], link);
        assert chain[i + 1] == chain[1..][i];
        assert forall j :: 0 < j < i + 1 ==> chain[j] == chain[1..][j - 1];
      }
    }
  }

  /**
   * The chain is a first-match dispatch: the scheme it selects recognises
   * the token and no scheme earlier in the chain does; when it selects
   * none, no scheme recognises the token.
   */
  lemma BuiltinSchemeIsFirstMatch(link: string)
    ensures var r := BuiltinScheme(link);
      && (r.Some? ==> Recognises(r.value, link))
      && (r.Some? ==> forall s :: Rank(s) < Rank(r.value) ==> !Recognises(s, link))
      && (r.None? ==> forall s :: !Recognises(s, link))
  {
    FirstRecognisedIsFirst(Chain, link);
    assert forall i :: 0 <= i < |Chain| ==> Rank(Chain[i]) == i;
    forall s
      ensures Rank(s) < |Chain| && Chain[Rank(s)] == s
    {
    }
    if BuiltinScheme(link).None? {
      forall s
        ensures !Recognises(s, link)
      {
        assert Chain[Rank(s)] == s;
      }
    }
  }

  // ---------------------------------------------------------------------
  // Plugins

  /** `protocolConfig.optJSONArray("links")`; `?.forEach` over a missing array visits nothing. */
  function Links(p: Protocol): seq<Json>
  {
    match OptJsonArray(p.protocolConfig, "links")
    case Some(entries) => entries
    case None => []
  }

  /** `any is String && startsWith(any)`. */
  predicate IsMatchingEntry(entry: Json, link: string)
  {
    entry.JString? && StartsWith(link, entry.s)
  }

  /** The calls one descriptor gets for a token: one per entry of its `links` that claims the token. */
  function EntryCalls(p: Protocol, entries: seq<Json>, link: string): seq<Protocol>
  {
    if entries == [] then []
    else EntryCalls(p, entries[..|entries| - 1], link) + (if IsMatchingEntry(entries[|entries| - 1], link) then [p] else [])
  }

  lemma EntryCallsStep(p: Protocol, entries: seq<Json>, j: nat, link: string)
    requires j < |entries|
    ensures EntryCalls(p, entries[..j + 1], link)
         == EntryCalls(p, entries[..j], link) + (if IsMatchingEntry(entries[j], link) then [p] else [])
  {
    assert entries[..j + 1][..j] == entries[..j];
  }

  /**
   * The plugin decoder calls the nested `forEach` loops make for a token:
   * descriptors in registry order, each once per matching entry.
   */
  function Invocations(registry: seq<Protocol>, link: string): seq<Protocol>
  {
    if registry == [] then []
    else
      var p := registry[|registry| - 1];
      Invocations(registry[..|registry| - 1], link) + EntryCalls(p, Links(p), link)
  }

  lemma ConcatAssoc<T>(a: seq<T>, b: seq<T>, c: seq<T>)
    ensures (a + b) + c == a + (b + c)
  {
  }

  lemma InvocationsStep(registry: seq<Protocol>, i: nat, link: string)
    requires i < |registry|
    ensures Invocations(registry[..i + 1], link)
         == Invocations(registry[..i], link) + EntryCalls(registry[i], Links(registry[i]), link)
  {
    assert registry[..i + 1][..i] == registry[..i];
  }

  /** `runCatching { entities.add(...) }`: one profile on success, nothing on failure. */
  function Attempt<P>(r: Option<P>): seq<P>
  {
    match r
    case Some(p) => [p]
    case None => []
  }

  /** The profiles the given plugin calls add, in call order. */
  function PluginResults<P>(calls: seq<Protocol>, link: string, dec: Decoders<P>): seq<P>
  {
    if calls == [] then []
    else
      var p := calls[|calls| - 1];
      PluginResults(calls[..|calls| - 1], link, dec) + Attempt(dec.shareLink(p.plgId, p.protocolId, link))
  }

  /** What one non-subscription token adds to its stream's list. */
  function LinkResults<P>(link: string, registry: seq<Protocol>, dec: Decoders<P>): seq<P>
  {
    match BuiltinScheme(link)
    case Some(s) => Attempt(dec.builtin(s, link))
    case None => PluginResults(Invocations(registry, link), link, dec)
  }

  /** One decoder invocation, with the token it was given. */
  datatype Call =
    | BuiltinCall(scheme: Scheme, link: string)                      // parseUniversal, parseSOCKS, ...
    | PluginCall(plgId: string, protocolId: string, link: string)    // parseShareLink(plgId, protocolId, link)

  /** What the decoder of a call returns. */
  function Run<P>(c: Call, dec: Decoders<P>): Option<P>
  {
    match c
    case BuiltinCall(s, link) => dec.builtin(s, link)
    case PluginCall(plgId, protocolId, link) => dec.shareLink(plgId, protocolId, link)
  }

  /** The `parseShareLink` calls for the given descriptors, in order. */
  function PluginCalls(called: seq<Protocol>, link: string): seq<Call>
  {
    seq(|called|, i requires 0 <= i < |called| => PluginCall(called[i].plgId, called[i].protocolId, link))
  }

  /** The decoder calls `parseLink` makes for a token that is not a subscription link. */
  function LinkCalls(link: string, registry: seq<Protocol>): seq<Call>
  {
    match BuiltinScheme(link)
    case Some(s) => [BuiltinCall(s, link)]
    case None => PluginCalls(Invocations(registry, link), link)
  }

  lemma PluginResultsSnoc<P>(calls: seq<Protocol>, p: Protocol, link: string, dec: Decoders<P>)
    ensures PluginResults(calls + [p], link, dec)
         == PluginResults(calls, link, dec) + Attempt(dec.shareLink(p.plgId, p.protocolId, link))
  {
    assert (calls + [p])[..|calls|] == calls;
  }

  lemma {:induction false} PluginResultsAppend<P>(a: seq<Protocol>, b: seq<Protocol>, link: string, dec: Decoders<P>)
    ensures PluginResults(a + b, link, dec) == PluginResults(a, link, dec) + PluginResults(b, link, dec)
  {
    if b == [] {
      assert a + b == a;
    } else {
      var init := b[..|b| - 1];
      PluginResultsAppend(a, init, link, dec);
      assert (a + b)[..|a + b| - 1] == a + init;
      assert (a + b)[|a + b| - 1] == b[|b| - 1];
    }
  }

  /**
   * The inner `forEach` over one descriptor's `links`: each entry that is a
   * string and a prefix of the token makes one `parseShareLink` call, whose
   * success is appended. `called` lists the calls made.
   */
  method ParseWithPlugin<P>(link: string, list: seq<P>, p: Protocol, dec: Decoders<P>) returns (list': seq<P>, called: seq<Protocol>)
    ensures called == EntryCalls(p, Links(p), link)
    ensures list' == list + PluginResults(called, link, dec)
  {
    list', called := list, [];
    var entries := Links(p);
    assert entries[..0] == [];
    for j := 0 to |entries|
      invariant called == EntryCalls(p, entries[..j], link)
      invariant list' == list + PluginResults(called, link, dec)
    {
      EntryCallsStep(p, entries, j, link);
      if entries[j].JString? && StartsWith(link, entries[j].s) {
        list' := list' + Attempt(dec.shareLink(p.plgId, p.protocolId, link));
        PluginResultsSnoc(called, p, link, dec);
        called := called + [p];
      } else {
        assert called + [] == called;
      }
    }
    assert entries[..|entries|] == entries;
  }

  /**
   * The `else` branch of `parseLink`: the plugins' descriptors in registry
   * order, each given the token. `called` lists the calls made.
   */
  method ParsePlugins<P>(link: string, entities: seq<P>, registry: seq<Protocol>, dec: Decoders<P>)
    returns (list: seq<P>, called: seq<Protocol>)
    ensures called == Invocations(registry, link)
    ensures list == entities + PluginResults(called, link, dec)
  {
    list, called := entities, [];
    assert registry[..0] == [] && entities + [] == entities;
    for i := 0 to |registry|
      invariant called == Invocations(registry[..i], link)
      invariant list == entities + PluginResults(called, link, dec)
    {
      InvocationsStep(registry, i, link);
      var added;
      list, added := ParseWithPlugin(link, list, registry[i], dec);
      PluginResultsAppend(called, added, link, dec);
      ConcatAssoc(entities, PluginResults(called, link, dec), PluginResults(added, link, dec));
      called := called + added;
    }
    assert registry[..|registry|] == registry;
  }

  /**
   * `String.parseLink(entities)`: a subscription link aborts with that link
   * before any decoder is called; any other token appends to `entities`
   * what its one built-in decoder, or else every matching plugin, returns.
   * `calls` lists the decoder calls made.
   */
  method ParseLink<P>(link: string, entities: seq<P>, registry: seq<Protocol>, dec: Decoders<P>)
    returns (r: Outcome<P>, calls: seq<Call>)
    ensures IsSubscriptionLink(link) ==> r == Redirect(link) && calls == []
    ensures !IsSubscriptionLink(link) ==> r == Profiles(entities + LinkResults(link, registry, dec))
    ensures !IsSubscriptionLink(link) ==> calls == LinkCalls(link, registry)
  {
    if StartsWith(link, "clash://install-config?") || StartsWith(link, "sn://subscription?") {
      return Redirect(link), [];
    }
    var list := entities;
    match BuiltinScheme(link) {
      case Some(s) =>
        list := list + Attempt(dec.builtin(s, link));
        calls := [BuiltinCall(s, link)];
      case None =>
        var called;
        list, called := ParsePlugins(link, list, registry, dec);
        calls := PluginCalls(called, link);
    }
    return Profiles(list), calls;
  }

  // ---------------------------------------------------------------------
  // Streams

  /** The position of the first subscription link among the tokens, if any. */
  function FirstSubscription(links: seq<string>): (r: Option<nat>)
    ensures r.Some? ==> r.value < |links| && IsSubscriptionLink(links[r.value])
    ensures r.Some? ==> forall j :: 0 <= j < r.value ==> !IsSubscriptionLink(links[j])
    ensures r.None? <==> forall j :: 0 <= j < |links| ==> !IsSubscriptionLink(links[j])
  {
    if links == [] then None
    else if IsSubscriptionLink(links[0]) then Some(0)
    else match FirstSubscription(links[1..])
      case Some(k) => Some(k + 1)
      case None => None
  }

  /** The profiles a stream without subscription links appends, token by token. */
  function StreamResults<P>(links: seq<string>, registry: seq<Protocol>, dec: Decoders<P>): seq<P>
  {
    if links == [] then []
    else StreamResults(links[..|links| - 1], registry, dec) + LinkResults(links[|links| - 1], registry, dec)
  }

  /** What running `parseLink` over a whole stream yields. */
  function ParseStream<P>(links: seq<string>, registry: seq<Protocol>, dec: Decoders<P>): Outcome<P>
  {
    match FirstSubscription(links)
    case Some(i) => Redirect(links[i])
    case None => Profiles(StreamResults(links, registry, dec))
  }

  /** The decoder calls of a stream's tokens, in token order. */
  function StreamCalls(links: seq<string>, registry: seq<Protocol>): seq<Call>
  {
    if links == [] then []
    else StreamCalls(links[..|links| - 1], registry) + LinkCalls(links[|links| - 1], registry)
  }

  /** The tokens of a stream that reach a decoder: those before its first subscription link. */
  function Dispatched(links: seq<string>): (r: seq<string>)
    ensures r <= links
    ensures forall j :: 0 <= j < |r| ==> !IsSubscriptionLink(r[j])
    ensures |r| < |links| ==> IsSubscriptionLink(links[|r|])
  {
    match FirstSubscription(links)
    case Some(i) => links[..i]
    case None => links
  }

  lemma FirstSubscriptionAt(links: seq<string>, i: nat)
    requires i < |links| && IsSubscriptionLink(links[i])
    requires forall j :: 0 <= j < i ==> !IsSubscriptionLink(links[j])
    ensures FirstSubscription(links) == Some(i)
  {
  }

  lemma StreamResultsStep<P>(links: seq<string>, i: nat, registry: seq<Protocol>, dec: Decoders<P>)
    requires i < |links|
    ensures StreamResults(links[..i + 1], registry, dec)
         == StreamResults(links[..i], registry, dec) + LinkResults(links[i], registry, dec)
  {
    assert links[..i + 1][..i] == links[..i];
  }

  lemma NoSubscriptionStep(links: seq<string>, i: nat)
    requires i < |links| && !IsSubscriptionLink(links[i])
    requires forall j :: 0 <= j < i ==> !IsSubscriptionLink(links[j])
    ensures forall j :: 0 <= j < i + 1 ==> !IsSubscriptionLink(links[j])
  {
  }

  lemma StreamCallsStep(links: seq<string>, i: nat, registry: seq<Protocol>)
    requires i < |links|
    ensures StreamCalls(links[..i + 1], registry) == StreamCalls(links[..i], registry) + LinkCalls(links[i], registry)
  {
    assert links[..i + 1][..i] == links[..i];
  }

  /**
   * `for (link in links) link.parseLink(entities)` on a fresh list. The
   * loop ends at the first subscription link, so the decoders see exactly
   * the tokens before it.
   */
  method ParseLinks<P>(links: seq<string>, registry: seq<Protocol>, dec: Decoders<P>) returns (r: Outcome<P>, calls: seq<Call>)
    ensures r == ParseStream(links, registry, dec)
    ensures r.Profiles? ==> r.profiles == StreamResults(links, registry, dec)
    ensures calls == StreamCalls(Dispatched(links), registry)
  {
    var entities: seq<P> := [];
    calls := [];
    assert links[..0] == [];
    for i := 0 to |links|
      invariant forall j :: 0 <= j < i ==> !IsSubscriptionLink(links[j])
      invariant entities == StreamResults(links[..i], registry, dec)
      invariant calls == StreamCalls(links[..i], registry)
    {
      var step, stepCalls := ParseLink(links[i], entities, registry, dec);
      if step.Redirect? {
        FirstSubscriptionAt(links, i);
        return step, calls;
      }
      NoSubscriptionStep(links, i);
      StreamResultsStep(links, i, registry, dec);
      StreamCallsStep(links, i, registry);
      entities, calls := step.profiles, calls + stepCalls;
    }
    assert links[..|links|] == links;
    return Profiles(entities), calls;
  }

  // ---------------------------------------------------------------------
  // Tokenisation

  /** `text.split('\n').map { it.trim() }`. */
  function LineTokens(text: string): seq<string>
  {
    Map(Split(text, '\n'), Trim)
  }

  /** Kotlin's `map`: `f` applied to each element, in order. */
  function Map(lines: seq<string>, f: string -> string): (r: seq<string>)
    ensures |r| == |lines|
    ensures forall k :: 0 <= k < |lines| ==> r[k] == f(lines[k])
  {
    if lines == [] then [] else [f(lines[0])] + Map(lines[1..], f)
  }

  /** `text.split('\n').flatMap { it.trim().split(' ') }`. */
  function WordTokens(text: string): seq<string>
  {
    FlatMap(Split(text, '\n'), LineWords)
  }

  /** The words of one line: the trimmed line cut at every space, the pieces not trimmed again. */
  function LineWords(line: string): seq<string>
  {
    Split(Trim(line), ' ')
  }

  /** Kotlin's `flatMap`: the lists `f` gives for the elements, concatenated in order. */
  function FlatMap(lines: seq<string>, f: string -> seq<string>): seq<string>
  {
    if lines == [] then [] else f(lines[0]) + FlatMap(lines[1..], f)
  }

  // ---------------------------------------------------------------------
  // Selection

  /** `onEach { it.initializeDefaultValues() }`, seen on values. */
  function Initialized<P>(ps: seq<P>, ops: ProfileOps<P>): (r: seq<P>)
    ensures |r| == |ps|
  {
    seq(|ps|, i requires 0 <= i < |ps| => ops.initializeDefaultValues(ps[i]))
  }

  /** `T.applyDefaultValues()`: the profile after initialisation. */
  function ApplyDefaultValues<P>(p: P, ops: ProfileOps<P>): P
  {
    ops.initializeDefaultValues(p)
  }

  /** A pair the two streams decoded as equal profiles that nonetheless display differently. */
  predicate IsBadPair<P>(bean: P, lineBean: P, ops: ProfileOps<P>)
  {
    ops.equal(bean, lineBean) && ops.displayName(bean) != ops.displayName(lineBean)
  }

  /** The diagnostic flag `isBadLink`: equal sizes and some index-aligned bad pair. */
  predicate IsBadLink<P>(entities: seq<P>, entitiesByLine: seq<P>, ops: ProfileOps<P>)
  {
    |entities| == |entitiesByLine| && exists i :: 0 <= i < |entities| && IsBadPair(entities[i], entitiesByLine[i], ops)
  }

  /**
   * The end of `parseProxies` once both streams are parsed: a redirect from
   * the word stream wins (the line stream is then never run), then one from
   * the line stream; otherwise the initialised word list when strictly
   * longer, else the initialised line list.
   */
  function Choose<P>(byWord: Outcome<P>, byLine: Outcome<P>, ops: ProfileOps<P>): Outcome<P>
  {
    match byWord
    case Redirect(_) => byWord
    case Profiles(entities) =>
      match byLine
      case Redirect(_) => byLine
      case Profiles(entitiesByLine) =>
        var a, b := Initialized(entities, ops), Initialized(entitiesByLine, ops);
        Profiles(if |a| > |b| then a else b)
  }

  /** The whole of `parseProxies`, as a function of its input and collaborators. */
  function ParseProxiesSpec<P>(text: string, registry: seq<Protocol>, dec: Decoders<P>, ops: ProfileOps<P>): Outcome<P>
  {
    Choose(ParseStream(WordTokens(text), registry, dec), ParseStream(LineTokens(text), registry, dec), ops)
  }

  /**
   * The decoder calls of `parseProxies` over word stream `ws` and line
   * stream `ls`: the word stream's, then the line stream's unless the word
   * stream already redirected.
   */
  function ProxiesCalls(ws: seq<string>, ls: seq<string>, registry: seq<Protocol>): seq<Call>
  {
    StreamCalls(Dispatched(ws), registry)
      + (if FirstSubscription(ws).Some? then [] else StreamCalls(Dispatched(ls), registry))
  }

  /** `entities.onEach { it.initializeDefaultValues() }`: every element, in place, in index order. */
  method InitializeEach<P>(entities: seq<P>, ops: ProfileOps<P>) returns (list: seq<P>)
    ensures list == Initialized(entities, ops)
  {
    list := entities;
    for i := 0 to |list|
      invariant |list| == |entities|
      invariant forall j :: 0 <= j < i ==> list[j] == ops.initializeDefaultValues(entities[j])
      invariant forall j :: i <= j < |list| ==> list[j] == entities[j]
    {
      list := list[i := ops.initializeDefaultValues(list[i])];
    }
  }

  /**
   * The `test@` block: walks the index-aligned pairs of two equally long
   * lists and stops at the first pair that is equal but displays
   * differently.
   */
  method FindBadLink<P>(entities: seq<P>, entitiesByLine: seq<P>, ops: ProfileOps<P>) returns (isBadLink: bool)
    requires |entities| == |entitiesByLine|
    ensures isBadLink <==> IsBadLink(entities, entitiesByLine, ops)
  {
    for i := 0 to |entities|
      invariant forall j :: 0 <= j < i ==> !IsBadPair(entities[j], entitiesByLine[j], ops)
    {
      if IsBadPair(entities[i], entitiesByLine[i], ops) {
        return true;
      }
    }
    return false;
  }

  /**
   * Lines 233-250 of `parseProxies` over word stream `ws` and line stream
   * `ls`: both streams in full (words first), every profile initialised,
   * the flag `isBadLink` computed, the script pool destroyed, and the word
   * list returned only when strictly longer. A subscription link ends the
   * call at once: no further decoder call, no line stream after a word
   * stream redirect, no flag, no pool teardown.
   */
  method ParseStreams<P>(ws: seq<string>, ls: seq<string>, registry: seq<Protocol>, dec: Decoders<P>, ops: ProfileOps<P>)
    returns (r: Outcome<P>, isBadLink: bool, jsiDestroyed: bool, calls: seq<Call>)
    ensures r == Choose(ParseStream(ws, registry, dec), ParseStream(ls, registry, dec), ops)
    ensures jsiDestroyed <==> r.Profiles?
    ensures isBadLink <==> r.Profiles? && IsBadLink(Initialized(StreamResults(ws, registry, dec), ops),
                                                    Initialized(StreamResults(ls, registry, dec), ops), ops)
    ensures calls == ProxiesCalls(ws, ls, registry)
  {
    var byWord, wordCalls := ParseLinks(ws, registry, dec);
    if byWord.Redirect? {
      return byWord, false, false, wordCalls;
    }
    var byLine, lineCalls := ParseLinks(ls, registry, dec);
    calls := wordCalls + lineCalls;
    if byLine.Redirect? {
      return byLine, false, false, calls;
    }
    var entities := InitializeEach(byWord.profiles, ops);
    var entitiesByLine := InitializeEach(byLine.profiles, ops);
    isBadLink := false;
    if |entities| == |entitiesByLine| {
      isBadLink := FindBadLink(entities, entitiesByLine, ops);
    }
    jsiDestroyed := true;
    r := Profiles(if |entities| > |entitiesByLine| then entities else entitiesByLine);
  }

  /** `parseProxies(text)`: the two token streams of the text, parsed and selected between. */
  method ParseProxies<P>(text: string, registry: seq<Protocol>, dec: Decoders<P>, ops: ProfileOps<P>)
    returns (r: Outcome<P>, isBadLink: bool, jsiDestroyed: bool, calls: seq<Call>)
    ensures r == ParseProxiesSpec(text, registry, dec, ops)
    ensures jsiDestroyed <==> r.Profiles?
    ensures isBadLink <==> r.Profiles? && IsBadLink(Initialized(StreamResults(WordTokens(text), registry, dec), ops),
                                                    Initialized(StreamResults(LineTokens(text), registry, dec), ops), ops)
    ensures calls == ProxiesCalls(WordTokens(text), LineTokens(text), registry)
  {
    var links := WordTokens(text);
    var linksByLine := LineTokens(text);
    r, isBadLink, jsiDestroyed, calls := ParseStreams(links, linksByLine, registry, dec, ops);
  }
}
