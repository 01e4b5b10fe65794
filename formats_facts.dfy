/**
 * What `parseProxies` promises, stated over the functions of `Formats`:
 * the shape of the two token streams, the order and number of the
 * profiles a stream yields, the plugin fallback, the redirect on a
 * subscription link and the selection between the streams.
 */
module FormatsFacts {
  import opened Optional
  import opened Text
  import opened Json
  import opened Formats

  // ---------------------------------------------------------------------
  // Tokenisation

  /** Every piece `f` gives for an element is in the flattened list. */
  lemma {:induction false} FlatMapHasPiece(lines: seq<string>, f: string -> seq<string>, k: nat, i: nat)
    requires k < |lines| && i < |f(lines[k])|
    ensures f(lines[k])[i] in FlatMap(lines, f)
  {
    if k > 0 {
      FlatMapHasPiece(lines[1..], f, k - 1, i);
    }
  }

  /** Every element of the flattened list is a piece `f` gives for some element. */
  lemma {:induction false} FlatMapPieceFrom(lines: seq<string>, f: string -> seq<string>, w: string)
    requires w in FlatMap(lines, f)
    ensures exists k :: 0 <= k < |lines| && w in f(lines[k])
  {
    if w !in f(lines[0]) {
      FlatMapPieceFrom(lines[1..], f, w);
      var k :| 0 <= k < |lines[1..]| && w in f(lines[1..][k]);
      assert lines[1..][k] == lines[k + 1];
    }
  }

  lemma TrimKeepsOut(s: string, c: char)
    requires c !in s
    ensures c !in Trim(s)
  {
    TrimIsCore(s);
  }

  /** The words of a line without a line break hold neither a line break nor a space. */
  lemma LineWordsHaveNoBreaks(line: string)
    requires '\n' !in line
    ensures forall w :: w in LineWords(line) ==> '\n' !in w && ' ' !in w
  {
    var l := Trim(line);
    TrimKeepsOut(line, '\n');
    SplitPiecesFree(l, ' ');
    forall w | w in Split(l, ' ')
      ensures '\n' !in w
    {
      var i :| 0 <= i < |Split(l, ' ')| && Split(l, ' ')[i] == w;
      SplitPieceWithin(l, ' ', i);
    }
  }

  /** No line token holds a line break: each is a trimmed piece cut at line breaks. */
  lemma LineTokensHaveNoBreaks(text: string)
    ensures forall t :: t in LineTokens(text) ==> '\n' !in t
  {
    var lines := Split(text, '\n');
    SplitPiecesFree(text, '\n');
    forall t | t in LineTokens(text)
      ensures '\n' !in t
    {
      var k :| 0 <= k < |LineTokens(text)| && LineTokens(text)[k] == t;
      TrimKeepsOut(lines[k], '\n');
    }
  }

  /** No word token holds a line break or a space. */
  lemma WordTokensHaveNoBreaks(text: string)
    ensures forall t :: t in WordTokens(text) ==> '\n' !in t && ' ' !in t
  {
    var lines := Split(text, '\n');
    SplitPiecesFree(text, '\n');
    forall t | t in WordTokens(text)
      ensures '\n' !in t && ' ' !in t
    {
      FlatMapPieceFrom(lines, LineWords, t);
      var k :| 0 <= k < |lines| && t in LineWords(lines[k]);
      LineWordsHaveNoBreaks(lines[k]);
    }
  }

  /** A piece of a split holds only characters of the text. */
  lemma {:induction false} SplitPieceWithin(s: string, c: char, i: nat)
    requires i < |Split(s, c)|
    ensures forall x :: x in Split(s, c)[i] ==> x in s
  {
    if s != [] {
      var rest := Split(s[1..], c);
      SplitPieceWithin(s[1..], c, if s[0] == c then (if i == 0 then 0 else i - 1) else i);
      if s[0] == c && i > 0 {
        assert Split(s, c)[i] == rest[i - 1];
      } else if s[0] != c && i > 0 {
        assert Split(s, c)[i] == rest[i];
      }
    }
  }

  /** The empty text gives a single empty token in each stream. */
  lemma EmptyTextTokens()
    ensures WordTokens("") == [""]
    ensures LineTokens("") == [""]
  {
    assert Split("", '\n') == [""];
    assert Trim("") == "";
    assert Split("", ' ') == [""];
  }

  /** When no trimmed line holds a space, each line is one word: the word stream is the line stream. */
  lemma {:induction false} WordsAreLines(lines: seq<string>)
    requires forall k :: 0 <= k < |lines| ==> ' ' !in Trim(lines[k])
    ensures FlatMap(lines, LineWords) == Map(lines, Trim)
  {
    if lines != [] {
      SplitWithoutDelimiter(Trim(lines[0]), ' ');
      WordsAreLines(lines[1..]);
    }
  }

  // ---------------------------------------------------------------------
  // Streams

  /** A stream's list is the concatenation, in token order, of what each part of the stream yields. */
  lemma {:induction false} StreamResultsAppend<P>(a: seq<string>, b: seq<string>, registry: seq<Protocol>, dec: Decoders<P>)
    ensures StreamResults(a + b, registry, dec) == StreamResults(a, registry, dec) + StreamResults(b, registry, dec)
  {
    if b == [] {
      assert a + b == a;
    } else {
      var init, last := b[..|b| - 1], b[|b| - 1];
      StreamResultsAppend(a, init, registry, dec);
      assert (a + b)[..|a + b| - 1] == a + init;
      assert (a + b)[|a + b| - 1] == last;
      assert StreamResults(a + b, registry, dec) == StreamResults(a + init, registry, dec) + LinkResults(last, registry, dec);
      ConcatAssoc(StreamResults(a, registry, dec), StreamResults(init, registry, dec), LinkResults(last, registry, dec));
    }
  }

  /** A failed decoder call adds nothing; a successful one adds one profile; so no more profiles than calls. */
  lemma {:induction false} PluginResultsCount<P>(calls: seq<Protocol>, link: string, dec: Decoders<P>)
    ensures |PluginResults(calls, link, dec)| <= |calls|
    ensures (forall i :: 0 <= i < |calls| ==> dec.shareLink(calls[i].plgId, calls[i].protocolId, link).Some?)
            ==> |PluginResults(calls, link, dec)| == |calls|
    ensures (forall i :: 0 <= i < |calls| ==> dec.shareLink(calls[i].plgId, calls[i].protocolId, link).None?)
            ==> PluginResults(calls, link, dec) == []
  {
    if calls != [] {
      PluginResultsCount(calls[..|calls| - 1], link, dec);
    }
  }

  /**
   * One token adds at most one profile when a built-in scheme claims it,
   * and otherwise at most one per plugin call; exactly that many when
   * every decoder succeeds.
   */
  lemma LinkResultsCount<P>(link: string, registry: seq<Protocol>, dec: Decoders<P>)
    ensures BuiltinScheme(link).Some? ==>
      |LinkResults(link, registry, dec)| == (if dec.builtin(BuiltinScheme(link).value, link).Some? then 1 else 0)
    ensures BuiltinScheme(link).None? ==>
      |LinkResults(link, registry, dec)| <= |Invocations(registry, link)|
  {
    if BuiltinScheme(link).None? {
      PluginResultsCount(Invocations(registry, link), link, dec);
    }
  }

  /** A token claimed by a built-in scheme never reaches the plugins: the registry does not matter. */
  lemma BuiltinIgnoresPlugins<P>(link: string, registry: seq<Protocol>, other: seq<Protocol>, dec: Decoders<P>)
    requires BuiltinScheme(link).Some?
    ensures LinkResults(link, registry, dec) == LinkResults(link, other, dec)
  {
  }

  // ---------------------------------------------------------------------
  // Plugins

  /** A descriptor is called for a token once per entry that claims it, and never on another descriptor's behalf. */
  lemma {:induction false} EntryCallsMembers(p: Protocol, entries: seq<Json>, link: string)
    ensures forall q :: q in EntryCalls(p, entries, link) ==> q == p
    ensures p in EntryCalls(p, entries, link) <==> exists e :: e in entries && IsMatchingEntry(e, link)
  {
    if entries != [] {
      var init := entries[..|entries| - 1];
      EntryCallsMembers(p, init, link);
      assert entries == init + [entries[|entries| - 1]];
    }
  }

  /** Only string entries can claim a token: dropping every non-string entry changes no call. */
  lemma {:induction false} EntryCallsIgnoreNonStrings(p: Protocol, entries: seq<Json>, link: string)
    ensures EntryCalls(p, entries, link) == EntryCalls(p, Filtered(entries, StringKind), link)
  {
    if entries != [] {
      var init := entries[..|entries| - 1];
      var last := entries[|entries| - 1];
      EntryCallsIgnoreNonStrings(p, init, link);
      if last.JString? {
        var f := Filtered(init, StringKind);
        assert (f + [last])[..|f|] == f;
      } else {
        assert Filtered(init, StringKind) + [] == Filtered(init, StringKind);
      }
    }
  }

  /** Every string entry claims a token it prefixes, so the calls are one per string entry of that kind. */
  lemma {:induction false} EntryCallsCount(p: Protocol, entries: seq<Json>, link: string)
    requires forall i :: 0 <= i < |entries| ==> IsMatchingEntry(entries[i], link)
    ensures |EntryCalls(p, entries, link)| == |entries|
  {
    if entries != [] {
      EntryCallsCount(p, entries[..|entries| - 1], link);
    }
  }

  /**
   * A descriptor is among the plugin calls for a token exactly when it is
   * registered and one of its `links` entries is a string prefixing the token.
   */
  lemma {:induction false} InvocationsMembers(registry: seq<Protocol>, link: string)
    ensures forall q :: q in Invocations(registry, link) <==>
      q in registry && exists e :: e in Links(q) && IsMatchingEntry(e, link)
  {
    if registry != [] {
      var init := registry[..|registry| - 1];
      var p := registry[|registry| - 1];
      InvocationsMembers(init, link);
      EntryCallsMembers(p, Links(p), link);
      assert registry == init + [p];
    }
  }

  /** An empty-string entry claims every token that reaches the plugins. */
  lemma EmptyPrefixClaimsEverything(registry: seq<Protocol>, p: Protocol, link: string)
    requires p in registry && JString("") in Links(p)
    ensures p in Invocations(registry, link)
  {
    InvocationsMembers(registry, link);
    assert IsMatchingEntry(JString(""), link);
  }

  /**
   * The plugin calls for a token follow registry order: the calls for a
   * registry split in two are the first part's followed by the second's,
   * so several descriptors claiming one token each get their own calls.
   */
  lemma {:induction false} InvocationsAppend(r1: seq<Protocol>, r2: seq<Protocol>, link: string)
    ensures Invocations(r1 + r2, link) == Invocations(r1, link) + Invocations(r2, link)
  {
    if r2 == [] {
      assert r1 + r2 == r1;
    } else {
      var init := r2[..|r2| - 1];
      var p := r2[|r2| - 1];
      InvocationsAppend(r1, init, link);
      assert (r1 + r2)[..|r1 + r2| - 1] == r1 + init;
      assert (r1 + r2)[|r1 + r2| - 1] == p;
      ConcatAssoc(Invocations(r1, link), Invocations(init, link), EntryCalls(p, Links(p), link));
    }
  }

  // ---------------------------------------------------------------------
  // The whole call

  /** Neither subscription prefix holds a space, so the first word of a subscription link is one too. */
  lemma SubscriptionFirstWord(l: string)
    requires IsSubscriptionLink(l)
    ensures IsSubscriptionLink(Split(l, ' ')[0])
  {
    if StartsWith(l, "clash://install-config?") {
      FirstPieceKeepsPrefix(l, ' ', "clash://install-config?");
    } else {
      FirstPieceKeepsPrefix(l, ' ', "sn://subscription?");
    }
  }

  /** A subscription link in the line stream starts a word that is one in the word stream. */
  lemma LineSubscriptionIsWordSubscription(text: string)
    ensures (exists j :: 0 <= j < |LineTokens(text)| && IsSubscriptionLink(LineTokens(text)[j]))
        ==> (exists i :: 0 <= i < |WordTokens(text)| && IsSubscriptionLink(WordTokens(text)[i]))
  {
    var lines := Split(text, '\n');
    if j :| 0 <= j < |LineTokens(text)| && IsSubscriptionLink(LineTokens(text)[j]) {
      var w := Split(Trim(lines[j]), ' ')[0];
      SubscriptionFirstWord(Trim(lines[j]));
      FlatMapHasPiece(lines, LineWords, j, 0);
      var i :| 0 <= i < |WordTokens(text)| && WordTokens(text)[i] == w;
      assert IsSubscriptionLink(WordTokens(text)[i]);
    }
  }

  /**
   * Over any two streams where a line-stream subscription link implies a
   * word-stream one: the end result redirects exactly when the word
   * stream holds a subscription link, and then to the first one.
   */
  lemma ChooseRedirect<P>(ws: seq<string>, ls: seq<string>, registry: seq<Protocol>, dec: Decoders<P>, ops: ProfileOps<P>)
    requires (exists j :: 0 <= j < |ls| && IsSubscriptionLink(ls[j])) ==> (exists i :: 0 <= i < |ws| && IsSubscriptionLink(ws[i]))
    ensures var r := Choose(ParseStream(ws, registry, dec), ParseStream(ls, registry, dec), ops);
      && (r.Redirect? <==> exists i :: 0 <= i < |ws| && IsSubscriptionLink(ws[i]))
      && (r.Redirect? ==> exists i :: 0 <= i < |ws| && r.link == ws[i] && IsSubscriptionLink(ws[i])
                            && forall j :: 0 <= j < i ==> !IsSubscriptionLink(ws[j]))
  {
  }

  /**
   * `parseProxies` ends in `SubscriptionFoundException` exactly when some
   * word token is a subscription link, and then carries the first one; the
   * line stream can never be the one to redirect.
   */
  lemma RedirectIffSubscriptionWord<P>(text: string, registry: seq<Protocol>, dec: Decoders<P>, ops: ProfileOps<P>)
    ensures var r, ws := ParseProxiesSpec(text, registry, dec, ops), WordTokens(text);
      r.Redirect? <==> exists i :: 0 <= i < |ws| && IsSubscriptionLink(ws[i])
    ensures var r, ws := ParseProxiesSpec(text, registry, dec, ops), WordTokens(text);
      r.Redirect? ==> exists i :: 0 <= i < |ws| && r.link == ws[i] && IsSubscriptionLink(ws[i])
                        && forall j :: 0 <= j < i ==> !IsSubscriptionLink(ws[j])
  {
    LineSubscriptionIsWordSubscription(text);
    ChooseRedirect(WordTokens(text), LineTokens(text), registry, dec, ops);
  }

  /**
   * Over any two streams free of subscription links: the initialised list
   * of the longer one, the second one's on a tie.
   */
  lemma ChooseLonger<P>(ws: seq<string>, ls: seq<string>, registry: seq<Protocol>, dec: Decoders<P>, ops: ProfileOps<P>)
    requires forall i :: 0 <= i < |ws| ==> !IsSubscriptionLink(ws[i])
    requires forall j :: 0 <= j < |ls| ==> !IsSubscriptionLink(ls[j])
    ensures var r := Choose(ParseStream(ws, registry, dec), ParseStream(ls, registry, dec), ops);
      var a, b := StreamResults(ws, registry, dec), StreamResults(ls, registry, dec);
      && r.Profiles?
      && |r.profiles| >= |a| && |r.profiles| >= |b|
      && r.profiles == Initialized(if |a| > |b| then a else b, ops)
  {
  }

  /**
   * Once neither stream redirects, the result is the initialised list of
   * the longer stream, the line stream's on a tie, so it is never shorter
   * than either.
   */
  lemma SelectionKeepsLonger<P>(text: string, registry: seq<Protocol>, dec: Decoders<P>, ops: ProfileOps<P>)
    requires forall i :: 0 <= i < |WordTokens(text)| ==> !IsSubscriptionLink(WordTokens(text)[i])
    ensures var r := ParseProxiesSpec(text, registry, dec, ops);
      var a, b := StreamResults(WordTokens(text), registry, dec), StreamResults(LineTokens(text), registry, dec);
      && r.Profiles?
      && |r.profiles| >= |a| && |r.profiles| >= |b|
      && r.profiles == Initialized(if |a| > |b| then a else b, ops)
  {
    LineSubscriptionIsWordSubscription(text);
    ChooseLonger(WordTokens(text), LineTokens(text), registry, dec, ops);
  }

  /** A text with one token per line yields the same two streams, and the tie goes to the line stream's list. */
  lemma OneTokenPerLine<P>(text: string, registry: seq<Protocol>, dec: Decoders<P>, ops: ProfileOps<P>)
    requires forall k :: 0 <= k < |Split(text, '\n')| ==> ' ' !in Trim(Split(text, '\n')[k])
    ensures WordTokens(text) == LineTokens(text)
    ensures ParseProxiesSpec(text, registry, dec, ops)
         == match ParseStream(LineTokens(text), registry, dec)
            case Redirect(link) => Redirect(link)
            case Profiles(ps) => Profiles(Initialized(ps, ops))
  {
    WordsAreLines(Split(text, '\n'));
  }

  /** With an idempotent `initializeDefaultValues`, initialising twice is initialising once. */
  lemma InitializedIdempotent<P>(ps: seq<P>, ops: ProfileOps<P>)
    requires forall p :: ops.initializeDefaultValues(ops.initializeDefaultValues(p)) == ops.initializeDefaultValues(p)
    ensures Initialized(Initialized(ps, ops), ops) == Initialized(ps, ops)
  {
  }

  /** Whichever list `Choose` returns is an initialised one, which an idempotent initialisation leaves as it is. */
  lemma ChooseInitialized<P>(byWord: Outcome<P>, byLine: Outcome<P>, ops: ProfileOps<P>)
    requires forall p :: ops.initializeDefaultValues(ops.initializeDefaultValues(p)) == ops.initializeDefaultValues(p)
    ensures var r := Choose(byWord, byLine, ops);
      r.Profiles? ==> Initialized(r.profiles, ops) == r.profiles
  {
    if byWord.Profiles? && byLine.Profiles? {
      InitializedIdempotent(byWord.profiles, ops);
      InitializedIdempotent(byLine.profiles, ops);
    }
  }

  /** Every profile `parseProxies` returns has been initialised: initialising it again changes nothing. */
  lemma ResultIsInitialized<P>(text: string, registry: seq<Protocol>, dec: Decoders<P>, ops: ProfileOps<P>)
    requires forall p :: ops.initializeDefaultValues(ops.initializeDefaultValues(p)) == ops.initializeDefaultValues(p)
    ensures var r := ParseProxiesSpec(text, registry, dec, ops);
      r.Profiles? ==> Initialized(r.profiles, ops) == r.profiles
  {
    var ws := ParseStream(WordTokens(text), registry, dec);
    var ls := ParseStream(LineTokens(text), registry, dec);
    ChooseInitialized(ws, ls, ops);
  }

  /** `sn://subscription?` would select the universal decoder; the subscription test before the chain redirects it instead. */
  lemma SubscriptionBeforeUniversal(link: string)
    requires StartsWith(link, "sn://subscription?")
    ensures BuiltinScheme(link) == Some(Universal)
    ensures IsSubscriptionLink(link)
  {
    assert link[..5] == link[..18][..5];
  }

  // ---------------------------------------------------------------------
  // Decoder calls

  /** The profiles a list of calls yields: each call's success, in call order. */
  function Outputs<P>(calls: seq<Call>, dec: Decoders<P>): seq<P>
  {
    if calls == [] then []
    else Outputs(calls[..|calls| - 1], dec) + Attempt(Run(calls[|calls| - 1], dec))
  }

  lemma {:induction false} OutputsAppend<P>(a: seq<Call>, b: seq<Call>, dec: Decoders<P>)
    ensures Outputs(a + b, dec) == Outputs(a, dec) + Outputs(b, dec)
  {
    if b == [] {
      assert a + b == a;
    } else {
      var init := b[..|b| - 1];
      OutputsAppend(a, init, dec);
      assert (a + b)[..|a + b| - 1] == a + init;
      assert (a + b)[|a + b| - 1] == b[|b| - 1];
    }
  }

  /** No more profiles than calls, and exactly as many when every call succeeds. */
  lemma {:induction false} OutputsCount<P>(calls: seq<Call>, dec: Decoders<P>)
    ensures |Outputs(calls, dec)| <= |calls|
    ensures (forall i :: 0 <= i < |calls| ==> Run(calls[i], dec).Some?) ==> |Outputs(calls, dec)| == |calls|
  {
    if calls != [] {
      OutputsCount(calls[..|calls| - 1], dec);
    }
  }

  lemma {:induction false} PluginOutputs<P>(called: seq<Protocol>, link: string, dec: Decoders<P>)
    ensures PluginResults(called, link, dec) == Outputs(PluginCalls(called, link), dec)
  {
    if called != [] {
      var init := called[..|called| - 1];
      PluginOutputs(init, link, dec);
      var cs := PluginCalls(called, link);
      assert cs[..|cs| - 1] == PluginCalls(init, link);
    }
  }

  /** A token's profiles are what the decoder calls made for it return. */
  lemma LinkOutputs<P>(link: string, registry: seq<Protocol>, dec: Decoders<P>)
    ensures LinkResults(link, registry, dec) == Outputs(LinkCalls(link, registry), dec)
  {
    match BuiltinScheme(link) {
      case Some(s) =>
        assert [BuiltinCall(s, link)][..0] == [];
      case None =>
        PluginOutputs(Invocations(registry, link), link, dec);
    }
  }

  /**
   * A stream's profiles are exactly the successes of its decoder calls, in
   * call order: nothing is added that no call returned.
   */
  lemma {:induction false} ProfilesComeFromCalls<P>(links: seq<string>, registry: seq<Protocol>, dec: Decoders<P>)
    ensures StreamResults(links, registry, dec) == Outputs(StreamCalls(links, registry), dec)
    ensures |StreamResults(links, registry, dec)| <= |StreamCalls(links, registry)|
  {
    if links != [] {
      var init, last := links[..|links| - 1], links[|links| - 1];
      ProfilesComeFromCalls(init, registry, dec);
      LinkOutputs(last, registry, dec);
      OutputsAppend(StreamCalls(init, registry), LinkCalls(last, registry), dec);
    }
    OutputsCount(StreamCalls(links, registry), dec);
  }

  /** Every call made for a token is given that token: one built-in call, or one plugin call per claiming entry. */
  lemma LinkCallsCarryToken(link: string, registry: seq<Protocol>)
    ensures forall c :: c in LinkCalls(link, registry) ==> c.link == link
    ensures BuiltinScheme(link).Some? ==> LinkCalls(link, registry) == [BuiltinCall(BuiltinScheme(link).value, link)]
    ensures BuiltinScheme(link).None? ==>
      && |LinkCalls(link, registry)| == |Invocations(registry, link)|
      && forall c :: c in LinkCalls(link, registry) ==> c.PluginCall?
  {
  }

  /** Every call of a stream is given one of its tokens. */
  lemma {:induction false} StreamCallsFrom(links: seq<string>, registry: seq<Protocol>)
    ensures forall c :: c in StreamCalls(links, registry) ==> c.link in links
  {
    if links != [] {
      var init, last := links[..|links| - 1], links[|links| - 1];
      StreamCallsFrom(init, registry);
      LinkCallsCarryToken(last, registry);
      assert forall t :: t in init ==> t in links;
    }
  }

  /**
   * The decoders of a stream see only the tokens before its first
   * subscription link: never the subscription link, never a token after it.
   */
  lemma DecodersStopAtSubscription(links: seq<string>, registry: seq<Protocol>)
    ensures forall c :: c in StreamCalls(Dispatched(links), registry) ==>
      c.link in Dispatched(links) && !IsSubscriptionLink(c.link)
    ensures FirstSubscription(links).Some? ==> Dispatched(links) == links[..FirstSubscription(links).value]
  {
    StreamCallsFrom(Dispatched(links), registry);
  }

  /**
   * Over any two streams: a redirect from the word stream leaves the line
   * stream undecoded, every call having gone to a word token before the
   * subscription link; otherwise the word stream is decoded in full and
   * the line stream up to its own first subscription link.
   */
  lemma WordRedirectSkipsLines<P>(ws: seq<string>, ls: seq<string>, registry: seq<Protocol>, dec: Decoders<P>)
    ensures var calls := ProxiesCalls(ws, ls, registry);
      ParseStream(ws, registry, dec).Redirect? ==>
        && calls == StreamCalls(Dispatched(ws), registry)
        && forall c :: c in calls ==> c.link in ws[..FirstSubscription(ws).value] && !IsSubscriptionLink(c.link)
    ensures var calls := ProxiesCalls(ws, ls, registry);
      ParseStream(ws, registry, dec).Profiles? ==>
        calls == StreamCalls(ws, registry) + StreamCalls(Dispatched(ls), registry)
  {
    DecodersStopAtSubscription(ws, registry);
    if FirstSubscription(ws).Some? {
      assert ProxiesCalls(ws, ls, registry) + [] == ProxiesCalls(ws, ls, registry);
    }
  }

  /**
   * Over any two streams where a line-stream subscription link implies a
   * word-stream one: a redirect carries the word stream's first
   * subscription link, and every call went to a word token before it.
   */
  lemma ChooseRedirectCalls<P>(ws: seq<string>, ls: seq<string>, registry: seq<Protocol>, dec: Decoders<P>, ops: ProfileOps<P>)
    requires (exists j :: 0 <= j < |ls| && IsSubscriptionLink(ls[j])) ==> (exists i :: 0 <= i < |ws| && IsSubscriptionLink(ws[i]))
    ensures var r, calls := Choose(ParseStream(ws, registry, dec), ParseStream(ls, registry, dec), ops), ProxiesCalls(ws, ls, registry);
      r.Redirect? ==> exists i ::
        && 0 <= i < |ws| && ws[i] == r.link && IsSubscriptionLink(ws[i])
        && calls == StreamCalls(ws[..i], registry)
        && forall c :: c in calls ==> c.link in ws[..i]
  {
    ChooseRedirect(ws, ls, registry, dec, ops);
    WordRedirectSkipsLines(ws, ls, registry, dec);
    if Choose(ParseStream(ws, registry, dec), ParseStream(ls, registry, dec), ops).Redirect? {
      var i := FirstSubscription(ws).value;
      assert ws[i] == Choose(ParseStream(ws, registry, dec), ParseStream(ls, registry, dec), ops).link;
    }
  }

  /**
   * When `parseProxies` throws `SubscriptionFoundException`, every decoder
   * call went to a word token before the subscription link it carries, and
   * the line stream was never decoded.
   */
  lemma RedirectCallsPrecedeIt<P>(text: string, registry: seq<Protocol>, dec: Decoders<P>, ops: ProfileOps<P>)
    ensures var r, ws := ParseProxiesSpec(text, registry, dec, ops), WordTokens(text);
      var calls := ProxiesCalls(ws, LineTokens(text), registry);
      r.Redirect? ==> exists i ::
        && 0 <= i < |ws| && ws[i] == r.link && IsSubscriptionLink(ws[i])
        && calls == StreamCalls(ws[..i], registry)
        && forall c :: c in calls ==> c.link in ws[..i]
  {
    LineSubscriptionIsWordSubscription(text);
    ChooseRedirectCalls(WordTokens(text), LineTokens(text), registry, dec, ops);
  }
}
