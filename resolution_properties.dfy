/** What the resolution loop promises: the cursor discipline of one round,
    the order in which gateways are tried across rounds, the sentinel path,
    and the behaviour of the top-level call before any gateway is contacted. */
module ResolutionProperties {
  import opened Signals
  import opened CallExecutor
  import opened GatewayClient
  import opened Resolution

  /** The gateway attempts for `urls`, in order. */
  function Attempts(urls: seq<string>, request: Hex, origin: Address): (evs: seq<Event>)
    ensures |evs| == |urls|
  {
    if urls == [] then [] else [Fetched(urls[0], request, origin)] + Attempts(urls[1..], request, origin)
  }

  lemma {:induction false} AttemptsSnoc(urls: seq<string>, url: string, request: Hex, origin: Address)
    ensures Attempts(urls + [url], request, origin) ==
      Attempts(urls, request, origin) + [Fetched(url, request, origin)]
    decreases |urls|
  {
    if urls != [] {
      assert (urls + [url])[1..] == urls[1..] + [url];
      AttemptsSnoc(urls[1..], url, request, origin);
    }
  }

  function Prepend(events: seq<Event>, t: Transcript): Transcript {
    Transcript(t.outcome, events + t.events)
  }

  /** The resubmission of the sentinel, repeated `n` times. */
  function Sentinels(origin: Address, n: nat): seq<Event> {
    seq(n, i => Called(ResubmitTx(origin, UNANSWERED)))
  }

  // ---- One round ----

  /** While URLs remain, a round fetches `urls[index]` and moves the cursor
      exactly one place on; only a new lookup from the resubmission can put
      the cursor anywhere else (back to 0, on the new lookup). */
  lemma CursorAdvances(origin: Address, st: State, net: Network)
    requires st.index < |st.lookup.urls| && net.fetches != []
    ensures var r := Round(origin, st, net);
      |r.events| >= 1 &&
      r.events[0] == Fetched(st.lookup.urls[st.index], st.lookup.request, origin) &&
      (r.state == State(st.lookup, st.index + 1) ||
       (r.status.Running? && r.state.index == 0 &&
        net.calls != [] && Classify(net.calls[0], true) == NewLookup(r.state.lookup)))
  {
  }

  /** A failed fetch ends the round with no resubmission: the provider oracle
      is untouched and only the cursor has moved. */
  lemma FetchFailureSkips(origin: Address, st: State, net: Network)
    requires st.index < |st.lookup.urls| && net.fetches != [] && net.fetches[0] == None
    ensures Round(origin, st, net) ==
      RoundResult(Running, State(st.lookup, st.index + 1), Network(net.fetches[1..], net.calls),
                  [Fetched(st.lookup.urls[st.index], st.lookup.request, origin)])
  {
  }

  /** Once every URL has been tried, a round contacts no gateway and
      resubmits exactly `UNANSWERED`; a try-next answer then leaves lookup and
      cursor as they were. */
  lemma ExhaustionSendsSentinel(origin: Address, st: State, net: Network)
    requires st.index >= |st.lookup.urls| && net.calls != []
    ensures var r := Round(origin, st, net);
      r.events == [Called(ResubmitTx(origin, UNANSWERED))] &&
      r.net == Network(net.fetches, net.calls[1..]) &&
      (Classify(net.calls[0], true) == TryNext(origin) ==> r.status == Running && r.state == st)
  {
  }

  /** A new lookup from the origin replaces the active one: the next gateway
      tried is the first URL of the new list, never one of the old list. */
  lemma NewLookupRestartsCursor(origin: Address, st: State, net: Network, d: Hex, l: Lookup)
    requires st.index < |st.lookup.urls| && |net.fetches| >= 2 && net.fetches[0] == Some(d)
    requires net.calls != [] && Classify(net.calls[0], true) == NewLookup(l)
    requires l.sender == origin && l.urls != []
    ensures var t := Run(origin, st, net);
      |t.events| >= 3 && t.events[2] == Fetched(l.urls[0], l.request, origin)
  {
    var r := Round(origin, st, net);
    assert r.state == State(l, 0) && r.status == Running && |r.events| == 2;
    RoundThenFetch(origin, st, net);
  }

  /** A new lookup from the origin in answer to the `UNANSWERED` sentinel
      replaces the exhausted one: the next gateway tried is the first URL of
      the new list. */
  lemma NewLookupAfterSentinelRestartsCursor(origin: Address, st: State, net: Network, l: Lookup)
    requires st.index >= |st.lookup.urls| && net.fetches != []
    requires net.calls != [] && Classify(net.calls[0], true) == NewLookup(l)
    requires l.sender == origin && l.urls != []
    ensures var t := Run(origin, st, net);
      |t.events| >= 2 && t.events[1] == Fetched(l.urls[0], l.request, origin)
  {
    var r := Round(origin, st, net);
    assert r.state == State(l, 0) && r.status == Running && |r.events| == 1;
    RoundThenFetch(origin, st, net);
  }

  /** A try-next from the origin keeps the active lookup and the cursor: the
      next gateway tried is the URL after the one that answered. */
  lemma TryNextKeepsCursor(origin: Address, st: State, net: Network, d: Hex)
    requires st.index + 1 < |st.lookup.urls| && |net.fetches| >= 2 && net.fetches[0] == Some(d)
    requires net.calls != [] && Classify(net.calls[0], true) == TryNext(origin)
    ensures var t := Run(origin, st, net);
      |t.events| >= 3 && t.events[2] == Fetched(st.lookup.urls[st.index + 1], st.lookup.request, origin)
  {
    var r := Round(origin, st, net);
    assert r.state == State(st.lookup, st.index + 1) && r.status == Running && |r.events| == 2;
    RoundThenFetch(origin, st, net);
  }

  /** After a round that goes on, the next event is the next round's first. */
  lemma RoundThenFetch(origin: Address, st: State, net: Network)
    requires Round(origin, st, net).status.Running?
    requires var r := Round(origin, st, net);
      r.state.index < |r.state.lookup.urls| && r.net.fetches != []
    ensures var r := Round(origin, st, net);
      var t := Run(origin, st, net);
      |t.events| > |r.events| &&
      t.events[|r.events|] == Fetched(r.state.lookup.urls[r.state.index], r.state.lookup.request, origin)
  {
    var r := Round(origin, st, net);
    RunUnfold(origin, st, net);
    RunUnfold(origin, r.state, r.net);
    CursorAdvances(origin, r.state, r.net);
  }

  // ---- Many rounds ----

  /** `failed` fetches in a row fail: the gateways `urls[i..j]` are tried
      strictly left to right, each once, and leave the cursor at `j` with no
      resubmission made and the remaining answers untouched. */
  lemma {:induction false} FailedGatewaysInOrder(origin: Address, lookup: Lookup, i: nat, j: nat,
                                                  failed: seq<Option<Hex>>, net: Network)
    requires i <= j <= |lookup.urls| && |failed| == j - i
    requires forall n :: 0 <= n < |failed| ==> failed[n].None?
    ensures Run(origin, State(lookup, i), Network(failed + net.fetches, net.calls)) ==
      Prepend(Attempts(lookup.urls[i..j], lookup.request, origin), Run(origin, State(lookup, j), net))
    decreases j - i
  {
    if i == j {
      assert failed + net.fetches == net.fetches;
      assert lookup.urls[i..j] == [];
    } else {
      var all := Network(failed + net.fetches, net.calls);
      RunAfterFailedFetch(origin, State(lookup, i), all);
      assert all.fetches[1..] == failed[1..] + net.fetches;
      FailedGatewaysInOrder(origin, lookup, i + 1, j, failed[1..], net);
      AttemptsFirst(lookup.urls, i, j, lookup.request, origin);
      PrependTwice(Run(origin, State(lookup, i), all),
                   Run(origin, State(lookup, i + 1), Network(failed[1..] + net.fetches, net.calls)),
                   Run(origin, State(lookup, j), net),
                   [Fetched(lookup.urls[i], lookup.request, origin)],
                   Attempts(lookup.urls[i + 1..j], lookup.request, origin));
    }
  }

  /** The attempts for `urls[i..j]` are `urls[i]`, then those for `urls[i + 1..j]`. */
  lemma AttemptsFirst(urls: seq<string>, i: nat, j: nat, request: Hex, origin: Address)
    requires i < j <= |urls|
    ensures Attempts(urls[i..j], request, origin) ==
      [Fetched(urls[i], request, origin)] + Attempts(urls[i + 1..j], request, origin)
  {
    assert urls[i..j][1..] == urls[i + 1..j];
  }

  lemma PrependTwice(a: Transcript, b: Transcript, c: Transcript, first: seq<Event>, second: seq<Event>)
    requires a == Prepend(first, b) && b == Prepend(second, c)
    ensures a == Prepend(first + second, c)
  {
    SeqAssoc(first, second, c.events);
  }

  /** A round whose fetch fails is followed directly by the next round. */
  lemma RunAfterFailedFetch(origin: Address, st: State, net: Network)
    requires st.index < |st.lookup.urls| && net.fetches != [] && net.fetches[0] == None
    ensures Run(origin, st, net) ==
      Prepend([Fetched(st.lookup.urls[st.index], st.lookup.request, origin)],
              Run(origin, State(st.lookup, st.index + 1), Network(net.fetches[1..], net.calls)))
  {
    FetchFailureSkips(origin, st, net);
    RunUnfold(origin, st, net);
  }

  /** When the gateways `urls[i..j]` fail and `urls[j]` answers `d`, the loop
      makes exactly those attempts, in order, then resubmits `d` once, to the
      origin, before anything else. */
  lemma FirstAnswerResubmitted(origin: Address, lookup: Lookup, i: nat, j: nat,
                               failed: seq<Option<Hex>>, d: Hex, net: Network)
    requires i <= j < |lookup.urls| && |failed| == j - i && net.calls != []
    requires forall n :: 0 <= n < |failed| ==> failed[n].None?
    ensures var t := Run(origin, State(lookup, i), Network(failed + [Some(d)] + net.fetches, net.calls));
      |t.events| >= j - i + 2 &&
      t.events[..j - i + 2] ==
        Attempts(lookup.urls[i..j + 1], lookup.request, origin) + [Called(ResubmitTx(origin, d))]
  {
    var rest := Network([Some(d)] + net.fetches, net.calls);
    assert failed + [Some(d)] + net.fetches == failed + rest.fetches;
    FailedGatewaysInOrder(origin, lookup, i, j, failed, rest);
    AnsweredFetchResubmitted(origin, State(lookup, j), rest, d);
    AttemptsExtend(lookup.urls, i, j, lookup.request, origin);
    PrefixThroughConcat(Attempts(lookup.urls[i..j], lookup.request, origin),
                        Run(origin, State(lookup, j), rest).events,
                        Fetched(lookup.urls[j], lookup.request, origin), Called(ResubmitTx(origin, d)));
  }

  /** The attempts for `urls[i..j + 1]` are those for `urls[i..j]`, then `urls[j]`. */
  lemma AttemptsExtend(urls: seq<string>, i: nat, j: nat, request: Hex, origin: Address)
    requires i <= j < |urls|
    ensures Attempts(urls[i..j + 1], request, origin) ==
      Attempts(urls[i..j], request, origin) + [Fetched(urls[j], request, origin)]
  {
    assert urls[i..j + 1] == urls[i..j] + [urls[j]];
    AttemptsSnoc(urls[i..j], urls[j], request, origin);
  }

  lemma PrefixThroughConcat<T>(before: seq<T>, tail: seq<T>, x: T, y: T)
    requires |tail| >= 2 && tail[..2] == [x, y]
    ensures |before + tail| >= |before| + 2 && (before + tail)[..|before| + 2] == before + [x] + [y]
  {
    assert (before + tail)[..|before| + 2] == before + tail[..2];
  }

  /** A round whose fetch answers `d` resubmits `d` before anything else. */
  lemma AnsweredFetchResubmitted(origin: Address, st: State, net: Network, d: Hex)
    requires st.index < |st.lookup.urls| && net.fetches != [] && net.fetches[0] == Some(d)
    requires net.calls != []
    ensures var t := Run(origin, st, net);
      |t.events| >= 2 &&
      t.events[..2] == [Fetched(st.lookup.urls[st.index], st.lookup.request, origin),
                        Called(ResubmitTx(origin, d))]
  {
    RunUnfold(origin, st, net);
    var r := Round(origin, st, net);
    assert r.events == [Fetched(st.lookup.urls[st.index], st.lookup.request, origin),
                        Called(ResubmitTx(origin, d))];
  }

  /** After exhaustion, a contract that keeps answering try-next keeps the
      loop resubmitting `UNANSWERED`, once per answer, without ever
      contacting a gateway or stopping: the loop only halts here because the
      oracle runs dry. */
  lemma {:induction false} ExhaustionRepeats(origin: Address, st: State, net: Network)
    requires st.index >= |st.lookup.urls|
    requires forall i :: 0 <= i < |net.calls| ==> Classify(net.calls[i], true) == TryNext(origin)
    ensures Run(origin, st, net) == Transcript(Pending, Sentinels(origin, |net.calls|))
    decreases |net.calls|
  {
    RunUnfold(origin, st, net);
    if net.calls != [] {
      var rest := Network(net.fetches, net.calls[1..]);
      ExhaustionSendsSentinel(origin, st, net);
      assert forall i :: 0 <= i < |rest.calls| ==> rest.calls[i] == net.calls[i + 1];
      ExhaustionRepeats(origin, st, rest);
      assert Sentinels(origin, |net.calls|) ==
        [Called(ResubmitTx(origin, UNANSWERED))] + Sentinels(origin, |rest.calls|);
    }
  }

  /** Every provider call the loop makes goes to the origin, with off-chain
      reads disabled. */
  lemma {:induction false} RunCallsOnlyOrigin(origin: Address, st: State, net: Network)
    ensures var t := Run(origin, st, net);
      forall i :: 0 <= i < |t.events| && t.events[i].Called? ==>
        t.events[i].tx.to == Some(origin) && !t.events[i].tx.enableCcipRead
    decreases Size(net)
  {
    RunUnfold(origin, st, net);
    var r := Round(origin, st, net);
    assert forall e :: e in r.events && e.Called? ==> e.tx.to == Some(origin) && !e.tx.enableCcipRead;
    if r.status.Running? {
      RunCallsOnlyOrigin(origin, r.state, r.net);
    }
  }

  /** The loop's answer is bytes some provider call returned, unchanged. */
  lemma {:induction false} RunAnswerFromContract(origin: Address, st: State, net: Network)
    ensures var t := Run(origin, st, net);
      t.outcome.Answer? ==> Returned(t.outcome.data) in net.calls
    decreases Size(net)
  {
    RunUnfold(origin, st, net);
    var r := Round(origin, st, net);
    if r.status.Running? {
      RunAnswerFromContract(origin, r.state, r.net);
    }
  }

  // ---- The top-level call ----

  /** The call's answer is bytes some provider call returned, unchanged. */
  lemma ResolveAnswerFromContract(tx0: Tx, resolved: Address, net: Network)
    ensures var t := Resolve(tx0, resolved, net);
      t.outcome.Answer? ==> Returned(t.outcome.data) in net.calls
  {
    if !PassesThrough(tx0) && net.calls != [] {
      var first := Classify(net.calls[0], false);
      if first.NewLookup? && first.lookup.sender == resolved {
        RunAnswerFromContract(resolved, State(first.lookup, 0), Network(net.fetches, net.calls[1..]));
      }
    }
  }

  /** Without a target or with off-chain reads disabled, the provider's result
      is the call's result, unchanged, after exactly one provider call. */
  lemma PassThrough(tx0: Tx, resolved: Address, net: Network)
    requires PassesThrough(tx0) && net.calls != []
    ensures var t := Resolve(tx0, resolved, net);
      t.events == [Called(tx0)] &&
      (net.calls[0].Returned? ==> t.outcome == Answer(net.calls[0].data)) &&
      (net.calls[0].Reverted? ==> t.outcome == Thrown(Rethrown(net.calls[0].error)))
  {
  }

  /** An initial call that returns bytes is answered with them unchanged and
      no gateway is contacted. */
  lemma InitialBytesUnchanged(tx0: Tx, resolved: Address, net: Network, d: Hex)
    requires !PassesThrough(tx0) && net.calls != [] && net.calls[0] == Returned(d)
    ensures Resolve(tx0, resolved, net) == Transcript(Answer(d), [Called(InitialTx(tx0, resolved))])
  {
  }

  /** An initial lookup scoped to another sender aborts with
      "origin != sender" before any gateway is contacted. */
  lemma OriginCheckedBeforeFetch(tx0: Tx, resolved: Address, net: Network)
    requires !PassesThrough(tx0) && net.calls != []
    requires Classify(net.calls[0], false).NewLookup?
    requires Classify(net.calls[0], false).lookup.sender != resolved
    ensures Resolve(tx0, resolved, net) ==
      Transcript(Thrown(OriginMismatch), [Called(InitialTx(tx0, resolved))])
  {
  }

  /** A try-next revert answering the initial call is not part of the
      protocol there: it is rethrown unchanged. */
  lemma InitialTryNextRethrown(tx0: Tx, resolved: Address, net: Network)
    requires !PassesThrough(tx0) && net.calls != [] && net.calls[0].Reverted?
    requires Classify(net.calls[0], true).TryNext?
    ensures Resolve(tx0, resolved, net) ==
      Transcript(Thrown(Rethrown(net.calls[0].error)), [Called(InitialTx(tx0, resolved))])
  {
    ModeOnlyGatesTryNext(net.calls[0]);
  }
}
