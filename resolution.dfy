/** The Resolution Loop of `CCIPReadV2.call`: the initial call, then rounds
    over the active lookup's gateway URLs, each round resubmitting a gateway's
    answer (or the `UNANSWERED` sentinel) to the origin contract.

    The two kinds of I/O are oracles: `Network.fetches` holds the successive
    gateway answers (None for a throw of fetch, bad JSON or a bad `data`
    field) and `Network.calls` the successive provider results. Each is
    consumed from the front. When the loop needs an answer the oracle no longer
    holds, the outcome is `Pending`: the source would still be awaiting it. */
module Resolution {
  import opened Signals
  import opened CallExecutor
  import opened GatewayClient

  /** The transaction fields the client reads or writes; `others` stands for
      every other field of the request (from, value, blockTag, ...). */
  datatype Tx = Tx(to: Option<string>, data: Hex, enableCcipRead: bool, others: map<string, string>)

  /** One I/O operation that received an answer, in order: a gateway attempt
      on a URL template with the lookup's request and the origin, or a
      provider call. */
  datatype Event = Fetched(template: string, data: Hex, sender: Address) | Called(tx: Tx)
  {
    /** The HTTP request a gateway attempt sends. */
    function Request(): GatewayRequest
      requires Fetched?
    {
      BuildRequest(template, data, sender)
    }
  }

  datatype Outcome = Answer(data: Hex) | Thrown(failure: Failure) | Pending

  datatype Network = Network(fetches: seq<Option<Hex>>, calls: seq<RawResult>)

  function Size(net: Network): nat {
    |net.fetches| + |net.calls|
  }

  /** The loop's working state: the active lookup and the cursor into its URLs. */
  datatype State = State(lookup: Lookup, index: nat)

  /** The state invariant the loop keeps: the active lookup is scoped to the
      origin, and the cursor never passes the end of its URL list. */
  predicate Scoped(origin: Address, st: State) {
    st.lookup.sender == origin && st.index <= |st.lookup.urls|
  }

  datatype Status = Running | Stopped(outcome: Outcome)

  datatype Transcript = Transcript(outcome: Outcome, events: seq<Event>)

  /** What one round did: whether the loop goes on, the state it leaves, the
      oracle answers still unconsumed, and the operations it performed. */
  datatype RoundResult = RoundResult(status: Status, state: State, net: Network, events: seq<Event>)

  /** The call that resubmits a response: `{ to: origin, data: response }`,
      with off-chain reads disabled by `_call`. No other field of the
      caller's transaction is carried over. */
  function ResubmitTx(origin: Address, response: Hex): (tx: Tx)
    ensures tx.to == Some(origin) && tx.data == response && !tx.enableCcipRead
    ensures tx.others == map[]
  {
    Tx(Some(origin), response, false, map[])
  }

  /** The initial call: the caller's transaction aimed at the resolved origin
      with off-chain reads disabled. */
  function InitialTx(tx0: Tx, origin: Address): (tx: Tx)
    ensures tx.to == Some(origin) && tx.data == tx0.data && !tx.enableCcipRead
    ensures tx.others == tx0.others
  {
    tx0.(to := Some(origin), enableCcipRead := false)
  }

  /** How a classified resubmission result moves the loop on from `st`, the
      state after the cursor moved: bytes end it with the answer, an error ends
      it unchanged, a lookup or try-next from another sender ends it with
      "origin != sender", a new lookup replaces the active one and resets the
      cursor, and a try-next keeps both lookup and cursor. */
  function Transition(origin: Address, st: State, next: CallOutcome): (r: (Status, State))
    ensures Scoped(origin, st) ==> Scoped(origin, r.1)
    ensures r.0.Running? <==>
      (next.NewLookup? && next.lookup.sender == origin) || (next.TryNext? && next.sender == origin)
    ensures r.1 == (if r.0.Running? && next.NewLookup? then State(next.lookup, 0) else st)
    ensures next.Bytes? ==> r.0 == Stopped(Answer(next.data))
    ensures next.Throw? ==> r.0 == Stopped(Thrown(next.failure))
    ensures (next.NewLookup? && next.lookup.sender != origin) || (next.TryNext? && next.sender != origin)
      ==> r.0 == Stopped(Thrown(OriginMismatch))
  {
    match next
    case Bytes(data) => (Stopped(Answer(data)), st)
    case Throw(failure) => (Stopped(Thrown(failure)), st)
    case NewLookup(lookup) =>
      if lookup.sender != origin then (Stopped(Thrown(OriginMismatch)), st)
      else (Running, State(lookup, 0))
    case TryNext(sender) =>
      if sender != origin then (Stopped(Thrown(OriginMismatch)), st)
      else (Running, st)
  }

  /** The second half of a round: resubmit `response` to the origin and let
      the classified result decide. */
  function Resubmit(origin: Address, st: State, response: Hex, net: Network, events: seq<Event>): (r: RoundResult)
    ensures Scoped(origin, st) ==> Scoped(origin, r.state)
    ensures r.net.fetches == net.fetches
    ensures |r.events| - |events| == |net.calls| - |r.net.calls| <= 1
    ensures r.status.Running? ==> |r.net.calls| < |net.calls|
    ensures r.net.calls == net.calls || (net.calls != [] && r.net.calls == net.calls[1..])
    ensures r.status == Stopped(Pending) || (net.calls != [] && r.net.calls == net.calls[1..])
    ensures r.status.Stopped? && r.status.outcome.Answer? ==>
      net.calls != [] && net.calls[0] == Returned(r.status.outcome.data)
  {
    if net.calls == [] then RoundResult(Stopped(Pending), st, net, events)
    else
      var m := Transition(origin, st, Classify(net.calls[0], true));
      RoundResult(m.0, m.1, Network(net.fetches, net.calls[1..]),
                  events + [Called(ResubmitTx(origin, response))])
  }

  /** One pass of the `while (true)` body. While URLs remain, the cursor moves
      past the next URL before it is fetched; a failed fetch ends the round
      without a resubmission; a gateway answer is resubmitted. Once every URL
      has been tried, the round resubmits `UNANSWERED` instead. */
  function Round(origin: Address, st: State, net: Network): (r: RoundResult)
    ensures Scoped(origin, st) ==> Scoped(origin, r.state)
    ensures |r.events| == Size(net) - Size(r.net)
    ensures r.status.Running? ==> Size(r.net) < Size(net)
    ensures r.net.calls == net.calls || (net.calls != [] && r.net.calls == net.calls[1..])
    ensures r.status.Stopped? && r.status.outcome.Answer? ==>
      net.calls != [] && net.calls[0] == Returned(r.status.outcome.data)
  {
    if st.index < |st.lookup.urls| then
      var advanced := State(st.lookup, st.index + 1);
      var attempt := Fetched(st.lookup.urls[st.index], st.lookup.request, origin);
      if net.fetches == [] then RoundResult(Stopped(Pending), advanced, net, [])
      else
        var rest := Network(net.fetches[1..], net.calls);
        match net.fetches[0]
        case None => RoundResult(Running, advanced, rest, [attempt])
        case Some(response) => Resubmit(origin, advanced, response, rest, [attempt])
    else
      Resubmit(origin, st, UNANSWERED, net, [])
  }

  /** Rounds from `st` until the loop stops or the oracles run out. */
  function Run(origin: Address, st: State, net: Network): (t: Transcript)
    ensures |t.events| <= Size(net)
    decreases Size(net)
  {
    var r := Round(origin, st, net);
    if r.status.Stopped? then Transcript(r.status.outcome, r.events)
    else
      var t := Run(origin, r.state, r.net);
      Transcript(t.outcome, r.events + t.events)
  }

  /** One step of `Run`: the round, then the rest of the run. */
  lemma RunUnfold(origin: Address, st: State, net: Network)
    ensures var r := Round(origin, st, net);
      Run(origin, st, net) ==
        if r.status.Stopped? then Transcript(r.status.outcome, r.events)
        else Transcript(Run(origin, r.state, r.net).outcome, r.events + Run(origin, r.state, r.net).events)
  {
  }

  lemma SeqAssoc<T>(a: seq<T>, b: seq<T>, c: seq<T>)
    ensures a + (b + c) == (a + b) + c
  {
  }

  /** The caller's transaction is passed straight to the provider. */
  predicate PassesThrough(tx0: Tx) {
    !Truthy(tx0.to) || !tx0.enableCcipRead
  }

  /** `CCIPReadV2.call` on the transaction `tx0`, whose target resolves to
      `resolved`. */
  function Resolve(tx0: Tx, resolved: Address, net: Network): (t: Transcript)
    ensures |t.events| <= Size(net)
  {
    if PassesThrough(tx0) then
      if net.calls == [] then Transcript(Pending, [])
      else
        var out := match net.calls[0]
          case Returned(data) => Answer(data)
          case Reverted(e) => Thrown(Rethrown(e));
        Transcript(out, [Called(tx0)])
    else if net.calls == [] then Transcript(Pending, [])
    else
      var first := Classify(net.calls[0], false);
      var called := [Called(InitialTx(tx0, resolved))];
      if first.Bytes? then Transcript(Answer(first.data), called)
      else if first.Throw? then Transcript(Thrown(first.failure), called)
      else if first.lookup.sender != resolved then Transcript(Thrown(OriginMismatch), called)
      else
        var t := Run(resolved, State(first.lookup, 0), Network(net.fetches, net.calls[1..]));
        Transcript(t.outcome, called + t.events)
  }

  /** The working state of one resolution, updated in place round by round. */
  class Resolver {
    const origin: Address
    var lookup: Lookup
    var index: nat
    /** The operations performed so far. */
    ghost var log: seq<Event>

    ghost predicate Valid()
      reads this
    {
      Scoped(origin, State(lookup, index))
    }

    function Current(): State
      reads this
    {
      State(lookup, index)
    }

    constructor (origin: Address, lookup: Lookup)
      requires lookup.sender == origin
      ensures Valid() && this.origin == origin
      ensures this.lookup == lookup && index == 0 && log == []
    {
      this.origin := origin;
      this.lookup := lookup;
      index := 0;
      log := [];
    }

    /** One round of the loop, consuming oracle answers from `net`. */
    method Step(net: Network) returns (status: Status, rest: Network)
      requires Valid()
      modifies this
      ensures Valid()
      ensures var r := Round(origin, old(Current()), net);
        status == r.status && Current() == r.state && rest == r.net && log == old(log) + r.events
    {
      var response: Hex;
      if index < |lookup.urls| {
        var url := lookup.urls[index];
        index := index + 1;
        // The request handed to fetch; its answer is the next fetch oracle entry.
        var request := BuildRequest(url, lookup.request, origin);
        if net.fetches == [] {
          return Stopped(Pending), net;
        }
        log := log + [Fetched(url, lookup.request, origin)];
        assert log[|log| - 1].Request() == request;
        rest := Network(net.fetches[1..], net.calls);
        var answer := net.fetches[0];
        if answer.None? {
          return Running, rest;
        }
        response := answer.value;
      } else {
        response := UNANSWERED;
        rest := net;
      }
      if rest.calls == [] {
        return Stopped(Pending), rest;
      }
      var next := Classify(rest.calls[0], true);
      log := log + [Called(ResubmitTx(origin, response))];
      rest := Network(rest.fetches, rest.calls[1..]);
      match next {
        case Bytes(data) =>
          return Stopped(Answer(data)), rest;
        case Throw(failure) =>
          return Stopped(Thrown(failure)), rest;
        case NewLookup(l) =>
          if l.sender != origin {
            return Stopped(Thrown(OriginMismatch)), rest;
          }
          index := 0;
          lookup := l;
        case TryNext(sender) =>
          if sender != origin {
            return Stopped(Thrown(OriginMismatch)), rest;
          }
      }
      status := Running;
    }

    /** The `while (true)` loop: rounds until one stops the loop or the
        oracles run out. */
    method Loop(net: Network) returns (out: Outcome)
      requires Valid() && log == []
      modifies this
      ensures Valid()
      ensures Transcript(out, log) == Run(origin, old(Current()), net)
    {
      var rest := net;
      ghost var target := Run(origin, Current(), net);
      var status := Running;
      while status.Running?
        invariant Valid()
        invariant status.Running? ==>
          var t := Run(origin, Current(), rest);
          target == Transcript(t.outcome, log + t.events)
        invariant status.Stopped? ==> target == Transcript(status.outcome, log)
        decreases Size(rest) + (if status.Running? then 1 else 0)
      {
        ghost var r := Round(origin, Current(), rest);
        ghost var prior := log;
        RunUnfold(origin, Current(), rest);
        status, rest := Step(rest);
        assert log == prior + r.events;
        if status.Running? {
          var t := Run(origin, Current(), rest);
          SeqAssoc(prior, r.events, t.events);
        }
      }
      out := status.outcome;
    }
  }

  /** `CCIPReadV2.call`: pass through, or classify the initial call and run the
      loop on a fresh `Resolver` until it stops or the oracles run out. */
  method Call(tx0: Tx, resolved: Address, net: Network) returns (out: Outcome, ghost events: seq<Event>)
    ensures out == Resolve(tx0, resolved, net).outcome
    ensures events == Resolve(tx0, resolved, net).events
  {
    if PassesThrough(tx0) {
      if net.calls == [] {
        return Pending, [];
      }
      events := [Called(tx0)];
      match net.calls[0] {
        case Returned(data) => out := Answer(data);
        case Reverted(e) => out := Thrown(Rethrown(e));
      }
      return;
    }
    if net.calls == [] {
      return Pending, [];
    }
    var first := Classify(net.calls[0], false);
    events := [Called(InitialTx(tx0, resolved))];
    if first.Bytes? {
      return Answer(first.data), events;
    }
    if first.Throw? {
      return Thrown(first.failure), events;
    }
    if first.lookup.sender != resolved {
      return Thrown(OriginMismatch), events;
    }
    var resolver := new Resolver(resolved, first.lookup);
    out := resolver.Loop(Network(net.fetches, net.calls[1..]));
    events := events + resolver.log;
  }
}
