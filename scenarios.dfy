/** Concrete resolutions: one full round trip through a single gateway, and
    the two kinds of URL template. */
module Scenarios {
  import opened Signals
  import opened CallExecutor
  import opened GatewayClient
  import opened Resolution

  const Target: Address := "0xaaa"

  /** The lookup the target raises: one gateway template, request 0x1234. */
  function TargetLookup(): Lookup {
    Lookup(Target, ["https://g1/{data}"], "0x1234", "0xdeadbeef", "0x")
  }

  /** The initial call reverts with the lookup; the gateway answers 0x5678;
      the resubmission returns 0xcafe. The call answers 0xcafe after exactly
      one gateway attempt and one resubmission of the gateway's answer. */
  lemma SingleGatewayRoundTrip(tx0: Tx)
    requires tx0.to == Some(Target) && tx0.enableCcipRead
    ensures var net := Network([Some("0x5678")],
                               [Reverted(CallError(true, Some("0x556f1830"), LookupError(TargetLookup()))),
                                Returned("0xcafe")]);
      Resolve(tx0, Target, net) ==
        Transcript(Answer("0xcafe"),
                   [Called(InitialTx(tx0, Target)),
                    Fetched("https://g1/{data}", "0x1234", Target),
                    Called(ResubmitTx(Target, "0x5678"))])
  {
    var rest := Network([Some("0x5678")], [Returned("0xcafe")]);
    var st := State(TargetLookup(), 0);
    RunUnfold(Target, st, rest);
  }

  /** The gateway attempt of that round trip: `{data}` is replaced with the
      request and the request is POSTed with its JSON body. */
  lemma SingleGatewayRequest()
    ensures Fetched("https://g1/{data}", "0x1234", Target).Request() ==
      GatewayRequest("https://g1/0x1234", Post, Some(JsonBody(Target, "0x1234")))
  {
    DataTemplate("https://g1/", "", "0x1234", Target);
    assert "https://g1/" + DATA + "" == "https://g1/{data}";
    assert "https://g1/" + "0x1234" + "" == "https://g1/0x1234";
  }

  /** A template naming both placeholders: both are substituted, and the
      request is POSTed. */
  lemma SenderAndDataTemplate(request: Hex, origin: Address)
    requires BraceFree(request) && BraceFree(origin)
    ensures BuildRequest("https://x.com/{sender}/{data}.json", request, origin) ==
      GatewayRequest("https://x.com/" + origin + "/" + request + ".json", Post, Some(JsonBody(origin, request)))
  {
    SenderDataTemplate("https://x.com/", "/", ".json", request, origin);
    assert "https://x.com/" + SENDER + "/" + DATA + ".json" == "https://x.com/{sender}/{data}.json";
  }

  /** A template without `{data}` goes out with the default method, no body,
      and its URL unmodified. */
  lemma GatewayOnlyTemplate()
    ensures BuildRequest("https://x.com/gateway", "0x1234", Target) ==
      GatewayRequest("https://x.com/gateway", Default, None)
  {
    PlainTemplate("https://x.com/gateway", "0x1234", Target);
  }
}
