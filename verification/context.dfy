/** FreeCertContext: the issuance session. Every operation is a pure function
    from the session to a `Step`: what the C# method returns or throws, the
    session afterwards (only the cached top domain can change) and the ordered
    trace of remote calls and file accesses it made. */
module FreeCertContext {
  import opened Failures
  import opened Sequences
  import opened DomainNames
  import opened Storage

  const ChallengeSubDomain: string := "_acme-challenge"
  const TxtType: string := "TXT"

  /** The DNS-01 challenge of one authorization as the CA returns it. */
  datatype Challenge = Challenge(token: string, status: string)

  /** The order as the CA returns it: its identifiers, in order, and the DNS
      challenge of each of its authorizations, in order. */
  datatype Order = Order(domains: seq<string>, status: string, authorizations: seq<Challenge>)

  /** AcmeOrderInfo without the expiry. */
  datatype OrderInfo = OrderInfo(domains: seq<string>, status: string)

  /** AcmeDnsAuthorizationInfo: the TXT record an authorization needs. */
  datatype AuthInfo = AuthInfo(record: string, recordType: string, value: string, status: string)

  /** What the certificate request names. */
  datatype Csr = Csr(commonName: string, subjectAlternativeNames: seq<string>)

  /** One reply of a dynamic DNS provider's AddAsync. */
  datatype AddReply = AddReply(error: bool, message: string)

  /** A dynamic DNS provider: its answer to AddAsync(domain, subDomain, type, value). */
  datatype Provider = Provider(add: (string, string, string, string) -> AddReply)

  /** AutoCreateDnsRecordResult; the message is null on success. */
  datatype DnsOutcome = DnsOutcome(success: bool, errorMessage: Option<string>)

  /** A remote call or file access, in the order made. */
  datatype Call =
    | FetchOrder                          // OrderContext.Resource()
    | FetchAuthorizations                 // OrderContext.Authorizations()
    | FetchDnsChallenge(index: nat)       // authorization.Dns()
    | FetchChallenge(index: nat)          // challengeContext.Resource()
    | Validate(index: nat)                // challengeContext.Validate()
    | QueryTxt(name: string)              // DnsResolver.QueryTxtRecord
    | DnsDelete(domain: string, subDomain: string)
    | DnsAdd(domain: string, subDomain: string, recordType: string, value: string)
    | Finalize(csr: Csr)                  // OrderContext.Finalize
    | Download                            // OrderContext.Download()
    | ReadFile(path: string)
    | WriteFile(path: string, content: string)

  /** The session: work directory, account key, the order, and the cached top
      domain ("" until computed). */
  datatype Context = Context(workDir: string, accountKey: string, order: Order, topDomain: string)

  datatype Step<+T> = Step(result: Result<T>, ctx: Context, calls: seq<Call>)

  /** The class invariant: a cached top domain is the one the order determines. */
  ghost predicate Valid(ctx: Context)
  {
    ctx.topDomain == "" || TopDomainOf(ctx.order.domains) == Ok(ctx.topDomain)
  }

  /** A freshly bound session has nothing cached and works in the builder's
      work directory (the one constant both classes read). */
  function NewContext(layout: Layout, accountKey: string, order: Order): (ctx: Context)
    ensures Valid(ctx) && ctx.topDomain == ""
    ensures ctx.workDir == layout.workDir && ctx.accountKey == accountKey && ctx.order == order
  {
    Context(layout.workDir, accountKey, order, "")
  }

  /** Only the cache differs between two sessions. */
  ghost predicate SameSession(a: Context, b: Context)
  {
    a.workDir == b.workDir && a.accountKey == b.accountKey && a.order == b.order
  }

  /** The record name every authorization of the session shares. */
  function ChallengeRecord(top: string): string
  {
    ChallengeSubDomain + "." + top
  }

  /** GetOrderInfoAsync: one read of the order, reporting its identifiers in
      order and its status. */
  function GetOrderInfo(ctx: Context): (s: Step<OrderInfo>)
    ensures s.ctx == ctx && s.calls == [FetchOrder]
    ensures s.result.Ok? && s.result.value.domains == ctx.order.domains && s.result.value.status == ctx.order.status
  {
    Step(Ok(OrderInfo(ctx.order.domains, ctx.order.status)), ctx, [FetchOrder])
  }

  /** GetTopDomainAsync: computed from the order on first use, then cached. */
  function GetTopDomain(ctx: Context): (s: Step<string>)
    ensures SameSession(s.ctx, ctx)
    ensures ctx.topDomain != "" ==> s == Step(Ok(ctx.topDomain), ctx, [])
    ensures ctx.topDomain == "" ==> s.calls == [FetchOrder] && s.result == TopDomainOf(ctx.order.domains)
    ensures Valid(ctx) ==> Valid(s.ctx) && s.result == TopDomainOf(ctx.order.domains)
    ensures s.result.Ok? ==> s.ctx.topDomain == s.result.value != ""
    ensures s.result.Err? ==> s.ctx == ctx
  {
    if ctx.topDomain == "" then
      var info := GetOrderInfo(ctx);
      match TopDomainOf(info.result.value.domains)
      case Err(e) => Step(Err(e), ctx, info.calls)
      case Ok(top) => Step(Ok(top), ctx.(topDomain := top), info.calls)
    else Step(Ok(ctx.topDomain), ctx, [])
  }

  /** Once computed, the top domain is served from the cache: the same value
      and no further fetch of the order. */
  lemma TopDomainMemoized(ctx: Context)
    requires Valid(ctx)
    ensures var first := GetTopDomain(ctx);
      first.result.Ok? ==> GetTopDomain(first.ctx) == Step(first.result, first.ctx, [])
    ensures var first := GetTopDomain(ctx);
      Count(first.calls, FetchOrder) == (if ctx.topDomain == "" then 1 else 0)
  {
  }

  /** The authorization entry the session expects for the `i`-th authorization. */
  function ExpectedAuthorization(ctx: Context, dnsTxt: (string, string) -> string, top: string, i: nat): AuthInfo
    requires i < |ctx.order.authorizations|
  {
    var ch := ctx.order.authorizations[i];
    AuthInfo(ChallengeRecord(top), TxtType, dnsTxt(ctx.accountKey, ch.token), ch.status)
  }

  /** GetAuthorizationsAsync, from the `i`-th authorization on; `acc` holds
      the entries built so far and the trace is that of this part only. */
  function CollectFrom(ctx: Context, dnsTxt: (string, string) -> string, i: nat, acc: seq<AuthInfo>): (s: Step<seq<AuthInfo>>)
    requires i <= |ctx.order.authorizations|
    ensures SameSession(s.ctx, ctx)
    ensures Valid(ctx) ==> Valid(s.ctx)
    ensures ctx.topDomain != "" ==> s.ctx == ctx
    decreases |ctx.order.authorizations| - i
  {
    if i == |ctx.order.authorizations| then Step(Ok(acc), ctx, [])
    else
      var ch := ctx.order.authorizations[i];
      var value := dnsTxt(ctx.accountKey, ch.token);
      var t := GetTopDomain(ctx);
      var calls := [FetchDnsChallenge(i), FetchChallenge(i)] + t.calls;
      match t.result
      case Err(e) => Step(Err(e), t.ctx, calls)
      case Ok(top) =>
        var rest := CollectFrom(t.ctx, dnsTxt, i + 1, acc + [AuthInfo(ChallengeRecord(top), TxtType, value, ch.status)]);
        Step(rest.result, rest.ctx, calls + rest.calls)
  }

  /** GetAuthorizationsAsync. `dnsTxt` is the key authorization digest of the
      account key and a token (Certes' DnsTxt). */
  function GetAuthorizations(ctx: Context, dnsTxt: (string, string) -> string): (s: Step<seq<AuthInfo>>)
    ensures SameSession(s.ctx, ctx)
    ensures Valid(ctx) ==> Valid(s.ctx)
    ensures ctx.topDomain != "" ==> s.ctx == ctx
  {
    var rest := CollectFrom(ctx, dnsTxt, 0, []);
    Step(rest.result, rest.ctx, [FetchAuthorizations] + rest.calls)
  }

  /** Calls that only read from the CA. */
  predicate IsFetch(c: Call)
  {
    c.FetchOrder? || c.FetchAuthorizations? || c.FetchDnsChallenge? || c.FetchChallenge?
  }

  ghost predicate OnlyFetches(calls: seq<Call>)
  {
    forall k :: 0 <= k < |calls| ==> IsFetch(calls[k])
  }

  lemma {:induction false} CollectFromResult(ctx: Context, dnsTxt: (string, string) -> string, i: nat, acc: seq<AuthInfo>)
    requires Valid(ctx) && i <= |ctx.order.authorizations|
    requires i > 0 ==> ctx.topDomain != ""
    requires |acc| == i
    requires forall j :: 0 <= j < i ==> acc[j] == ExpectedAuthorization(ctx, dnsTxt, ctx.topDomain, j)
    ensures var s := CollectFrom(ctx, dnsTxt, i, acc);
      && Valid(s.ctx)
      && (s.result.Ok? <==> i == |ctx.order.authorizations| || TopDomainOf(ctx.order.domains).Ok?)
      && (s.result.Err? ==> s.result.error == TopDomainOf(ctx.order.domains).error)
      && (s.result.Ok? ==> |s.result.value| == |ctx.order.authorizations|)
      && (s.result.Ok? && i < |ctx.order.authorizations| ==> s.ctx.topDomain != "")
      && (s.result.Ok? ==> forall j :: 0 <= j < |s.result.value| ==>
            s.result.value[j] == ExpectedAuthorization(ctx, dnsTxt, s.ctx.topDomain, j))
    decreases |ctx.order.authorizations| - i
  {
    if i < |ctx.order.authorizations| {
      var ch := ctx.order.authorizations[i];
      var t := GetTopDomain(ctx);
      if t.result.Ok? {
        var top := t.result.value;
        var acc' := acc + [AuthInfo(ChallengeRecord(top), TxtType, dnsTxt(ctx.accountKey, ch.token), ch.status)];
        assert i > 0 ==> top == ctx.topDomain;
        CollectFromResult(t.ctx, dnsTxt, i + 1, acc');
      }
    }
  }

  /** One step of the collection loop, spelled out. */
  lemma CollectFromStep(ctx: Context, dnsTxt: (string, string) -> string, i: nat, acc: seq<AuthInfo>)
    requires i < |ctx.order.authorizations|
    ensures var t := GetTopDomain(ctx);
      var mid := [FetchDnsChallenge(i), FetchChallenge(i)];
      var s := CollectFrom(ctx, dnsTxt, i, acc);
      && (t.result.Err? ==> s.calls == mid + t.calls)
      && (t.result.Ok? ==>
            var ch := ctx.order.authorizations[i];
            var acc' := acc + [AuthInfo(ChallengeRecord(t.result.value), TxtType, dnsTxt(ctx.accountKey, ch.token), ch.status)];
            s.calls == mid + t.calls + CollectFrom(t.ctx, dnsTxt, i + 1, acc').calls)
  {
  }

  lemma {:induction false} CollectFromFetches(ctx: Context, dnsTxt: (string, string) -> string, i: nat, acc: seq<AuthInfo>)
    requires i <= |ctx.order.authorizations|
    ensures OnlyFetches(CollectFrom(ctx, dnsTxt, i, acc).calls)
    decreases |ctx.order.authorizations| - i
  {
    if i < |ctx.order.authorizations| {
      CollectFromStep(ctx, dnsTxt, i, acc);
      var ch := ctx.order.authorizations[i];
      var t := GetTopDomain(ctx);
      var pre := [FetchDnsChallenge(i), FetchChallenge(i)] + t.calls;
      assert OnlyFetches(pre);
      if t.result.Ok? {
        var acc' := acc + [AuthInfo(ChallengeRecord(t.result.value), TxtType, dnsTxt(ctx.accountKey, ch.token), ch.status)];
        CollectFromFetches(t.ctx, dnsTxt, i + 1, acc');
        OnlyFetchesAppend(pre, CollectFrom(t.ctx, dnsTxt, i + 1, acc').calls);
      }
    }
  }

  lemma {:induction false} CollectFromOrderFetches(ctx: Context, dnsTxt: (string, string) -> string, i: nat, acc: seq<AuthInfo>)
    requires i <= |ctx.order.authorizations|
    requires i > 0 ==> ctx.topDomain != ""
    ensures Count(CollectFrom(ctx, dnsTxt, i, acc).calls, FetchOrder)
      == if ctx.topDomain == "" && i < |ctx.order.authorizations| then 1 else 0
    decreases |ctx.order.authorizations| - i
  {
    if i < |ctx.order.authorizations| {
      CollectFromStep(ctx, dnsTxt, i, acc);
      var ch := ctx.order.authorizations[i];
      var t := GetTopDomain(ctx);
      var mid := [FetchDnsChallenge(i), FetchChallenge(i)];
      CountAppend(mid, t.calls, FetchOrder);
      assert Count(mid, FetchOrder) == 0;
      assert Count(t.calls, FetchOrder) == if ctx.topDomain == "" then 1 else 0;
      if t.result.Ok? {
        var acc' := acc + [AuthInfo(ChallengeRecord(t.result.value), TxtType, dnsTxt(ctx.accountKey, ch.token), ch.status)];
        CollectFromOrderFetches(t.ctx, dnsTxt, i + 1, acc');
        CountAppend(mid + t.calls, CollectFrom(t.ctx, dnsTxt, i + 1, acc').calls, FetchOrder);
      }
    }
  }

  /** GetAuthorizationsAsync returns one entry per authorization, in order:
      the shared record `_acme-challenge.<top>`, type TXT, the digest of the
      token and the challenge status. It fails only when the top domain is
      undefined and there is at least one authorization. */
  lemma GetAuthorizationsResult(ctx: Context, dnsTxt: (string, string) -> string)
    requires Valid(ctx)
    ensures var s := GetAuthorizations(ctx, dnsTxt);
      && Valid(s.ctx)
      && (s.result.Ok? <==> |ctx.order.authorizations| == 0 || TopDomainOf(ctx.order.domains).Ok?)
      && (s.result.Err? ==> s.result.error == TopDomainOf(ctx.order.domains).error)
      && (s.result.Ok? ==> |s.result.value| == |ctx.order.authorizations|)
      && (s.result.Ok? && |ctx.order.authorizations| > 0 ==> s.ctx.topDomain == TopDomainOf(ctx.order.domains).value)
      && (s.result.Ok? ==> forall j :: 0 <= j < |s.result.value| ==>
            s.result.value[j] == ExpectedAuthorization(ctx, dnsTxt, s.ctx.topDomain, j))
  {
    CollectFromResult(ctx, dnsTxt, 0, []);
  }

  /** It only reads from the CA, starting with the authorizations, and
      fetches the order at most once, and not at all once the top domain is
      cached. */
  lemma GetAuthorizationsCalls(ctx: Context, dnsTxt: (string, string) -> string)
    ensures var s := GetAuthorizations(ctx, dnsTxt);
      && |s.calls| > 0 && s.calls[0] == FetchAuthorizations
      && OnlyFetches(s.calls)
      && Count(s.calls, FetchOrder) == (if ctx.topDomain == "" && |ctx.order.authorizations| > 0 then 1 else 0)
  {
    CollectFromFetches(ctx, dnsTxt, 0, []);
    CollectFromOrderFetches(ctx, dnsTxt, 0, []);
    var rest := CollectFrom(ctx, dnsTxt, 0, []);
    assert GetAuthorizations(ctx, dnsTxt).calls == [FetchAuthorizations] + rest.calls;
    CountAppend([FetchAuthorizations], rest.calls, FetchOrder);
    OnlyFetchesAppend([FetchAuthorizations], rest.calls);
  }

  /** The digests the session expects, in authorization order. */
  function Values(auths: seq<AuthInfo>): (vs: seq<string>)
    ensures |vs| == |auths|
    ensures forall j :: 0 <= j < |auths| ==> vs[j] == auths[j].value
  {
    seq(|auths|, j requires 0 <= j < |auths| => auths[j].value)
  }

  /** GetDnsTxtRecordAsync: the TXT strings public DNS holds for the shared
      record name (`dns` is the resolver). */
  function GetDnsTxtRecords(ctx: Context, dns: string -> seq<string>): (s: Step<seq<string>>)
    ensures SameSession(s.ctx, ctx)
    ensures Valid(ctx) ==> Valid(s.ctx)
    ensures ctx.topDomain != "" ==> s.ctx == ctx
  {
    var t := GetTopDomain(ctx);
    match t.result
    case Err(e) => Step(Err(e), t.ctx, t.calls)
    case Ok(top) => Step(Ok(dns(ChallengeRecord(top))), t.ctx, t.calls + [QueryTxt(ChallengeRecord(top))])
  }

  /** The lookup returns exactly what the resolver holds for
      `_acme-challenge.<top>`, after the top-domain lookup and one TXT query
      of that name; without a top domain it fails with that error and queries
      nothing. */
  lemma GetDnsTxtRecordsSpec(ctx: Context, dns: string -> seq<string>)
    requires Valid(ctx)
    ensures var s := GetDnsTxtRecords(ctx, dns);
      && (s.result.Ok? <==> TopDomainOf(ctx.order.domains).Ok?)
      && (s.result.Err? ==> s.result.error == TopDomainOf(ctx.order.domains).error && s.calls == GetTopDomain(ctx).calls)
      && (s.result.Ok? ==>
            var name := ChallengeRecord(TopDomainOf(ctx.order.domains).value);
            s.result.value == dns(name) && s.calls == GetTopDomain(ctx).calls + [QueryTxt(name)])
  {
  }

  /** The loop of CheckDnsTxtRecordAsync: false at the first entry whose value
      was not observed. */
  function AllPresent(auths: seq<AuthInfo>, records: seq<string>): (ok: bool)
    ensures ok <==> forall j :: 0 <= j < |auths| ==> auths[j].value in records
  {
    if |auths| == 0 then true
    else if auths[0].value !in records then false
    else AllPresent(auths[1..], records)
  }

  /** CheckDnsTxtRecordAsync. */
  function CheckDnsTxtRecord(ctx: Context, dnsTxt: (string, string) -> string, dns: string -> seq<string>): (s: Step<bool>)
    ensures SameSession(s.ctx, ctx)
    ensures Valid(ctx) ==> Valid(s.ctx)
    ensures ctx.topDomain != "" ==> s.ctx == ctx
  {
    var r := GetDnsTxtRecords(ctx, dns);
    match r.result
    case Err(e) => Step(Err(e), r.ctx, r.calls)
    case Ok(records) =>
      var a := GetAuthorizations(r.ctx, dnsTxt);
      match a.result
      case Err(e) => Step(Err(e), a.ctx, r.calls + a.calls)
      case Ok(auths) => Step(Ok(AllPresent(auths, records)), a.ctx, r.calls + a.calls)
  }

  /** The check succeeds exactly when the top domain is defined, and then says
      true exactly when every expected digest is among the observed strings of
      `_acme-challenge.<top>`; with no authorizations it says true. */
  lemma CheckDnsTxtRecordSpec(ctx: Context, dnsTxt: (string, string) -> string, dns: string -> seq<string>)
    requires Valid(ctx)
    ensures var s := CheckDnsTxtRecord(ctx, dnsTxt, dns);
      && Valid(s.ctx)
      && (s.result.Ok? <==> TopDomainOf(ctx.order.domains).Ok?)
      && (s.result.Err? ==> s.result.error == TopDomainOf(ctx.order.domains).error)
      && (s.result.Ok? ==>
            var observed := dns(ChallengeRecord(TopDomainOf(ctx.order.domains).value));
            (s.result.value <==> forall j :: 0 <= j < |ctx.order.authorizations| ==>
               dnsTxt(ctx.accountKey, ctx.order.authorizations[j].token) in observed))
      && (s.result.Ok? && |ctx.order.authorizations| == 0 ==> s.result.value)
  {
    var r := GetDnsTxtRecords(ctx, dns);
    if r.result.Ok? {
      GetAuthorizationsResult(r.ctx, dnsTxt);
      var a := GetAuthorizations(r.ctx, dnsTxt);
      assert a.result.Ok?;
      var auths := a.result.value;
      forall j | 0 <= j < |auths|
        ensures auths[j].value == dnsTxt(ctx.accountKey, ctx.order.authorizations[j].token)
      {
        assert auths[j] == ExpectedAuthorization(r.ctx, dnsTxt, a.ctx.topDomain, j);
      }
    }
  }

  /** Extra observed strings never turn a passing check into a failing one. */
  lemma CheckDnsTxtRecordMonotone(ctx: Context, dnsTxt: (string, string) -> string, dns: string -> seq<string>, more: string -> seq<string>)
    requires Valid(ctx)
    requires forall name, v :: v in dns(name) ==> v in more(name)
    ensures CheckDnsTxtRecord(ctx, dnsTxt, dns).result == Ok(true) ==> CheckDnsTxtRecord(ctx, dnsTxt, more).result == Ok(true)
  {
    CheckDnsTxtRecordSpec(ctx, dnsTxt, dns);
    CheckDnsTxtRecordSpec(ctx, dnsTxt, more);
  }

  /** The provider's answer to adding the TXT value `v` under the shared
      challenge name of `top`. */
  function Reply(p: Provider, top: string, v: string): AddReply
  {
    p.add(top, ChallengeSubDomain, TxtType, v)
  }

  function AddCall(top: string, v: string): Call
  {
    DnsAdd(top, ChallengeSubDomain, TxtType, v)
  }

  /** The add loop of AutoCreateDnsRecord over the expected digests. Returns
      the outcome and the add calls made: the first adds, in order. */
  function AddRecords(p: Provider, top: string, values: seq<string>): (r: (DnsOutcome, seq<Call>))
    ensures |r.1| <= |values|
    ensures forall j :: 0 <= j < |r.1| ==> r.1[j] == AddCall(top, values[j])
  {
    if |values| == 0 then (DnsOutcome(true, None), [])
    else
      var reply := Reply(p, top, values[0]);
      if reply.error then (DnsOutcome(false, Some(reply.message)), [AddCall(top, values[0])])
      else
        var rest := AddRecords(p, top, values[1..]);
        assert forall j :: 1 <= j < |values| ==> values[1..][j - 1] == values[j];
        (rest.0, [AddCall(top, values[0])] + rest.1)
  }

  /** The provider accepts the first `k` values. */
  ghost predicate Accepted(p: Provider, top: string, values: seq<string>, k: nat)
    requires k <= |values|
  {
    forall j :: 0 <= j < k ==> !Reply(p, top, values[j]).error
  }

  lemma AcceptedCons(p: Provider, top: string, values: seq<string>, k: nat)
    requires 0 < k <= |values|
    ensures Accepted(p, top, values, k) <==> !Reply(p, top, values[0]).error && Accepted(p, top, values[1..], k - 1)
  {
    var tail := values[1..];
    if !Reply(p, top, values[0]).error && Accepted(p, top, tail, k - 1) {
      forall j | 1 <= j < k ensures !Reply(p, top, values[j]).error {
        assert values[j] == tail[j - 1];
      }
    }
    if Accepted(p, top, values, k) {
      forall j | 0 <= j < k - 1 ensures !Reply(p, top, tail[j]).error {
        assert tail[j] == values[j + 1];
      }
    }
  }

  /** What the add loop promises after `k` adds of `expected`: every add but
      the last was accepted; success means all were made and accepted; a
      failure reports the message of the last, rejected add. */
  ghost predicate AddsOutcome(p: Provider, top: string, expected: seq<string>, k: nat, outcome: DnsOutcome)
  {
    && k <= |expected|
    && (k > 0 ==> Accepted(p, top, expected, k - 1))
    && (outcome.success <==> k == |expected| && Accepted(p, top, expected, k))
    && (outcome.success ==> outcome.errorMessage == None)
    && (!outcome.success ==>
          && k > 0
          && Reply(p, top, expected[k - 1]).error
          && outcome.errorMessage == Some(Reply(p, top, expected[k - 1]).message))
  }

  /** The loop stops at the first rejected add and succeeds only when every
      add was accepted. */
  lemma {:induction false} AddRecordsOutcome(p: Provider, top: string, values: seq<string>)
    ensures var r := AddRecords(p, top, values); AddsOutcome(p, top, values, |r.1|, r.0)
  {
    if |values| > 0 {
      if Reply(p, top, values[0]).error {
        assert !Accepted(p, top, values, 1);
      } else {
        var tail := values[1..];
        var rest := AddRecords(p, top, tail);
        var m := |rest.1|;
        AddRecordsOutcome(p, top, tail);
        assert AddRecords(p, top, values) == (rest.0, [AddCall(top, values[0])] + rest.1);
        AcceptedCons(p, top, values, m + 1);
        if m > 0 {
          AcceptedCons(p, top, values, m);
          assert tail[m - 1] == values[m];
        }
      }
    }
  }

  /** AutoCreateDnsRecord: a null provider throws before anything else;
      otherwise the authorizations and the top domain are fetched, the shared
      record is deleted once, and one TXT record is added per authorization. */
  function AutoCreateDnsRecord(ctx: Context, dnsTxt: (string, string) -> string, ddns: Option<Provider>): (s: Step<DnsOutcome>)
    ensures SameSession(s.ctx, ctx)
    ensures Valid(ctx) ==> Valid(s.ctx)
    ensures ctx.topDomain != "" ==> s.ctx == ctx
  {
    match ddns
    case None => Step(Err(ArgumentNull("ddns")), ctx, [])
    case Some(p) =>
      var a := GetAuthorizations(ctx, dnsTxt);
      match a.result
      case Err(e) => Step(Err(e), a.ctx, a.calls)
      case Ok(auths) =>
        var t := GetTopDomain(a.ctx);
        match t.result
        case Err(e) => Step(Err(e), t.ctx, a.calls + t.calls)
        case Ok(top) =>
          var (outcome, adds) := AddRecords(p, top, Values(auths));
          Step(Ok(outcome), t.ctx, a.calls + t.calls + [DnsDelete(top, ChallengeSubDomain)] + adds)
  }

  /** The provider is first touched by exactly one delete of the shared record,
      then by `k` adds of the first `k` expected digests, in order. */
  ghost predicate DeleteThenAdds(calls: seq<Call>, top: string, expected: seq<string>, k: nat)
  {
    && k <= |expected|
    && |calls| >= k + 1
    && var d := |calls| - k - 1;
    && calls[d] == DnsDelete(top, ChallengeSubDomain)
    && OnlyFetches(calls[..d])
    && forall j :: 0 <= j < k ==> calls[d + 1 + j] == AddCall(top, expected[j])
  }

  /** The expected digests, in authorization order. */
  function ExpectedValues(ctx: Context, dnsTxt: (string, string) -> string): (vs: seq<string>)
    ensures |vs| == |ctx.order.authorizations|
  {
    seq(|ctx.order.authorizations|, j requires 0 <= j < |ctx.order.authorizations| =>
      dnsTxt(ctx.accountKey, ctx.order.authorizations[j].token))
  }

  lemma AutoCreateDnsRecordNull(ctx: Context, dnsTxt: (string, string) -> string)
    ensures AutoCreateDnsRecord(ctx, dnsTxt, None) == Step(Err(ArgumentNull("ddns")), ctx, [])
  {
  }

  lemma OnlyFetchesAppend(a: seq<Call>, b: seq<Call>)
    requires OnlyFetches(a) && OnlyFetches(b)
    ensures OnlyFetches(a + b)
  {
    forall k | 0 <= k < |a + b| ensures IsFetch((a + b)[k]) {
      if k >= |a| { assert (a + b)[k] == b[k - |a|]; }
    }
  }

  lemma DeleteThenAddsOf(pre: seq<Call>, top: string, expected: seq<string>, adds: seq<Call>)
    requires OnlyFetches(pre) && |adds| <= |expected|
    requires forall j :: 0 <= j < |adds| ==> adds[j] == AddCall(top, expected[j])
    ensures DeleteThenAdds(pre + [DnsDelete(top, ChallengeSubDomain)] + adds, top, expected, |adds|)
  {
    var calls := pre + [DnsDelete(top, ChallengeSubDomain)] + adds;
    assert calls[..|pre|] == pre;
    forall j | 0 <= j < |adds|
      ensures calls[|pre| + 1 + j] == AddCall(top, expected[j])
    {
      assert calls[|pre| + 1 + j] == adds[j];
    }
  }

  /** With a provider the call fails only when the top domain is undefined,
      and then the provider is never touched. */
  lemma AutoCreateDnsRecordErr(ctx: Context, dnsTxt: (string, string) -> string, p: Provider)
    requires Valid(ctx)
    ensures var s := AutoCreateDnsRecord(ctx, dnsTxt, Some(p));
      && Valid(s.ctx)
      && (s.result.Ok? <==> TopDomainOf(ctx.order.domains).Ok?)
      && (s.result.Err? ==> s.result.error == TopDomainOf(ctx.order.domains).error && OnlyFetches(s.calls))
  {
    GetAuthorizationsResult(ctx, dnsTxt);
    GetAuthorizationsCalls(ctx, dnsTxt);
    var a := GetAuthorizations(ctx, dnsTxt);
    if a.result.Ok? {
      var t := GetTopDomain(a.ctx);
      assert OnlyFetches(t.calls);
      OnlyFetchesAppend(a.calls, t.calls);
    }
  }

  /** With a defined top domain the authorizations carry the expected
      digests, in order. */
  lemma GetAuthorizationsValues(ctx: Context, dnsTxt: (string, string) -> string)
    requires Valid(ctx) && TopDomainOf(ctx.order.domains).Ok?
    ensures var a := GetAuthorizations(ctx, dnsTxt);
      && a.result.Ok? && Valid(a.ctx)
      && Values(a.result.value) == ExpectedValues(ctx, dnsTxt)
  {
    GetAuthorizationsResult(ctx, dnsTxt);
    var a := GetAuthorizations(ctx, dnsTxt);
    var auths := a.result.value;
    var expected := ExpectedValues(ctx, dnsTxt);
    forall j | 0 <= j < |auths|
      ensures Values(auths)[j] == expected[j]
    {
      assert auths[j] == ExpectedAuthorization(ctx, dnsTxt, a.ctx.topDomain, j);
    }
  }

  lemma AutoCreateDnsRecordUnfold(ctx: Context, dnsTxt: (string, string) -> string, p: Provider)
    requires Valid(ctx) && TopDomainOf(ctx.order.domains).Ok?
    ensures var a := GetAuthorizations(ctx, dnsTxt);
      var t := GetTopDomain(a.ctx);
      var top := TopDomainOf(ctx.order.domains).value;
      var r := AddRecords(p, top, ExpectedValues(ctx, dnsTxt));
      AutoCreateDnsRecord(ctx, dnsTxt, Some(p))
        == Step(Ok(r.0), t.ctx, a.calls + t.calls + [DnsDelete(top, ChallengeSubDomain)] + r.1)
  {
    GetAuthorizationsValues(ctx, dnsTxt);
  }

  /** When the top domain is defined, the provider sees one delete and then
      the adds the loop makes, over the expected digests. */
  lemma AutoCreateDnsRecordCalls(ctx: Context, dnsTxt: (string, string) -> string, p: Provider)
    requires Valid(ctx) && TopDomainOf(ctx.order.domains).Ok?
    ensures var s := AutoCreateDnsRecord(ctx, dnsTxt, Some(p));
      var top := TopDomainOf(ctx.order.domains).value;
      var expected := ExpectedValues(ctx, dnsTxt);
      var r := AddRecords(p, top, expected);
      s.result == Ok(r.0) && DeleteThenAdds(s.calls, top, expected, |r.1|)
  {
    AutoCreateDnsRecordUnfold(ctx, dnsTxt, p);
    GetAuthorizationsCalls(ctx, dnsTxt);
    var a := GetAuthorizations(ctx, dnsTxt);
    var t := GetTopDomain(a.ctx);
    assert OnlyFetches(t.calls);
    OnlyFetchesAppend(a.calls, t.calls);
    var top := TopDomainOf(ctx.order.domains).value;
    var expected := ExpectedValues(ctx, dnsTxt);
    DeleteThenAddsOf(a.calls + t.calls, top, expected, AddRecords(p, top, expected).1);
  }

  /** With a provider and a defined top domain: the provider sees one delete
      and then `k` adds in order, the first rejected add ends the loop with
      its message, and success means every add was accepted. */
  lemma AutoCreateDnsRecordSpec(ctx: Context, dnsTxt: (string, string) -> string, p: Provider)
    requires Valid(ctx)
    ensures var s := AutoCreateDnsRecord(ctx, dnsTxt, Some(p));
      s.result.Ok? ==>
        var top := TopDomainOf(ctx.order.domains).value;
        var expected := ExpectedValues(ctx, dnsTxt);
        exists k :: DeleteThenAdds(s.calls, top, expected, k) && AddsOutcome(p, top, expected, k, s.result.value)
  {
    AutoCreateDnsRecordErr(ctx, dnsTxt, p);
    if TopDomainOf(ctx.order.domains).Ok? {
      var top := TopDomainOf(ctx.order.domains).value;
      var expected := ExpectedValues(ctx, dnsTxt);
      AutoCreateDnsRecordCalls(ctx, dnsTxt, p);
      AddRecordsOutcome(p, top, expected);
      var k := |AddRecords(p, top, expected).1|;
      assert DeleteThenAdds(AutoCreateDnsRecord(ctx, dnsTxt, Some(p)).calls, top, expected, k);
    }
  }

  /** AuthorizationAsync from the `i`-th authorization on. */
  function ValidateFrom(i: nat, n: nat): (calls: seq<Call>)
    decreases n - i
  {
    if i >= n then [] else [FetchDnsChallenge(i), Validate(i)] + ValidateFrom(i + 1, n)
  }

  /** AuthorizationAsync: asks the CA to validate every DNS challenge and returns
      without waiting for any result. */
  function Authorize(ctx: Context): (s: Step<()>)
    ensures s.result.Ok? && s.ctx == ctx
    ensures |s.calls| >= 1 && s.calls[0] == FetchAuthorizations
  {
    Step(Ok(()), ctx, [FetchAuthorizations] + ValidateFrom(0, |ctx.order.authorizations|))
  }

  lemma {:induction false} ValidateFromShape(i: nat, n: nat)
    ensures |ValidateFrom(i, n)| == if i >= n then 0 else 2 * (n - i)
    ensures forall j :: 0 <= j < n - i ==>
      ValidateFrom(i, n)[2 * j] == FetchDnsChallenge(i + j) && ValidateFrom(i, n)[2 * j + 1] == Validate(i + j)
    ensures forall k :: 0 <= k < |ValidateFrom(i, n)| ==>
      ValidateFrom(i, n)[k].FetchDnsChallenge? || ValidateFrom(i, n)[k].Validate?
    decreases n - i
  {
    if i < n {
      ValidateFromShape(i + 1, n);
      var v := ValidateFrom(i, n);
      var rest := ValidateFrom(i + 1, n);
      assert v == [FetchDnsChallenge(i), Validate(i)] + rest;
      forall j | 1 <= j < n - i
        ensures v[2 * j] == FetchDnsChallenge(i + j) && v[2 * j + 1] == Validate(i + j)
      {
        assert v[2 * j] == rest[2 * (j - 1)];
        assert v[2 * j + 1] == rest[2 * (j - 1) + 1];
      }
      forall k | 2 <= k < |v|
        ensures v[k].FetchDnsChallenge? || v[k].Validate?
      {
        assert v[k] == rest[k - 2];
      }
    }
  }

  /** Validation is triggered exactly once per authorization, in order, each
      right after its challenge is fetched, and the session is untouched. */
  lemma AuthorizeSpec(ctx: Context)
    ensures var s := Authorize(ctx);
      var n := |ctx.order.authorizations|;
      && s.result.Ok? && s.ctx == ctx
      && |s.calls| == 1 + 2 * n
      && s.calls[0] == FetchAuthorizations
      && (forall i :: 0 <= i < n ==> s.calls[1 + 2 * i] == FetchDnsChallenge(i) && s.calls[2 + 2 * i] == Validate(i))
  {
    var n := |ctx.order.authorizations|;
    ValidateFromShape(0, n);
    var s := Authorize(ctx);
    var v := ValidateFrom(0, n);
    forall i | 0 <= i < n
      ensures s.calls[1 + 2 * i] == FetchDnsChallenge(i) && s.calls[2 + 2 * i] == Validate(i)
    {
      assert s.calls[1 + 2 * i] == v[2 * i];
      assert s.calls[2 + 2 * i] == v[2 * i + 1];
    }
  }

  /** There is no polling: no order or challenge status is read back. */
  lemma AuthorizeNoPolling(ctx: Context)
    ensures var s := Authorize(ctx);
      forall k :: 0 <= k < |s.calls| ==> !s.calls[k].FetchOrder? && !s.calls[k].FetchChallenge?
  {
    var n := |ctx.order.authorizations|;
    ValidateFromShape(0, n);
    var s := Authorize(ctx);
    var v := ValidateFrom(0, n);
    forall k | 1 <= k < |s.calls|
      ensures !s.calls[k].FetchOrder? && !s.calls[k].FetchChallenge?
    {
      assert s.calls[k] == v[k - 1];
    }
  }

  /** OrderFinalizeAsync. `csrKey` is the PEM of the key the request builder
      generates. */
  function OrderFinalize(ctx: Context, csrKey: string): (s: Step<()>)
    ensures SameSession(s.ctx, ctx)
    ensures Valid(ctx) ==> Valid(s.ctx)
    ensures ctx.topDomain != "" ==> s.ctx == ctx
  {
    var info := GetOrderInfo(ctx);
    var t := GetTopDomain(info.ctx);
    match t.result
    case Err(e) => Step(Err(e), t.ctx, info.calls + t.calls)
    case Ok(top) =>
      var csr := Csr(top, Without(info.result.value.domains, top));
      Step(Ok(()), t.ctx, info.calls + t.calls + [Finalize(csr), WriteFile(PrivateKeyPath(ctx.workDir, top), csrKey)])
  }

  /** Finalization submits one request whose common name is the top domain and
      whose alternative names are the order's identifiers, in order, with every
      copy of the top domain dropped; then it stores the request's key at the
      top domain's key path. */
  lemma OrderFinalizeSpec(ctx: Context, csrKey: string)
    requires Valid(ctx)
    ensures var s := OrderFinalize(ctx, csrKey);
      && Valid(s.ctx)
      && (s.result.Ok? <==> TopDomainOf(ctx.order.domains).Ok?)
      && (s.result.Err? ==> s.result.error == TopDomainOf(ctx.order.domains).error)
      && (s.result.Ok? ==>
            var top := TopDomainOf(ctx.order.domains).value;
            var domains := ctx.order.domains;
            && |s.calls| >= 2
            && s.calls[|s.calls| - 1] == WriteFile(PrivateKeyPath(ctx.workDir, top), csrKey)
            && s.calls[|s.calls| - 2].Finalize?
            && var csr := s.calls[|s.calls| - 2].csr;
            && csr.commonName == top
            && top !in csr.subjectAlternativeNames
            && (forall d :: d != top ==> Count(csr.subjectAlternativeNames, d) == Count(domains, d))
            && IsSubsequence(csr.subjectAlternativeNames, domains)
            && OnlyFetches(s.calls[..|s.calls| - 2]))
      && (s.result.Err? ==> OnlyFetches(s.calls))
  {
    var info := GetOrderInfo(ctx);
    var t := GetTopDomain(info.ctx);
    var s := OrderFinalize(ctx, csrKey);
    OnlyFetchesAppend(info.calls, t.calls);
    if s.result.Ok? {
      assert s.calls[..|s.calls| - 2] == info.calls + t.calls;
    }
  }

  /** The request names exactly the order's identifiers (as a set) if and only
      if the top domain is itself one of them. */
  lemma CsrNamesMatchOrderIff(domains: seq<string>, top: string)
    ensures ({top} + (set d | d in Without(domains, top)) == (set d | d in domains)) <==> top in domains
  {
    var sans := Without(domains, top);
    if top in domains {
      assert forall d :: d in domains ==> d in {top} + (set x | x in sans);
    } else {
      assert top !in (set d | d in domains);
    }
  }

  /** The effect of one call on the files. */
  function ApplyWrite(files: map<string, string>, c: Call): map<string, string>
  {
    if c.WriteFile? then files[c.path := c.content] else files
  }

  /** Applies the file writes of a trace to a file map. */
  function Replay(files: map<string, string>, calls: seq<Call>): map<string, string>
    decreases |calls|
  {
    if |calls| == 0 then files else Replay(ApplyWrite(files, calls[0]), calls[1..])
  }

  /** ExportCertAsync. `files` is the disk when export starts, `chainPem` what
      the download returns, `pfx` the archive builder (chain, key, friendly
      name, password). */
  function ExportCert(ctx: Context, files: map<string, string>, chainPem: string,
                      pfx: (string, string, string, string) -> string, password: string): (s: Step<()>)
    ensures SameSession(s.ctx, ctx)
    ensures Valid(ctx) ==> Valid(s.ctx)
    ensures ctx.topDomain != "" ==> s.ctx == ctx
  {
    var t := GetTopDomain(ctx);
    match t.result
    case Err(e) => Step(Err(e), t.ctx, t.calls)
    case Ok(top) =>
      var chainPath := ChainPath(ctx.workDir, top);
      var keyPath := PrivateKeyPath(ctx.workDir, top);
      var calls := t.calls + [Download, WriteFile(chainPath, chainPem), ReadFile(keyPath)];
      var files' := files[chainPath := chainPem];
      if keyPath !in files' then Step(Err(FileNotFound(keyPath)), t.ctx, calls)
      else
        var archive := pfx(chainPem, files'[keyPath], top, password);
        Step(Ok(()), t.ctx, calls + [WriteFile(PfxPath(ctx.workDir, top), archive), WriteFile(PasswordPath(ctx.workDir, top), password)])
  }

  /** Export without a stored request key fails after writing the chain. */
  lemma ExportNeedsKey(ctx: Context, files: map<string, string>, chainPem: string,
                       pfx: (string, string, string, string) -> string, password: string)
    requires Valid(ctx) && TopDomainOf(ctx.order.domains).Ok?
    requires PrivateKeyPath(ctx.workDir, TopDomainOf(ctx.order.domains).value) !in files
    ensures var s := ExportCert(ctx, files, chainPem, pfx, password);
      var top := TopDomainOf(ctx.order.domains).value;
      && s.result == Err(FileNotFound(PrivateKeyPath(ctx.workDir, top)))
      && Replay(files, s.calls) == files[ChainPath(ctx.workDir, top) := chainPem]
  {
    ArtifactPathsDistinct(ctx.workDir, TopDomainOf(ctx.order.domains).value);
    var s := ExportCert(ctx, files, chainPem, pfx, password);
    var t := GetTopDomain(ctx);
    var top := t.result.value;
    var tail := [Download, WriteFile(ChainPath(ctx.workDir, top), chainPem), ReadFile(PrivateKeyPath(ctx.workDir, top))];
    assert s.calls == t.calls + tail;
    ReplayFetches(files, t.calls);
    ReplayAppend(files, t.calls, tail);
    ReplayThree(files, tail);
  }

  lemma {:induction false} ReplayAppend(files: map<string, string>, a: seq<Call>, b: seq<Call>)
    ensures Replay(files, a + b) == Replay(Replay(files, a), b)
    decreases |a|
  {
    if |a| == 0 {
      assert a + b == b;
    } else {
      assert (a + b)[0] == a[0];
      assert (a + b)[1..] == a[1..] + b;
      ReplayAppend(ApplyWrite(files, a[0]), a[1..], b);
    }
  }

  /** A successful finalize leaves the top domain cached and, on disk, only
      the request key at the top domain's key path. */
  lemma FinalizeWritesKey(ctx: Context, csrKey: string, files: map<string, string>)
    requires Valid(ctx) && TopDomainOf(ctx.order.domains).Ok?
    ensures var f := OrderFinalize(ctx, csrKey);
      var top := TopDomainOf(ctx.order.domains).value;
      && f.result.Ok? && Valid(f.ctx) && f.ctx.topDomain == top
      && Replay(files, f.calls) == files[PrivateKeyPath(ctx.workDir, top) := csrKey]
  {
    var top := TopDomainOf(ctx.order.domains).value;
    var info := GetOrderInfo(ctx);
    var t := GetTopDomain(info.ctx);
    var tail := [Finalize(Csr(top, Without(ctx.order.domains, top))), WriteFile(PrivateKeyPath(ctx.workDir, top), csrKey)];
    assert OrderFinalize(ctx, csrKey).calls == info.calls + t.calls + tail;
    OnlyFetchesAppend(info.calls, t.calls);
    ReplayFetches(files, info.calls + t.calls);
    ReplayAppend(files, info.calls + t.calls, tail);
    ReplayTwo(files, tail);
  }

  /** With a defined top domain and the request key on disk (cached or not,
      e.g. a session freshly bound in a later run), export computes the top
      domain as usual, then downloads, writes the chain, reads the key and
      writes the archive built from the chain and that key, then the password. */
  lemma ExportWithKey(ctx: Context, files: map<string, string>, chainPem: string,
                      pfx: (string, string, string, string) -> string, password: string)
    requires Valid(ctx) && TopDomainOf(ctx.order.domains).Ok?
    requires PrivateKeyPath(ctx.workDir, TopDomainOf(ctx.order.domains).value) in files
    ensures var e := ExportCert(ctx, files, chainPem, pfx, password);
      var top := TopDomainOf(ctx.order.domains).value;
      var key := files[PrivateKeyPath(ctx.workDir, top)];
      && e.result.Ok?
      && e.ctx.topDomain == top && Valid(e.ctx)
      && e.calls == GetTopDomain(ctx).calls +
                    [Download, WriteFile(ChainPath(ctx.workDir, top), chainPem), ReadFile(PrivateKeyPath(ctx.workDir, top)),
                     WriteFile(PfxPath(ctx.workDir, top), pfx(chainPem, key, top, password)),
                     WriteFile(PasswordPath(ctx.workDir, top), password)]
      && Replay(files, e.calls) == files[ChainPath(ctx.workDir, top) := chainPem]
                                       [PfxPath(ctx.workDir, top) := pfx(chainPem, key, top, password)]
                                       [PasswordPath(ctx.workDir, top) := password]
  {
    var top := TopDomainOf(ctx.order.domains).value;
    var key := files[PrivateKeyPath(ctx.workDir, top)];
    ArtifactPathsDistinct(ctx.workDir, top);
    var t := GetTopDomain(ctx);
    var tail := [Download, WriteFile(ChainPath(ctx.workDir, top), chainPem), ReadFile(PrivateKeyPath(ctx.workDir, top)),
                 WriteFile(PfxPath(ctx.workDir, top), pfx(chainPem, key, top, password)),
                 WriteFile(PasswordPath(ctx.workDir, top), password)];
    assert ExportCert(ctx, files, chainPem, pfx, password).calls == t.calls + tail;
    ReplayFetches(files, t.calls);
    ReplayAppend(files, t.calls, tail);
    ReplayFive(files, tail);
    ReplayThree(files, tail[..3]);
    ReplayTwo(Replay(files, tail[..3]), tail[3..]);
  }

  lemma ReplayFive(files: map<string, string>, calls: seq<Call>)
    requires |calls| == 5
    ensures Replay(files, calls) == Replay(Replay(files, calls[..3]), calls[3..])
  {
    assert calls == calls[..3] + calls[3..];
    ReplayAppend(files, calls[..3], calls[3..]);
  }

  /** Finalize then export: export reads back exactly the key finalize wrote
      (same path), the archive is built from the downloaded chain and that
      key, and the chain, archive and password land at their own paths. */
  lemma FinalizeThenExport(ctx: Context, csrKey: string, files: map<string, string>, chainPem: string,
                           pfx: (string, string, string, string) -> string, password: string)
    requires Valid(ctx) && TopDomainOf(ctx.order.domains).Ok?
    ensures var f := OrderFinalize(ctx, csrKey);
      var files1 := Replay(files, f.calls);
      var e := ExportCert(f.ctx, files1, chainPem, pfx, password);
      var top := TopDomainOf(ctx.order.domains).value;
      && f.result.Ok? && e.result.Ok?
      && ReadFile(PrivateKeyPath(ctx.workDir, top)) in e.calls
      && FetchOrder !in e.calls
      && Replay(files1, e.calls) == files1[ChainPath(ctx.workDir, top) := chainPem]
                                          [PfxPath(ctx.workDir, top) := pfx(chainPem, csrKey, top, password)]
                                          [PasswordPath(ctx.workDir, top) := password]
      && Replay(files1, e.calls)[PrivateKeyPath(ctx.workDir, top)] == csrKey
  {
    var top := TopDomainOf(ctx.order.domains).value;
    ArtifactPathsDistinct(ctx.workDir, top);
    FinalizeWritesKey(ctx, csrKey, files);
    var f := OrderFinalize(ctx, csrKey);
    ExportWithKey(f.ctx, Replay(files, f.calls), chainPem, pfx, password);
    var e := ExportCert(f.ctx, Replay(files, f.calls), chainPem, pfx, password);
    assert GetTopDomain(f.ctx).calls == [];
    assert e.calls[2] == ReadFile(PrivateKeyPath(ctx.workDir, top));
  }

  lemma ReplayTwo(files: map<string, string>, calls: seq<Call>)
    requires |calls| == 2
    ensures Replay(files, calls) == ApplyWrite(ApplyWrite(files, calls[0]), calls[1])
  {
    var c1 := calls[1..];
    assert c1[0] == calls[1] && c1[1..] == [];
    assert Replay(files, calls) == Replay(ApplyWrite(files, calls[0]), c1);
  }

  lemma ReplayThree(files: map<string, string>, calls: seq<Call>)
    requires |calls| == 3
    ensures Replay(files, calls) == ApplyWrite(ApplyWrite(ApplyWrite(files, calls[0]), calls[1]), calls[2])
  {
    ReplayTwo(ApplyWrite(files, calls[0]), calls[1..]);
  }

  lemma {:induction false} ReplayFetches(files: map<string, string>, calls: seq<Call>)
    requires OnlyFetches(calls)
    ensures Replay(files, calls) == files
    decreases |calls|
  {
    if |calls| > 0 {
      assert IsFetch(calls[0]);
      assert OnlyFetches(calls[1..]) by {
        forall k | 0 <= k < |calls[1..]| ensures IsFetch(calls[1..][k]) { assert calls[1..][k] == calls[k + 1]; }
      }
      ReplayFetches(files, calls[1..]);
    }
  }
}
